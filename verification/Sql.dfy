/** The history query (src/storage/postgres.rs, `query_events`): its WHERE clause with
    positional parameters, its ordering and limit, and its agreement with the live matcher. */
module Sql {
  import opened Base
  import opened Events
  import opened Filters
  import opened Table
  import opened Histories

  // ---- the WHERE clause ----

  /** One condition and the number of its placeholder. */
  datatype Condition =
    | PubkeyAny(param: nat) | KindAny(param: nat) | CreatedFrom(param: nat) | CreatedTo(param: nat)

  datatype Bind = Texts(texts: seq<string>) | Integers(ints: seq<int>) | BigInt(n: int)

  datatype Query = Query(conditions: seq<Condition>, limitParam: nat, binds: seq<Bind>)

  /** The value bound to `$n`; placeholders count from one. */
  function Param(binds: seq<Bind>, n: nat): Option<Bind> {
    if 1 <= n <= |binds| then Some(binds[n - 1]) else None
  }

  /** A condition's truth on a row, `None` when its placeholder is unbound or of the wrong type. */
  function Eval(c: Condition, binds: seq<Bind>, r: Row): Option<bool> {
    match (c, Param(binds, c.param))
    case (PubkeyAny(_), Some(Texts(ts))) => Some(r.pubkey in ts)
    case (KindAny(_), Some(Integers(ks))) => Some(r.kind in ks)
    case (CreatedFrom(_), Some(BigInt(n))) => Some(r.createdAt >= n)
    case (CreatedTo(_), Some(BigInt(n))) => Some(r.createdAt <= n)
    case _ => None
  }

  /** The conjunction of the conditions. */
  predicate Selects(q: Query, r: Row) {
    forall c :: c in q.conditions ==> Eval(c, q.binds, r) == Some(true)
  }

  ghost predicate WellTyped(q: Query, r: Row) {
    forall c :: c in q.conditions ==> Eval(c, q.binds, r).Some?
  }

  function KindsColumn(kinds: seq<U32>): seq<int> {
    seq(|kinds|, i requires 0 <= i < |kinds| => ToI32(kinds[i]))
  }

  /** The constraints the caller asked for, on a row. */
  predicate Wanted(
      authors: Option<seq<string>>, kinds: Option<seq<U32>>, since: Option<I64>, until: Option<I64>, r: Row)
  {
    && (authors.Some? ==> r.pubkey in authors.value)
    && (kinds.Some? ==> r.kind in KindsColumn(kinds.value))
    && (since.Some? ==> since.value <= r.createdAt)
    && (until.Some? ==> r.createdAt <= until.value)
  }

  /** `usize as i64`. */
  function AsI64(n: nat): (i: int)
    ensures -TWO_63 <= i < TWO_63 && (n - i) % TWO_64 == 0
    ensures n < TWO_63 ==> i == n
    ensures TWO_63 <= n < TWO_64 ==> i < 0
  {
    var m := n % TWO_64;
    if m < TWO_63 then m else m - TWO_64
  }

  /** The query builder: conditions and placeholders first, then the binds in the same order. */
  method BuildQuery(
      authors: Option<seq<string>>, kinds: Option<seq<U32>>, since: Option<I64>, until: Option<I64>, limit: nat)
    returns (q: Query)
    ensures forall r :: WellTyped(q, r) && (Selects(q, r) <==> Wanted(authors, kinds, since, until, r))
    ensures Param(q.binds, q.limitParam) == Some(BigInt(AsI64(limit)))
    ensures |q.binds| == |q.conditions| + 1
    ensures forall i :: 0 <= i < |q.conditions| ==> q.conditions[i].param == i + 1
  {
    var conditions: seq<Condition> := [];
    var paramIdx := 1;
    ghost var a, k, s, u := 0, 0, 0, 0;
    if authors.Some? {
      a := paramIdx;
      conditions := conditions + [PubkeyAny(paramIdx)];
      paramIdx := paramIdx + 1;
    }
    if kinds.Some? {
      k := paramIdx;
      conditions := conditions + [KindAny(paramIdx)];
      paramIdx := paramIdx + 1;
    }
    if since.Some? {
      s := paramIdx;
      conditions := conditions + [CreatedFrom(paramIdx)];
      paramIdx := paramIdx + 1;
    }
    if until.Some? {
      u := paramIdx;
      conditions := conditions + [CreatedTo(paramIdx)];
      paramIdx := paramIdx + 1;
    }
    assert forall c :: c in conditions <==>
      || (authors.Some? && c == PubkeyAny(a)) || (kinds.Some? && c == KindAny(k))
      || (since.Some? && c == CreatedFrom(s)) || (until.Some? && c == CreatedTo(u));
    var binds: seq<Bind> := [];
    if authors.Some? {
      binds := binds + [Texts(authors.value)];
    }
    if kinds.Some? {
      binds := binds + [Integers(KindsColumn(kinds.value))];
    }
    if since.Some? {
      binds := binds + [BigInt(since.value)];
    }
    if until.Some? {
      binds := binds + [BigInt(until.value)];
    }
    binds := binds + [BigInt(AsI64(limit))];
    q := Query(conditions, paramIdx, binds);
    forall r
      ensures WellTyped(q, r) && (Selects(q, r) <==> Wanted(authors, kinds, since, until, r))
    {
      BuiltMeans(authors, kinds, since, until, q, a, k, s, u, r);
    }
  }

  /** Conditions whose placeholders are bound to the right values select exactly the wanted rows. */
  lemma BuiltMeans(
      authors: Option<seq<string>>, kinds: Option<seq<U32>>, since: Option<I64>, until: Option<I64>,
      q: Query, a: nat, k: nat, s: nat, u: nat, r: Row)
    requires forall c :: c in q.conditions <==>
      || (authors.Some? && c == PubkeyAny(a)) || (kinds.Some? && c == KindAny(k))
      || (since.Some? && c == CreatedFrom(s)) || (until.Some? && c == CreatedTo(u))
    requires authors.Some? ==> Param(q.binds, a) == Some(Texts(authors.value))
    requires kinds.Some? ==> Param(q.binds, k) == Some(Integers(KindsColumn(kinds.value)))
    requires since.Some? ==> Param(q.binds, s) == Some(BigInt(since.value))
    requires until.Some? ==> Param(q.binds, u) == Some(BigInt(until.value))
    ensures WellTyped(q, r) && (Selects(q, r) <==> Wanted(authors, kinds, since, until, r))
  {
    assert authors.Some? ==> Eval(PubkeyAny(a), q.binds, r) == Some(r.pubkey in authors.value);
    assert kinds.Some? ==> Eval(KindAny(k), q.binds, r) == Some(r.kind in KindsColumn(kinds.value));
    assert since.Some? ==> Eval(CreatedFrom(s), q.binds, r) == Some(r.createdAt >= since.value);
    assert until.Some? ==> Eval(CreatedTo(u), q.binds, r) == Some(r.createdAt <= until.value);
  }

  // ---- ORDER BY created_at DESC LIMIT n ----

  /** Descending by `created_at`. */
  ghost predicate Descending(rows: seq<Row>) {
    forall i, j :: 0 <= i < j < |rows| ==> rows[i].createdAt >= rows[j].createdAt
  }

  /** `out` is a legal answer: rows wanted, each once, newest first, at most `limit`, and nothing
      wanted is left out unless the answer is full of rows at least as new. Ties may fall either way. */
  ghost predicate IsAnswer(t: seq<Row>, wanted: Row -> bool, limit: nat, out: seq<Row>) {
    && |out| <= limit
    && Distinct(out)
    && Descending(out)
    && (forall r :: r in out ==> r in t && wanted(r))
    && (forall r :: r in t && wanted(r) && r !in out ==> Cut(out, limit, r))
  }

  /** `r` was cut by the limit: the answer is full of rows at least as new. */
  ghost predicate Cut(out: seq<Row>, limit: nat, r: Row) {
    |out| == limit && forall o :: o in out ==> o.createdAt >= r.createdAt
  }

  /** The rows of `t` that are wanted, newest first: one answer to an unlimited query. */
  function Sorted(t: seq<Row>, wanted: Row -> bool): seq<Row> {
    if t == [] then []
    else if wanted(t[0]) then Place(t[0], Sorted(t[1..], wanted))
    else Sorted(t[1..], wanted)
  }

  function Place(r: Row, s: seq<Row>): seq<Row> {
    if s == [] || r.createdAt >= s[0].createdAt then [r] + s else [s[0]] + Place(r, s[1..])
  }

  lemma {:induction false} PlaceMeans(r: Row, s: seq<Row>)
    requires Descending(s) && Distinct(s) && r !in s
    ensures Descending(Place(r, s)) && Distinct(Place(r, s))
    ensures forall q :: q in Place(r, s) <==> q == r || q in s
  {
    if s != [] && r.createdAt < s[0].createdAt {
      PlaceMeans(r, s[1..]);
      assert forall q :: q in s <==> q == s[0] || q in s[1..];
      assert s[0] !in s[1..];
      forall q | q in Place(r, s[1..]) ensures q.createdAt <= s[0].createdAt {
      }
    }
  }

  lemma {:induction false} SortedMeans(t: seq<Row>, wanted: Row -> bool)
    requires UniqueIds(t)
    ensures Descending(Sorted(t, wanted)) && Distinct(Sorted(t, wanted))
    ensures forall q :: q in Sorted(t, wanted) <==> q in t && wanted(q)
  {
    if t != [] {
      SortedMeans(t[1..], wanted);
      assert forall q :: q in t <==> q == t[0] || q in t[1..];
      assert t[0] !in t[1..];
      if wanted(t[0]) {
        PlaceMeans(t[0], Sorted(t[1..], wanted));
      }
    }
  }

  /** Every query has an answer, for every table and limit. */
  lemma AnswerExists(t: seq<Row>, wanted: Row -> bool, limit: nat) returns (out: seq<Row>)
    requires UniqueIds(t)
    ensures IsAnswer(t, wanted, limit, out)
  {
    var s := Sorted(t, wanted);
    SortedMeans(t, wanted);
    out := if |s| <= limit then s else s[..limit];
    forall r | r in s && r !in out ensures Cut(out, limit, r) {
      var i :| 0 <= i < |s| && s[i] == r;
    }
  }

  // ---- agreement with the live matcher ----

  /** What the query is asked for on behalf of a filter. */
  predicate WantedBy(f: Filter, r: Row) {
    Wanted(f.authors, f.kinds, f.since, f.until, r)
  }

  /** The filter uses nothing the query ignores. */
  predicate QueryExpressible(f: Filter) {
    f.ids.None? && forall key :: key in f.tags ==> !Constrains(key)
  }

  lemma KindColumnExact(kinds: seq<U32>, kind: U32)
    ensures ToI32(kind) in KindsColumn(kinds) <==> kind in kinds
  {
    if kind in kinds {
      var i :| 0 <= i < |kinds| && kinds[i] == kind;
      assert KindsColumn(kinds)[i] == ToI32(kind);
    }
  }

  /** A row the query can return passes the live matcher exactly when it meets what the query ignores:
      always, for a filter that uses nothing the query ignores. */
  lemma QuerySound(f: Filter, e: NostrEvent)
    requires WantedBy(f, ToRow(e))
    ensures Matches(f, e) <==> MatchesIds(f, e) && MatchesTags(f, e)
    ensures QueryExpressible(f) ==> Matches(f, e)
  {
    if f.kinds.Some? {
      KindColumnExact(f.kinds.value, e.kind);
    }
  }

  /** The query can return an event that passes the live matcher exactly when the filter names its author
      in full, if it names authors. With full-length authors it always can. */
  lemma QueryExact(f: Filter, e: NostrEvent)
    requires Matches(f, e)
    ensures WantedBy(f, ToRow(e)) <==> (f.authors.Some? ==> e.pubkey in f.authors.value)
    ensures |e.pubkey| == 64 && (f.authors.Some? ==> forall a :: a in f.authors.value ==> |a| == 64)
      ==> WantedBy(f, ToRow(e))
  {
    if f.kinds.Some? {
      KindColumnExact(f.kinds.value, e.kind);
    }
    if f.authors.Some? && |e.pubkey| == 64 && forall a :: a in f.authors.value ==> |a| == 64 {
      var a :| a in f.authors.value && a <= e.pubkey;
      assert a == e.pubkey;
    }
  }

  const NO_FILTER := Filter(None, None, None, None, None, None, map[])

  function FirstTwo(s: string): string {
    if |s| < 2 then s else s[..2]
  }

  /** Where they part, for every event that can be stored: the query ignores an id that is no prefix of the
      event's and a tag the event does not carry, and misses an author given by a proper prefix. */
  lemma QueryAndMatcherDiffer(env: Env, e: NostrEvent, id: string, key: string, values: seq<string>)
    requires Admitted(env, e) && !(id <= e.id)
    requires Constrains(key) && !HasTagValue(e.tags, TrimHashes(key), values)
    ensures var f := NO_FILTER.(ids := Some([id])); WantedBy(f, ToRow(e)) && !Matches(f, e)
    ensures var f := NO_FILTER.(tags := map[key := values]); WantedBy(f, ToRow(e)) && !Matches(f, e)
    ensures var f := NO_FILTER.(authors := Some([FirstTwo(e.pubkey)])); Matches(f, e) && !WantedBy(f, ToRow(e))
  {
    hide Constrains, HasTagValue, TrimHashes, Admitted;
    AdmittedMeans(env, e);
    assert key in NO_FILTER.(tags := map[key := values]).tags;
    PrefixMissed(e);
  }

  lemma PrefixMissed(e: NostrEvent)
    requires |e.pubkey| > 2
    ensures var f := NO_FILTER.(authors := Some([FirstTwo(e.pubkey)])); Matches(f, e) && !WantedBy(f, ToRow(e))
  {
    assert [FirstTwo(e.pubkey)][0] in [FirstTwo(e.pubkey)] && FirstTwo(e.pubkey) <= e.pubkey &&
      |FirstTwo(e.pubkey)| == 2;
  }

  /** Such an id and such a tag constraint there always are. */
  lemma DifferenceExists(env: Env, e: NostrEvent)
    requires Admitted(env, e)
    ensures !("g" <= e.id) && Constrains("#e") && !HasTagValue(e.tags, TrimHashes("#e"), [])
  {
    hide Admitted, Preimage;
    AdmittedMeans(env, e);
    NotHexPrefix(e.id);
    assert "#e"[1..] == "e" && TrimHashes("e") == "e";
    assert "e"[1..] == "" && Utf8Len("e") == 1;
  }

  lemma NotHexPrefix(id: string)
    requires |id| == 64 && forall c :: c in id ==> c in "0123456789abcdefABCDEF"
    ensures !("g" <= id)
  {
    assert id[0] in id && "g"[0] == 'g';
    HexDigits(id);
  }

  // ---- the newest event of an author and kind ----

  /** The question "newest of this author and kind". */
  function NewestOf(pubkey: string, kind: U32): Row -> bool {
    r => Wanted(Some([pubkey]), Some([kind]), None, None, r)
  }

  lemma NewestOfMeans(pubkey: string, kind: U32, r: Row)
    ensures NewestOf(pubkey, kind)(r) <==> r.pubkey == pubkey && r.kind == ToI32(kind)
  {
    assert KindsColumn([kind]) == [ToI32(kind)];
  }

  /** The one row asked for is at least as new as any row of the key. */
  lemma TopRowReaches(t: seq<Row>, pubkey: string, kind: U32, time: int, out: seq<Row>)
    requires AtLeast(t, pubkey, ToI32(kind), time) && IsAnswer(t, NewestOf(pubkey, kind), 1, out)
    ensures |out| == 1 && out[0] in t && out[0].createdAt >= time
    ensures out[0].pubkey == pubkey && out[0].kind == ToI32(kind)
  {
    var r :| r in t && r.pubkey == pubkey && r.kind == ToI32(kind) && r.createdAt >= time;
    NewestOfMeans(pubkey, kind, r);
    if r in out {
      assert out == [r];
    }
    assert out[0] in out;
    NewestOfMeans(pubkey, kind, out[0]);
  }

  /** After any history of stores, asking for one author and one storable kind with limit 1 returns
      an event whose `created_at` is the largest ever stored for that author and kind. */
  lemma QueryReturnsNewest(h: History, pubkey: string, kind: U32, out: seq<Row>)
    requires IdsFixBodies(h) && CategoryOf(kind) != Ephemeral
    requires exists e :: e in h && e.pubkey == pubkey && e.kind == kind
    requires IsAnswer(Replay(h), NewestOf(pubkey, kind), 1, out)
    ensures |out| == 1 && FromRow(out[0]) in h
    ensures FromRow(out[0]).pubkey == pubkey && FromRow(out[0]).kind == kind
    ensures forall e :: e in h && e.pubkey == pubkey && e.kind == kind ==> e.createdAt <= out[0].createdAt
  {
    var c := KeyClass(pubkey, ToI32(kind));
    RowsComeFromHistory(h);
    forall e | e in h && e.pubkey == pubkey && e.kind == kind
      ensures |out| == 1 && out[0] in Replay(h) && e.createdAt <= out[0].createdAt
      ensures out[0].pubkey == pubkey && out[0].kind == ToI32(kind)
    {
      KeyConfined(h, pubkey, ToI32(kind));
      ClassKept(h, c, e);
      assert AtLeast(Replay(h), pubkey, ToI32(kind), e.createdAt);
      TopRowReaches(Replay(h), pubkey, kind, e.createdAt, out);
    }
    var e :| e in h && out[0] == ToRow(e);
    RowRoundTrip(e);
  }
}
