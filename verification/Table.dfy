/** The `events` table and what one store does to it (src/storage/postgres.rs). */
module Table {
  import opened Base
  import opened Events

  /** A row: `kind` is the signed INTEGER column. */
  datatype Row = Row(
    id: string, pubkey: string, createdAt: I64, kind: int, tags: Tags, content: string, sig: string)

  /** `kind as i32`. */
  function ToI32(k: U32): (i: int)
    ensures -TWO_31 <= i < TWO_31 && (k - i) % TWO_32 == 0
  {
    if k < TWO_31 then k else k - TWO_32
  }

  /** `kind as u32`. */
  function ToU32(k: int): U32 {
    k % TWO_32
  }

  function ToRow(e: NostrEvent): Row {
    Row(e.id, e.pubkey, e.createdAt, ToI32(e.kind), e.tags, e.content, e.sig)
  }

  function FromRow(r: Row): NostrEvent {
    NostrEvent(r.id, r.pubkey, r.createdAt, ToU32(r.kind), r.tags, r.content, r.sig)
  }

  /** Each column holds the field of its name, `kind` as a signed integer of the same 32 bits, and reading the
      row back gives the event. */
  lemma RowRoundTrip(e: NostrEvent)
    ensures var r := ToRow(e);
      && r.id == e.id && r.pubkey == e.pubkey && r.createdAt == e.createdAt && r.tags == e.tags
      && r.content == e.content && r.sig == e.sig && -TWO_31 <= r.kind < TWO_31 && (e.kind - r.kind) % TWO_32 == 0
    ensures FromRow(ToRow(e)) == e
  {
  }

  // ---- jsonb containment, PostgreSQL manual section 8.14.3 ----

  datatype Json = Str(s: string) | Arr(items: seq<Json>)

  /** `a @> b`: every item of b is in a, order and repetition aside, arrays recursively. (The manual's
      exception, an array containing a bare scalar, is for a scalar right operand and does not arise.) */
  predicate JsonContains(a: Json, b: Json)
    decreases b
  {
    match (a, b)
    case (Str(_), _) => a == b
    case (Arr(_), Str(_)) => false
    case (Arr(xs), Arr(ys)) =>
      forall y | y in ys :: exists x | x in xs :: JsonContains(x, y)
  }

  function StringsJson(ss: seq<string>): Json {
    Arr(seq(|ss|, i requires 0 <= i < |ss| => Str(ss[i])))
  }

  function TagsJson(tags: Tags): Json {
    Arr(seq(|tags|, i requires 0 <= i < |tags| => StringsJson(tags[i])))
  }

  /** The right operand `[["d", v]]` bound by the addressable DELETE. */
  function DPattern(v: string): Json {
    Arr([StringsJson(["d", v])])
  }

  predicate MatchesDPattern(tags: Tags, v: string) {
    exists t :: t in tags && "d" in t && v in t
  }

  /** Some element of `xs` contains `y`. */
  predicate ItemHeld(xs: seq<Json>, y: Json) {
    exists x :: x in xs && JsonContains(x, y)
  }

  lemma ArrayContains(xs: seq<Json>, ys: seq<Json>)
    ensures JsonContains(Arr(xs), Arr(ys)) <==> forall y :: y in ys ==> ItemHeld(xs, y)
  {
    assert forall y :: ItemHeld(xs, y) <==> exists x | x in xs :: JsonContains(x, y);
  }

  lemma StringHeld(ss: seq<string>, w: string)
    ensures ItemHeld(StringsJson(ss).items, Str(w)) <==> w in ss
  {
    var xs := StringsJson(ss).items;
    if w in ss {
      var i :| 0 <= i < |ss| && ss[i] == w;
      assert xs[i] in xs && JsonContains(xs[i], Str(w));
    }
  }

  lemma StringsContain(ss: seq<string>, v: string)
    ensures JsonContains(StringsJson(ss), StringsJson(["d", v])) <==> "d" in ss && v in ss
  {
    var ys := [Str("d"), Str(v)];
    assert StringsJson(["d", v]) == Arr(ys);
    ArrayContains(StringsJson(ss).items, ys);
    StringHeld(ss, "d");
    StringHeld(ss, v);
    assert ys[0] in ys && ys[1] in ys;
  }

  /** What `tags @> [["d", v]]` means: some tag mentions both strings, in any position. */
  lemma DPatternMeans(tags: Tags, v: string)
    ensures JsonContains(TagsJson(tags), DPattern(v)) <==> MatchesDPattern(tags, v)
  {
    var xs, y := TagsJson(tags).items, StringsJson(["d", v]);
    ArrayContains(xs, [y]);
    assert [y][0] in [y];
    if MatchesDPattern(tags, v) {
      var i :| 0 <= i < |tags| && "d" in tags[i] && v in tags[i];
      StringsContain(tags[i], v);
      assert xs[i] in xs;
    }
    if ItemHeld(xs, y) {
      var i :| 0 <= i < |xs| && JsonContains(xs[i], y);
      StringsContain(tags[i], v);
      assert tags[i] in tags;
    }
  }

  // ---- DELETE and INSERT ----

  predicate Older(e: NostrEvent, r: Row) {
    r.pubkey == e.pubkey && r.kind == ToI32(e.kind) && r.createdAt < e.createdAt
  }

  /** The WHERE clause of the DELETE that storing `e` runs; regular events run none. */
  predicate Supersedes(e: NostrEvent, r: Row) {
    match CategoryOf(e.kind)
    case Replaceable => Older(e, r)
    case ParameterizedReplaceable => Older(e, r) && JsonContains(TagsJson(r.tags), DPattern(DTag(e.tags)))
    case Regular => false
    case Ephemeral => false
  }

  predicate HasId(t: seq<Row>, id: string) {
    exists r :: r in t && r.id == id
  }

  /** The rows of `t` whose id is not in `ids`, in order. */
  function Without(t: seq<Row>, ids: set<string>): seq<Row> {
    if t == [] then []
    else if t[0].id in ids then Without(t[1..], ids)
    else [t[0]] + Without(t[1..], ids)
  }

  function SupersededIds(t: seq<Row>, e: NostrEvent): set<string> {
    set r | r in t && Supersedes(e, r) :: r.id
  }

  /** `INSERT ... ON CONFLICT (id) DO NOTHING`. */
  function InsertRow(t: seq<Row>, r: Row): seq<Row> {
    if HasId(t, r.id) then t else t + [r]
  }

  /** The committed effect of `store_event`. */
  function Store(t: seq<Row>, e: NostrEvent): seq<Row> {
    match CategoryOf(e.kind)
    case Ephemeral => t
    case Regular => InsertRow(t, ToRow(e))
    case _ => InsertRow(Without(t, SupersededIds(t, e)), ToRow(e))
  }

  /** The primary key. */
  ghost predicate UniqueIds(t: seq<Row>) {
    forall i, j :: 0 <= i < j < |t| ==> t[i].id != t[j].id
  }

  lemma {:induction false} WithoutMeans(t: seq<Row>, ids: set<string>)
    ensures forall r :: r in Without(t, ids) <==> r in t && r.id !in ids
    ensures UniqueIds(t) ==> UniqueIds(Without(t, ids))
    ensures forall id :: HasId(Without(t, ids), id) <==> HasId(t, id) && id !in ids
  {
    if t != [] {
      WithoutMeans(t[1..], ids);
      var w := Without(t[1..], ids);
      assert forall r :: r in t <==> r == t[0] || r in t[1..];
      if UniqueIds(t) {
        forall r | r in w ensures r.id != t[0].id {
          var i :| 0 <= i < |t[1..]| && t[1..][i] == r;
          assert t[i + 1] == r;
        }
      }
    }
  }

  /** What one store leaves: the rows it does not supersede, then the new row unless its id is there. */
  lemma StoreMeans(t: seq<Row>, e: NostrEvent)
    requires UniqueIds(t)
    ensures UniqueIds(Store(t, e))
    ensures forall r :: r in Store(t, e) <==>
              || (r in t && !Supersedes(e, r))
              || (r == ToRow(e) && !IsEphemeral(e) && !exists q :: q in t && q.id == e.id && !Supersedes(e, q))
  {
    var d := Without(t, SupersededIds(t, e));
    WithoutMeans(t, SupersededIds(t, e));
    forall r | r in t ensures r.id in SupersededIds(t, e) <==> Supersedes(e, r) {
      SupersededExactly(t, e, r);
    }
    assert forall r :: r in d <==> r in t && !Supersedes(e, r);
    if CategoryOf(e.kind) == Regular {
      InsertMeans(t, ToRow(e));
    } else if CategoryOf(e.kind) != Ephemeral {
      InsertMeans(d, ToRow(e));
    }
  }

  lemma SupersededExactly(t: seq<Row>, e: NostrEvent, r: Row)
    requires UniqueIds(t) && r in t
    ensures r.id in SupersededIds(t, e) <==> Supersedes(e, r)
  {
    if r.id in SupersededIds(t, e) {
      var q :| q in t && Supersedes(e, q) && q.id == r.id;
      SameRow(t, q, r);
    }
  }

  lemma SameRow(t: seq<Row>, q: Row, r: Row)
    requires UniqueIds(t) && q in t && r in t && q.id == r.id
    ensures q == r
  {
    var i :| 0 <= i < |t| && t[i] == q;
    var j :| 0 <= j < |t| && t[j] == r;
  }

  lemma InsertMeans(t: seq<Row>, r: Row)
    requires UniqueIds(t)
    ensures UniqueIds(InsertRow(t, r))
    ensures forall q :: q in InsertRow(t, r) <==> q in t || (q == r && !HasId(t, r.id))
  {
    if !HasId(t, r.id) {
      forall i | 0 <= i < |t| ensures t[i].id != r.id {
        assert t[i] in t;
      }
    }
  }

  /** What its kind number decides for an event, in the ranges of NIP-01: whether it can be in the table
      at all, and which events it displaces. */
  lemma KindDecides(e: NostrEvent, a: NostrEvent)
    ensures (forall t :: UniqueIds(t) ==> HasId(Store(t, e), e.id)) <==> !(20_000 <= e.kind < 30_000)
    ensures Supersedes(e, ToRow(a)) <==>
      && e.pubkey == a.pubkey && e.kind == a.kind && e.createdAt > a.createdAt
      && (e.kind == 0 || e.kind == 3 || 10_000 <= e.kind < 20_000
          || (30_000 <= e.kind < 40_000 && MatchesDPattern(a.tags, DTag(e.tags))))
  {
    DPatternMeans(a.tags, DTag(e.tags));
    if 20_000 <= e.kind < 30_000 {
      assert UniqueIds([]) && Store([], e) == [];
    } else {
      forall t | UniqueIds(t) ensures HasId(Store(t, e), e.id) {
        StoredId(t, e);
      }
    }
  }

  lemma StoredId(t: seq<Row>, e: NostrEvent)
    requires UniqueIds(t) && !IsEphemeral(e)
    ensures HasId(Store(t, e), e.id)
  {
    StoreMeans(t, e);
    if q :| q in t && q.id == e.id && !Supersedes(e, q) {
      assert q in Store(t, e);
    } else {
      assert ToRow(e) in Store(t, e);
    }
  }

  /** Storing an event again at once changes nothing. */
  lemma StoreTwice(t: seq<Row>, e: NostrEvent)
    requires UniqueIds(t)
    ensures Store(Store(t, e), e) == Store(t, e)
  {
    var t1 := Store(t, e);
    StoreMeans(t, e);
    if CategoryOf(e.kind).Replaceable? || CategoryOf(e.kind).ParameterizedReplaceable? {
      assert SupersededIds(t1, e) == {};
      WithoutNone(t1);
    }
    if !IsEphemeral(e) {
      assert HasId(t1, e.id);
    }
  }

  lemma {:induction false} WithoutNone(t: seq<Row>)
    ensures Without(t, {}) == t
  {
    if t != [] {
      WithoutNone(t[1..]);
    }
  }

  // ---- the newest time of a key ----

  /** Some committed row of (pubkey, kind) is at least as new as `time`. */
  ghost predicate AtLeast(t: seq<Row>, pubkey: string, kind: int, time: int) {
    exists r :: r in t && r.pubkey == pubkey && r.kind == kind && r.createdAt >= time
  }

  /** For every (pubkey, kind) the largest `created_at` of `t` is reached or passed in `u`. */
  ghost predicate NewestKept(t: seq<Row>, u: seq<Row>) {
    forall pubkey, kind, time :: AtLeast(t, pubkey, kind, time) ==> AtLeast(u, pubkey, kind, time)
  }

  /** Deleting rows that `e` supersedes loses no newest time as long as the key keeps one as new as `e`. */
  lemma DeletingKeepsNewest(t: seq<Row>, u: seq<Row>, e: NostrEvent)
    requires forall r :: r in t && r !in u ==> Supersedes(e, r)
    requires (exists r :: r in t && r !in u) ==> AtLeast(u, e.pubkey, ToI32(e.kind), e.createdAt)
    ensures NewestKept(t, u)
  {
    forall pubkey, kind, time | AtLeast(t, pubkey, kind, time)
      ensures AtLeast(u, pubkey, kind, time)
    {
      var r :| r in t && r.pubkey == pubkey && r.kind == kind && r.createdAt >= time;
      if r !in u {
        assert Older(e, r);
        var q :| q in u && q.pubkey == e.pubkey && q.kind == ToI32(e.kind) && q.createdAt >= e.createdAt;
      }
    }
  }
}
