/** The `PgStore` object over the table (src/storage/postgres.rs): writes that may break off at any
    call, the duplicate check, and the history query as built and as the database answers it. */
module Postgres {
  import opened Base
  import opened Events
  import opened Table
  import opened Histories
  import opened Sql

  /** Which calls of a store fail; `last` is the COMMIT, or the INSERT of a regular event. */
  datatype Faults = Faults(beginFails: bool, deleteFails: bool, insertFails: bool, last: Fault)

  predicate BreaksOff(f: Faults) {
    f.beginFails || f.deleteFails || f.insertFails || f.last.Fails?
  }

  /** The store of `e` is committed, whether or not the caller learns of it. */
  predicate TakesEffect(e: NostrEvent, f: Faults) {
    match CategoryOf(e.kind)
    case Ephemeral => true
    case Regular => !f.last.Fails?
    case _ => !BreaksOff(f)
  }

  /** The caller learns that the store succeeded. */
  predicate Reported(e: NostrEvent, f: Faults) {
    IsEphemeral(e) || (TakesEffect(e, f) && f.last.Works?)
  }

  function Attempted(t: seq<Row>, e: NostrEvent, f: Faults): seq<Row> {
    if TakesEffect(e, f) then Store(t, e) else t
  }

  function IdsWhere(t: seq<Row>, doomed: Row -> bool): set<string> {
    set r | r in t && doomed(r) :: r.id
  }

  /** The WHERE clause of the replaceable DELETE. */
  function OlderRows(e: NostrEvent): Row -> bool {
    r => Older(e, r)
  }

  /** The WHERE clause of the addressable DELETE. */
  function OlderAtAddress(e: NostrEvent, d: string): Row -> bool {
    r => Older(e, r) && JsonContains(TagsJson(r.tags), DPattern(d))
  }

  /** What a committed DELETE and INSERT leave: rows not doomed, and the new row unless its id is among them. */
  ghost predicate Upserted(t: seq<Row>, u: seq<Row>, e: NostrEvent, doomed: Row -> bool) {
    forall r :: r in u <==>
      (r in t && !doomed(r)) || (r == ToRow(e) && !exists q :: q in t && q.id == e.id && !doomed(q))
  }

  lemma UpsertMeans(t: seq<Row>, e: NostrEvent, doomed: Row -> bool)
    requires UniqueIds(t)
    ensures var d := Without(t, IdsWhere(t, doomed));
      && UniqueIds(InsertRow(d, ToRow(e)))
      && Upserted(t, InsertRow(d, ToRow(e)), e, doomed)
      && (HasId(d, e.id) <==> exists q :: q in t && q.id == e.id && !doomed(q))
  {
    var ids := IdsWhere(t, doomed);
    WithoutMeans(t, ids);
    forall r | r in t ensures r.id in ids <==> doomed(r) {
      if r.id in ids {
        var q :| q in t && doomed(q) && q.id == r.id;
        SameRow(t, q, r);
      }
    }
    InsertMeans(Without(t, ids), ToRow(e));
  }

  lemma UpsertIds(t: seq<Row>, e: NostrEvent)
    ensures CategoryOf(e.kind) == Replaceable ==> IdsWhere(t, OlderRows(e)) == SupersededIds(t, e)
    ensures CategoryOf(e.kind) == ParameterizedReplaceable ==>
      IdsWhere(t, OlderAtAddress(e, DTag(e.tags))) == SupersededIds(t, e)
  {
    hide Older, JsonContains, CategoryOf;
  }

  // ---- scans ----

  /** `scan` lists the rows of `t`, each once, in the order the database happens to meet them. */
  ghost predicate IsScan(scan: seq<Row>, t: seq<Row>) {
    Distinct(scan) && forall r :: r in scan <==> r in t
  }

  lemma ScanUnique(scan: seq<Row>, t: seq<Row>)
    requires UniqueIds(t) && IsScan(scan, t)
    ensures UniqueIds(scan)
  {
    forall i, j | 0 <= i < j < |scan| ensures scan[i].id != scan[j].id {
      if scan[i].id == scan[j].id {
        assert scan[i] in t && scan[j] in t;
        SameRow(t, scan[i], scan[j]);
      }
    }
  }

  function Take(s: seq<Row>, limit: nat): seq<Row> {
    if |s| <= limit then s else s[..limit]
  }

  /** Answering from a scan gives a legal answer. */
  lemma ScanAnswers(scan: seq<Row>, t: seq<Row>, wanted: Row -> bool, limit: nat)
    requires UniqueIds(t) && IsScan(scan, t)
    ensures IsAnswer(t, wanted, limit, Take(Sorted(scan, wanted), limit))
  {
    ScanUnique(scan, t);
    SortedMeans(scan, wanted);
    var s, out := Sorted(scan, wanted), Take(Sorted(scan, wanted), limit);
    forall r | r in t && wanted(r) && r !in out ensures Cut(out, limit, r) {
      var i :| 0 <= i < |s| && s[i] == r;
    }
  }

  lemma SortedCons(x: Row, t: seq<Row>, wanted: Row -> bool)
    requires wanted(x)
    ensures Sorted([x] + t, wanted) == Place(x, Sorted(t, wanted))
  {
    assert ([x] + t)[1..] == t;
  }

  lemma {:induction false} SortedPrefix(out: seq<Row>, k: nat, rest: seq<Row>, wanted: Row -> bool)
    requires k <= |out| && Descending(out) && (forall r :: r in out ==> wanted(r))
    requires Sorted(rest, wanted) == [] || forall r :: r in out ==> r.createdAt >= Sorted(rest, wanted)[0].createdAt
    ensures Sorted(out[k..] + rest, wanted) == out[k..] + Sorted(rest, wanted)
    decreases |out| - k
  {
    hide Sorted, Place;
    var s := Sorted(rest, wanted);
    if k == |out| {
      assert out[k..] == [] && [] + rest == rest && [] + s == s;
    } else {
      SortedPrefix(out, k + 1, rest, wanted);
      assert out[k..] == [out[k]] + out[k + 1..];
      assert out[k..] + rest == [out[k]] + (out[k + 1..] + rest);
      assert out[k..] + s == [out[k]] + (out[k + 1..] + s);
      SortedCons(out[k], out[k + 1..] + rest, wanted);
      PlaceFirst(out[k], out[k + 1..] + s);
    }
  }

  lemma PlaceFirst(x: Row, s: seq<Row>)
    requires s != [] ==> x.createdAt >= s[0].createdAt
    ensures Place(x, s) == [x] + s
  {
  }

  /** The other rows of a table. */
  function Others(t: seq<Row>, out: seq<Row>): seq<Row> {
    if t == [] then [] else (if t[0] in out then [] else [t[0]]) + Others(t[1..], out)
  }

  lemma {:induction false} OthersMeans(t: seq<Row>, out: seq<Row>)
    requires UniqueIds(t)
    ensures forall r :: r in Others(t, out) <==> r in t && r !in out
    ensures UniqueIds(Others(t, out))
  {
    if t != [] {
      OthersMeans(t[1..], out);
      assert forall r :: r in t <==> r == t[0] || r in t[1..];
      forall r | r in Others(t[1..], out) ensures r.id != t[0].id {
        var i :| 0 <= i < |t[1..]| && t[1..][i] == r;
        assert t[i + 1] == r;
      }
    }
  }

  /** Every legal answer is the answer to some scan: nothing narrower than the database is modelled. */
  lemma EveryAnswerArises(t: seq<Row>, wanted: Row -> bool, limit: nat, out: seq<Row>)
    requires UniqueIds(t) && IsAnswer(t, wanted, limit, out)
    ensures exists scan :: IsScan(scan, t) && Take(Sorted(scan, wanted), limit) == out
  {
    var rest := Others(t, out);
    OthersMeans(t, out);
    SortedMeans(rest, wanted);
    var tail := Sorted(rest, wanted);
    if tail != [] {
      assert tail[0] in tail && Cut(out, limit, tail[0]);
    }
    SortedPrefix(out, 0, rest, wanted);
    var scan := out + rest;
    assert out[0..] == out;
    assert forall i, j :: 0 <= i < |out| && 0 <= j < |rest| ==> out[i] != rest[j] by {
      assert forall j :: 0 <= j < |rest| ==> rest[j] in rest;
    }
    assert IsScan(scan, t);
    assert Take(Sorted(scan, wanted), limit) == out;
  }

  function FromRows(rows: seq<Row>): seq<NostrEvent> {
    seq(|rows|, i requires 0 <= i < |rows| => FromRow(rows[i]))
  }

  function Chosen(q: Query): Row -> bool {
    r => Selects(q, r)
  }

  /** The question a call of `query_events` asks. */
  function Asking(
      authors: Option<seq<string>>, kinds: Option<seq<U32>>, since: Option<I64>, until: Option<I64>): Row -> bool
  {
    r => Wanted(authors, kinds, since, until, r)
  }

  lemma SameQuestion(t: seq<Row>, a: Row -> bool, b: Row -> bool, limit: nat, out: seq<Row>)
    requires forall r :: a(r) == b(r)
    ensures IsAnswer(t, a, limit, out) <==> IsAnswer(t, b, limit, out)
  {
  }

  class PgStore {
    var events: seq<Row>

    constructor ()
      ensures Valid() && events == []
    {
      events := [];
    }

    /** The primary key holds. */
    ghost predicate Valid()
      reads this
    {
      UniqueIds(events)
    }

    method InsertEvent(e: NostrEvent, fault: Fault) returns (r: Result<bool, ()>)
      requires Valid()
      modifies this
      ensures Valid()
      ensures events == if fault.Fails? then old(events) else InsertRow(old(events), ToRow(e))
      ensures r == if fault.Works? then Ok(!HasId(old(events), e.id)) else Err(())
    {
      InsertMeans(events, ToRow(e));
      if fault.Fails? {
        return Err(());
      }
      var affected := !HasId(events, e.id);
      if affected {
        events := events + [ToRow(e)];
      }
      r := if fault.Works? then Ok(affected) else Err(());
    }

    method UpsertReplaceableEvent(e: NostrEvent, f: Faults) returns (r: Result<bool, ()>)
      requires Valid()
      modifies this
      ensures Valid()
      ensures BreaksOff(f) ==> events == old(events)
      ensures !BreaksOff(f) ==> Upserted(old(events), events, e, OlderRows(e))
      ensures !BreaksOff(f) && CategoryOf(e.kind) == Replaceable ==> events == Store(old(events), e)
      ensures r.Ok? <==> !BreaksOff(f) && f.last.Works?
      ensures r.Ok? ==> (r.value <==> !exists q :: q in old(events) && q.id == e.id && !OlderRows(e)(q))
    {
      if f.beginFails {
        return Err(());
      }
      var view := events;
      if f.deleteFails {
        return Err(());
      }
      UpsertMeans(events, e, OlderRows(e));
      UpsertIds(events, e);
      view := Without(view, IdsWhere(view, OlderRows(e)));
      if f.insertFails {
        return Err(());
      }
      var affected := !HasId(view, e.id);
      if affected {
        view := view + [ToRow(e)];
      }
      if f.last.Fails? {
        return Err(());
      }
      events := view;
      r := if f.last.Works? then Ok(affected) else Err(());
    }

    method UpsertParamReplaceableEvent(e: NostrEvent, f: Faults) returns (r: Result<bool, ()>)
      requires Valid()
      modifies this
      ensures Valid()
      ensures BreaksOff(f) ==> events == old(events)
      ensures !BreaksOff(f) ==> Upserted(old(events), events, e, OlderAtAddress(e, DTag(e.tags)))
      ensures !BreaksOff(f) && CategoryOf(e.kind) == ParameterizedReplaceable ==> events == Store(old(events), e)
      ensures r.Ok? <==> !BreaksOff(f) && f.last.Works?
      ensures r.Ok? ==> (r.value <==> !exists q ::
        q in old(events) && q.id == e.id && !OlderAtAddress(e, DTag(e.tags))(q))
    {
      var d := DTag(e.tags);
      if f.beginFails {
        return Err(());
      }
      var view := events;
      if f.deleteFails {
        return Err(());
      }
      UpsertMeans(events, e, OlderAtAddress(e, d));
      UpsertIds(events, e);
      view := Without(view, IdsWhere(view, OlderAtAddress(e, d)));
      if f.insertFails {
        return Err(());
      }
      var affected := !HasId(view, e.id);
      if affected {
        view := view + [ToRow(e)];
      }
      if f.last.Fails? {
        return Err(());
      }
      events := view;
      r := if f.last.Works? then Ok(affected) else Err(());
    }

    /** Exactly `Store` when the store takes effect, nothing otherwise; success is reported only then, with
        whether a row was inserted: the id was not there, or only on a row that the event supersedes. */
    method StoreEvent(e: NostrEvent, f: Faults) returns (r: Result<bool, ()>)
      requires Valid()
      modifies this
      ensures Valid()
      ensures events == Attempted(old(events), e, f)
      ensures r.Ok? <==> Reported(e, f)
      ensures r.Ok? ==>
        (r.value <==> !IsEphemeral(e) && !exists q :: q in old(events) && q.id == e.id && !Supersedes(e, q))
      ensures r.Ok? && r.value ==> ToRow(e) in events
    {
      match CategoryOf(e.kind)
      case Ephemeral => r := Ok(false);
      case Replaceable => r := UpsertReplaceableEvent(e, f);
      case ParameterizedReplaceable => r := UpsertParamReplaceableEvent(e, f);
      case Regular =>
        InsertMeans(events, ToRow(e));
        r := InsertEvent(e, f.last);
    }

    method EventExists(id: string, fails: bool) returns (r: Result<bool, ()>)
      ensures r == if fails then Err(()) else Ok(exists q :: q in events && q.id == id)
    {
      r := if fails then Err(()) else Ok(HasId(events, id));
    }

    /** The database's part: filter, sort and cut, rows met in the order of `scan`. */
    method FetchAll(q: Query, scan: seq<Row>) returns (r: Result<seq<Row>, ()>)
      requires Valid() && IsScan(scan, events)
      requires Param(q.binds, q.limitParam).Some? && Param(q.binds, q.limitParam).value.BigInt?
      ensures r.Err? <==> Param(q.binds, q.limitParam).value.n < 0
      ensures r.Ok? ==> IsAnswer(events, Chosen(q), Param(q.binds, q.limitParam).value.n, r.value)
    {
      var limit := Param(q.binds, q.limitParam).value.n;
      if limit < 0 {
        return Err(());
      }
      var rows: seq<Row> := [];
      var i := |scan|;
      while i > 0
        invariant 0 <= i <= |scan|
        invariant rows == Sorted(scan[i..], Chosen(q))
      {
        i := i - 1;
        assert scan[i..][1..] == scan[i + 1..];
        if Selects(q, scan[i]) {
          rows := Place(scan[i], rows);
        }
      }
      assert scan[0..] == scan;
      ScanAnswers(scan, events, Chosen(q), limit);
      r := Ok(Take(rows, limit));
    }

    /** The events of a legal answer to the question asked; `scan` is `None` when the query fails. */
    method QueryEvents(
        authors: Option<seq<string>>, kinds: Option<seq<U32>>, since: Option<I64>, until: Option<I64>,
        limit: nat, scan: Option<seq<Row>>)
      returns (r: Result<seq<NostrEvent>, ()>, ghost rows: seq<Row>)
      requires Valid() && (scan.Some? ==> IsScan(scan.value, events))
      ensures r.Err? <==> scan.None? || AsI64(limit) < 0
      ensures r.Ok? ==> IsAnswer(events, Asking(authors, kinds, since, until), AsI64(limit), rows)
      ensures r.Ok? ==> r.value == FromRows(rows)
    {
      rows := [];
      var q := BuildQuery(authors, kinds, since, until, limit);
      if scan.None? {
        return Err(()), rows;
      }
      var fetched := FetchAll(q, scan.value);
      if fetched.Err? {
        return Err(()), rows;
      }
      rows := fetched.value;
      SameQuestion(events, Chosen(q), Asking(authors, kinds, since, until), AsI64(limit), rows);
      var found: seq<NostrEvent> := [];
      for i := 0 to |fetched.value|
        invariant found == FromRows(rows[..i])
      {
        found := found + [FromRow(fetched.value[i])];
      }
      assert rows[..|rows|] == rows;
      r := Ok(found);
    }
  }

  // ---- runs of attempts ----

  datatype Attempt = Attempt(event: NostrEvent, faults: Faults)

  /** The table after any mix of successful and failed stores, from empty. */
  function After(attempts: seq<Attempt>): seq<Row> {
    if attempts == [] then []
    else Attempted(After(attempts[..|attempts| - 1]), attempts[|attempts| - 1].event, attempts[|attempts| - 1].faults)
  }

  /** The stores that took effect, in order. */
  function Effective(attempts: seq<Attempt>): History {
    if attempts == [] then []
    else
      var a := attempts[|attempts| - 1];
      Effective(attempts[..|attempts| - 1]) + (if TakesEffect(a.event, a.faults) then [a.event] else [])
  }

  /** Failed attempts leave no trace: the table is that of the stores that took effect. */
  lemma {:induction false} AttemptsReplay(attempts: seq<Attempt>)
    ensures After(attempts) == Replay(Effective(attempts))
    ensures forall e :: e in Effective(attempts) <==> exists a ::
      a in attempts && a.event == e && TakesEffect(e, a.faults)
  {
    hide Store, TakesEffect;
    assert Replay([]) == [];
    if attempts != [] {
      var before, a := attempts[..|attempts| - 1], attempts[|attempts| - 1];
      AttemptsReplay(before);
      var h := Effective(before);
      assert (h + [a.event])[..|h|] == h && h + [] == h;
      assert forall x :: x in attempts <==> x in before || x == a;
    }
  }

  /** After any run of successful and failed stores, asking for one author and storable kind with limit 1
      returns a stored event of theirs whose `created_at` is the largest of all that were ever stored,
      and so of all whose success was reported. */
  lemma NewestServed(env: Env, attempts: seq<Attempt>, pubkey: string, kind: U32, out: seq<Row>)
    requires NoCollision(env) && (forall a :: a in attempts ==> Known(env, a.event))
    requires CategoryOf(kind) != Ephemeral
    requires exists e :: e in Effective(attempts) && e.pubkey == pubkey && e.kind == kind
    requires IsAnswer(After(attempts), NewestOf(pubkey, kind), 1, out)
    ensures |out| == 1 && FromRow(out[0]) in Effective(attempts)
    ensures FromRow(out[0]).pubkey == pubkey && FromRow(out[0]).kind == kind
    ensures forall e :: e in Effective(attempts) && e.pubkey == pubkey && e.kind == kind ==>
      e.createdAt <= out[0].createdAt
    ensures forall a :: a in attempts && Reported(a.event, a.faults) && a.event.pubkey == pubkey && a.event.kind == kind
              ==> a.event.createdAt <= out[0].createdAt
  {
    AttemptsReplay(attempts);
    var h := Effective(attempts);
    forall a, b | a in h && b in h && a.id == b.id ensures SameBody(a, b) {
      IdFixesBody(env, a, b);
    }
    QueryReturnsNewest(h, pubkey, kind, out);
  }
}
