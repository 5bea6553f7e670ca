/** What a whole history of committed stores leaves in the table, in any order and
    with any repetition (src/storage/postgres.rs). */
module Histories {
  import opened Base
  import opened Events
  import opened Table

  type History = seq<NostrEvent>

  /** The table after the stores of `h`, from empty. */
  function Replay(h: History): seq<Row> {
    if h == [] then [] else Store(Replay(h[..|h| - 1]), h[|h| - 1])
  }

  /** Equal ids mean equal events up to the signature (IdFixesBody gives this for admitted events). */
  ghost predicate IdsFixBodies(h: History) {
    forall a, b :: a in h && b in h && a.id == b.id ==> SameBody(a, b)
  }

  /** The i-th event is storable and nothing after it supersedes it. */
  ghost predicate Survives(h: History, i: nat)
    requires i < |h|
  {
    !IsEphemeral(h[i]) && forall j :: i < j < |h| ==> !Supersedes(h[j], ToRow(h[i]))
  }

  lemma {:induction false} RowsComeFromHistory(h: History)
    ensures UniqueIds(Replay(h))
    ensures forall r :: r in Replay(h) ==> exists e :: e in h && r == ToRow(e) && !IsEphemeral(e)
  {
    if h != [] {
      var g, e := h[..|h| - 1], h[|h| - 1];
      RowsComeFromHistory(g);
      StoreMeans(Replay(g), e);
      forall r | r in Replay(h) ensures exists d :: d in h && r == ToRow(d) && !IsEphemeral(d) {
        if r in Replay(g) {
          var d :| d in g && r == ToRow(d) && !IsEphemeral(d);
          assert d in h;
        } else {
          assert e in h && r == ToRow(e);
        }
      }
    }
  }

  lemma SameBodySuperseded(e: NostrEvent, a: NostrEvent, b: NostrEvent)
    requires SameBody(a, b)
    ensures Supersedes(e, ToRow(a)) <==> Supersedes(e, ToRow(b))
  {
  }

  /** A row found by the id of an event of the history has that event's body. */
  lemma RowBody(h: History, r: Row, a: NostrEvent) returns (b: NostrEvent)
    requires IdsFixBodies(h) && r in Replay(h) && a in h && r.id == a.id
    ensures b in h && r == ToRow(b) && SameBody(a, b)
  {
    RowsComeFromHistory(h);
    b :| b in h && r == ToRow(b);
  }

  lemma SurvivesStep(h: History, i: nat)
    requires i < |h| - 1
    ensures Survives(h, i) <==> Survives(h[..|h| - 1], i) && !Supersedes(h[|h| - 1], ToRow(h[i]))
  {
    var g := h[..|h| - 1];
    assert forall j :: 0 <= j < |g| ==> g[j] == h[j];
  }

  /** The ids after a store: those of rows not superseded, and the stored event's. */
  lemma StoreIds(t: seq<Row>, e: NostrEvent, id: string)
    requires UniqueIds(t)
    ensures HasId(Store(t, e), id) <==>
      (exists r :: r in t && r.id == id && !Supersedes(e, r)) || (id == e.id && !IsEphemeral(e))
  {
    StoreMeans(t, e);
    if r :| r in t && r.id == id && !Supersedes(e, r) {
      assert r in Store(t, e);
    } else if id == e.id && !IsEphemeral(e) {
      assert ToRow(e) in Store(t, e);
    }
  }

  /** A surviving occurrence of an id in `g` settles whether `e` supersedes the id's row. */
  lemma RowFate(g: History, e: NostrEvent, i: nat)
    requires IdsFixBodies(g) && i < |g| && HasId(Replay(g), g[i].id)
    ensures (exists r :: r in Replay(g) && r.id == g[i].id && !Supersedes(e, r))
       <==> !Supersedes(e, ToRow(g[i]))
  {
    forall r | r in Replay(g) && r.id == g[i].id
      ensures Supersedes(e, r) <==> Supersedes(e, ToRow(g[i]))
    {
      var b := RowBody(g, r, g[i]);
      SameBodySuperseded(e, g[i], b);
    }
  }

  /** Exact table contents: an id is in the table exactly when some store of it was
      not superseded by any later store. */
  lemma {:induction false} TableContents(h: History, id: string)
    requires IdsFixBodies(h)
    ensures HasId(Replay(h), id) <==> exists i :: 0 <= i < |h| && h[i].id == id && Survives(h, i)
  {
    if h != [] {
      var n := |h| - 1;
      var g, e := h[..n], h[n];
      assert forall d :: d in g ==> d in h;
      TableContents(g, id);
      RowsComeFromHistory(g);
      StoreIds(Replay(g), e, id);
      if HasId(Replay(h), id) {
        if id == e.id && !IsEphemeral(e) {
          assert h[n].id == id && Survives(h, n);
        } else {
          var i :| 0 <= i < |g| && g[i].id == id && Survives(g, i);
          RowFate(g, e, i);
          SurvivesStep(h, i);
          assert h[i].id == id && Survives(h, i);
        }
      }
      if i :| 0 <= i < |h| && h[i].id == id && Survives(h, i) {
        if i < n {
          SurvivesStep(h, i);
          assert g[i].id == id && Survives(g, i);
          RowFate(g, e, i);
        }
      }
    }
  }

  /** For an event's last occurrence the survival of that occurrence decides. For a replaceable
      kind: the row is there iff no strictly newer event of the same author and kind follows. */
  lemma LastOccurrenceDecides(h: History, i: nat)
    requires IdsFixBodies(h) && i < |h| && forall j :: i < j < |h| ==> h[j].id != h[i].id
    ensures HasId(Replay(h), h[i].id) <==> Survives(h, i)
    ensures CategoryOf(h[i].kind) == Replaceable ==>
      (HasId(Replay(h), h[i].id) <==> !(exists j :: (
        i < j < |h| && h[j].pubkey == h[i].pubkey && h[j].kind == h[i].kind && h[j].createdAt > h[i].createdAt)))
  {
    hide Supersedes, CategoryOf;
    TableContents(h, h[i].id);
    if k :| 0 <= k < |h| && h[k].id == h[i].id && Survives(h, k) {
      SurvivalCarries(h, k, i);
    }
    if CategoryOf(h[i].kind) == Replaceable {
      forall j | i < j < |h|
        ensures Supersedes(h[j], ToRow(h[i]))
           <==> h[j].pubkey == h[i].pubkey && h[j].kind == h[i].kind && h[j].createdAt > h[i].createdAt
      {
        ReplaceableSuperseded(h[j], h[i]);
      }
    }
  }

  /** What supersedes an event of a replaceable kind: a strictly newer one of its author and kind. */
  lemma ReplaceableSuperseded(e: NostrEvent, a: NostrEvent)
    requires CategoryOf(a.kind) == Replaceable
    ensures Supersedes(e, ToRow(a)) <==> e.pubkey == a.pubkey && e.kind == a.kind && e.createdAt > a.createdAt
  {
    hide JsonContains;
  }

  lemma SurvivalCarries(h: History, k: nat, i: nat)
    requires IdsFixBodies(h) && k <= i < |h| && h[k].id == h[i].id && Survives(h, k)
    ensures Survives(h, i)
  {
    assert h[k] in h && h[i] in h;
    forall j | i < j < |h| ensures !Supersedes(h[j], ToRow(h[i])) {
      SameBodySuperseded(h[j], h[k], h[i]);
    }
  }

  // ---- classes of rows ----

  /** A set of addresses: rows are classed by author, kind column and tags. */
  type Class = (string, int, Tags) -> bool

  predicate InClass(c: Class, r: Row) {
    c(r.pubkey, r.kind, r.tags)
  }

  /** Only events of the class ever supersede rows of the class. */
  ghost predicate Confined(h: History, c: Class) {
    forall a, b :: a in h && b in h && InClass(c, ToRow(a)) && Supersedes(b, ToRow(a)) ==> InClass(c, ToRow(b))
  }

  ghost predicate IsNewestRow(t: seq<Row>, c: Class, r: Row) {
    r in t && InClass(c, r) && forall q :: q in t && InClass(c, q) ==> q.createdAt <= r.createdAt
  }

  /** `id` names a row of the class with the largest `created_at`. */
  ghost predicate NewestInTable(t: seq<Row>, c: Class, id: string) {
    exists r: Row :: r.id == id && IsNewestRow(t, c, r)
  }

  /** `id` names a storable event of the class with the largest `created_at` ever stored. */
  ghost predicate NewestInHistory(h: History, c: Class, id: string) {
    exists e :: e in h && e.id == id && IsNewestEvent(h, c, e)
  }

  ghost predicate IsNewestEvent(h: History, c: Class, e: NostrEvent) {
    e in h && !IsEphemeral(e) && InClass(c, ToRow(e)) &&
    forall d :: d in h && !IsEphemeral(d) && InClass(c, ToRow(d)) ==> d.createdAt <= e.createdAt
  }

  ghost predicate ClassHas(t: seq<Row>, c: Class, time: int) {
    exists r :: r in t && InClass(c, r) && r.createdAt >= time
  }

  /** A store leaves some row with the body of the stored event. */
  lemma StoredBody(g: History, e: NostrEvent)
    requires IdsFixBodies(g + [e]) && !IsEphemeral(e)
    ensures exists b :: b in g + [e] && SameBody(b, e) && ToRow(b) in Store(Replay(g), e)
  {
    RowsComeFromHistory(g);
    StoreMeans(Replay(g), e);
    if q :| q in Replay(g) && q.id == e.id && !Supersedes(e, q) {
      var b :| b in g && q == ToRow(b);
      assert b in g + [e];
    } else {
      assert e in g + [e] && ToRow(e) in Store(Replay(g), e);
    }
  }

  lemma ClassKeptByStore(g: History, d: NostrEvent, c: Class, time: int)
    requires IdsFixBodies(g + [d]) && Confined(g + [d], c) && ClassHas(Replay(g), c, time)
    ensures ClassHas(Store(Replay(g), d), c, time)
  {
    RowsComeFromHistory(g);
    StoreMeans(Replay(g), d);
    var r :| r in Replay(g) && InClass(c, r) && r.createdAt >= time;
    if Supersedes(d, r) {
      var a :| a in g && r == ToRow(a);
      assert a in g + [d] && d in g + [d] && InClass(c, ToRow(d));
      StoredBody(g, d);
      var b :| b in g + [d] && SameBody(b, d) && ToRow(b) in Store(Replay(g), d);
      assert ToRow(b).createdAt > r.createdAt;
    } else {
      assert r in Store(Replay(g), d);
    }
  }

  /** The class keeps a row at least as new as every event of it that was stored. */
  lemma {:induction false} ClassKept(h: History, c: Class, e: NostrEvent)
    requires IdsFixBodies(h) && Confined(h, c)
    requires e in h && !IsEphemeral(e) && InClass(c, ToRow(e))
    ensures ClassHas(Replay(h), c, e.createdAt)
  {
    var g, d := h[..|h| - 1], h[|h| - 1];
    assert d in h && h == g + [d] && forall x :: x in g ==> x in h;
    if e in g {
      ClassKept(g, c, e);
      ClassKeptByStore(g, d, c, e.createdAt);
    } else {
      StoredBody(g, d);
    }
  }

  /** Nothing ever stored supersedes a newest event of the class. */
  ghost predicate Unbeaten(h: History, c: Class) {
    forall a, b :: b in h && IsNewestEvent(h, c, a) ==> !Supersedes(b, ToRow(a))
  }

  lemma ConfinedUnbeaten(h: History, c: Class)
    requires Confined(h, c)
    ensures Unbeaten(h, c)
  {
    hide JsonContains, InClass;
  }

  /** No earlier event has the id of the i-th. */
  ghost predicate FirstCopy(h: History, i: nat)
    requires i < |h|
  {
    forall j :: 0 <= j < i ==> h[j].id != h[i].id
  }

  lemma {:induction false} FirstCopyOf(h: History, e: NostrEvent) returns (i: nat)
    requires e in h
    ensures i < |h| && h[i].id == e.id && FirstCopy(h, i)
  {
    var n := |h| - 1;
    var g := h[..n];
    if x :| x in g && x.id == e.id {
      i := FirstCopyOf(g, x);
    } else {
      i := n;
      assert forall j :: 0 <= j < n ==> h[j] in g;
    }
  }

  lemma RowKept(t: seq<Row>, d: NostrEvent, r: Row)
    requires UniqueIds(t) && r in t && !Supersedes(d, r)
    ensures r in Store(t, d)
  {
    hide Supersedes;
    StoreMeans(t, d);
  }

  lemma RowEnters(t: seq<Row>, d: NostrEvent)
    requires UniqueIds(t) && !IsEphemeral(d) && !HasId(t, d.id)
    ensures ToRow(d) in Store(t, d)
  {
    hide Supersedes;
    StoreMeans(t, d);
  }

  /** An id that no event of the history has is in no row. */
  lemma IdNotStored(h: History, id: string)
    requires forall e :: e in h ==> e.id != id
    ensures !HasId(Replay(h), id)
  {
    hide Replay;
    RowsComeFromHistory(h);
  }

  /** The first copy of an event that nothing supersedes stays in the table. */
  lemma {:induction false} FirstCopyStays(h: History, i: nat)
    requires i < |h| && FirstCopy(h, i) && !IsEphemeral(h[i])
    requires forall b :: b in h ==> !Supersedes(b, ToRow(h[i]))
    ensures ToRow(h[i]) in Replay(h)
  {
    hide Supersedes, Store, ToRow, IsEphemeral;
    var n := |h| - 1;
    var g, d := h[..n], h[n];
    assert d in h && forall x :: x in g ==> x in h;
    RowsComeFromHistory(g);
    if i < n {
      FirstCopyStays(g, i);
      RowKept(Replay(g), d, ToRow(h[i]));
    } else {
      IdNotStored(g, d.id);
      RowEnters(Replay(g), d);
    }
  }

  lemma {:induction false} NewestExists(h: History, c: Class, e: NostrEvent) returns (a: NostrEvent)
    requires e in h && !IsEphemeral(e) && InClass(c, ToRow(e))
    ensures IsNewestEvent(h, c, a)
  {
    var n := |h| - 1;
    var g, d := h[..n], h[n];
    assert h == g + [d];
    if x :| x in g && !IsEphemeral(x) && InClass(c, ToRow(x)) {
      a := NewestExists(g, c, x);
      if !IsEphemeral(d) && InClass(c, ToRow(d)) && d.createdAt > a.createdAt {
        a := d;
      }
    } else {
      a := d;
    }
  }

  lemma NewestBody(h: History, c: Class, a: NostrEvent, b: NostrEvent)
    requires IdsFixBodies(h) && IsNewestEvent(h, c, a) && b in h && b.id == a.id
    ensures IsNewestEvent(h, c, b)
  {
    assert SameBody(a, b);
  }

  /** A newest event's first copy has its row in the table. */
  lemma NewestHasRow(h: History, c: Class, a: NostrEvent) returns (i: nat)
    requires IdsFixBodies(h) && Unbeaten(h, c) && IsNewestEvent(h, c, a)
    ensures i < |h| && h[i].id == a.id && FirstCopy(h, i) && IsNewestEvent(h, c, h[i])
    ensures ToRow(h[i]) in Replay(h) && IsNewestRow(Replay(h), c, ToRow(h[i]))
  {
    hide Supersedes, InClass;
    i := FirstCopyOf(h, a);
    NewestBody(h, c, a, h[i]);
    FirstCopyStays(h, i);
    RowsComeFromHistory(h);
  }

  /** A newest row is the row of a newest event. */
  lemma NewestRowEvent(h: History, c: Class, r: Row) returns (e: NostrEvent)
    requires IdsFixBodies(h) && Unbeaten(h, c) && IsNewestRow(Replay(h), c, r)
    ensures r == ToRow(e) && IsNewestEvent(h, c, e)
  {
    hide Supersedes, Unbeaten;
    RowsComeFromHistory(h);
    e :| e in h && r == ToRow(e) && !IsEphemeral(e);
    var a := NewestExists(h, c, e);
    var i := NewestHasRow(h, c, a);
    assert SameBody(a, h[i]);
  }

  /** The newest rows of the class are exactly the first copies of its newest events. */
  lemma NewestRows(h: History, c: Class, r: Row)
    requires IdsFixBodies(h) && Unbeaten(h, c)
    ensures IsNewestRow(Replay(h), c, r) <==>
      exists i :: 0 <= i < |h| && IsNewestEvent(h, c, h[i]) && FirstCopy(h, i) && r == ToRow(h[i])
  {
    hide Supersedes, Unbeaten, InClass;
    if IsNewestRow(Replay(h), c, r) {
      var e := NewestRowEvent(h, c, r);
      var i := NewestHasRow(h, c, e);
      RowsComeFromHistory(h);
      SameRow(Replay(h), r, ToRow(h[i]));
    }
    if i :| 0 <= i < |h| && IsNewestEvent(h, c, h[i]) && FirstCopy(h, i) && r == ToRow(h[i]) {
      var k := NewestHasRow(h, c, h[i]);
      assert k == i;
    }
  }

  /** Last writer wins: the newest rows of a class carry the ids of the newest events ever stored in it. */
  lemma NewestRetained(h: History, c: Class, id: string)
    requires IdsFixBodies(h) && Unbeaten(h, c)
    ensures NewestInTable(Replay(h), c, id) <==> NewestInHistory(h, c, id)
  {
    hide Supersedes, Unbeaten, IsNewestRow, IsNewestEvent;
    if NewestInTable(Replay(h), c, id) {
      var r: Row :| r.id == id && IsNewestRow(Replay(h), c, r);
      var e := NewestRowEvent(h, c, r);
      NewestInside(h, c, e);
    }
    if e :| e in h && e.id == id && IsNewestEvent(h, c, e) {
      var i := NewestHasRow(h, c, e);
    }
  }

  lemma NewestInside(h: History, c: Class, e: NostrEvent)
    requires IsNewestEvent(h, c, e)
    ensures e in h
  {
  }

  ghost predicate SameEvents(g: History, h: History) {
    forall e :: e in g <==> e in h
  }

  /** The newest rows of the class carry exactly the ids of its newest events. */
  ghost predicate Retains(h: History, c: Class) {
    forall id :: NewestInTable(Replay(h), c, id) <==> NewestInHistory(h, c, id)
  }

  lemma SameNewest(g: History, h: History, c: Class)
    requires SameEvents(g, h)
    ensures forall e :: IsNewestEvent(g, c, e) <==> IsNewestEvent(h, c, e)
    ensures Unbeaten(g, c) <==> Unbeaten(h, c)
    ensures IdsFixBodies(g) <==> IdsFixBodies(h)
    ensures forall id :: NewestInHistory(g, c, id) <==> NewestInHistory(h, c, id)
  {
    hide Supersedes, InClass;
  }

  /** Exactly when a class keeps its newest events whatever the order and repetition of the stores:
      when nothing stored supersedes one of them. */
  lemma RetainedIff(h: History, c: Class)
    requires IdsFixBodies(h)
    ensures Unbeaten(h, c) <==> forall g :: SameEvents(g, h) ==> Retains(g, c)
  {
    hide Supersedes, IsNewestEvent, NewestInTable, NewestInHistory, IdsFixBodies;
    if Unbeaten(h, c) {
      forall g, id | SameEvents(g, h)
        ensures NewestInTable(Replay(g), c, id) <==> NewestInHistory(g, c, id)
      {
        SameNewest(g, h, c);
        NewestRetained(g, c, id);
      }
    } else {
      var a, b :| b in h && IsNewestEvent(h, c, a) && Supersedes(b, ToRow(a));
      NewestInside(h, c, a);
      assert SameEvents(h + [b], h);
      LastStoreRemoves(h, c, a, b);
    }
  }

  /** Stored last, an event removes what it supersedes. */
  lemma RemovedLast(h: History, a: NostrEvent, b: NostrEvent)
    requires IdsFixBodies(h + [b]) && a in h && Supersedes(b, ToRow(a))
    ensures !HasId(Replay(h + [b]), a.id)
  {
    hide Replay, JsonContains, CategoryOf;
    var g := h + [b];
    assert g[|h|] == b && a in g && b in g;
    assert b.id != a.id;
    TableContents(g, a.id);
    forall i | 0 <= i < |g| && g[i].id == a.id ensures !Survives(g, i) {
      assert g[i] in g && SameBody(g[i], a);
      SameBodySuperseded(b, g[i], a);
    }
  }

  /** Stored last, an event that supersedes a newest event of the class removes it. */
  lemma LastStoreRemoves(h: History, c: Class, a: NostrEvent, b: NostrEvent)
    requires IdsFixBodies(h) && b in h && a in h && IsNewestEvent(h, c, a) && Supersedes(b, ToRow(a))
    ensures !Retains(h + [b], c)
  {
    hide InClass, Replay, Supersedes, IsNewestEvent;
    var g := h + [b];
    assert SameEvents(g, h);
    SameNewest(g, h, c);
    RemovedLast(h, a, b);
    assert NewestInHistory(g, c, a.id) && !NewestInTable(Replay(g), c, a.id) by {
      NewestInside(g, c, a);
    }
  }

  /** Convergence: the same events, in any order and with any repetition, leave the same newest ids. */
  lemma Convergence(h1: History, h2: History, c: Class, id: string)
    requires SameEvents(h1, h2) && IdsFixBodies(h1) && Unbeaten(h1, c)
    ensures NewestInTable(Replay(h1), c, id) <==> NewestInTable(Replay(h2), c, id)
  {
    hide Supersedes, Unbeaten, NewestInTable, NewestInHistory, IsNewestEvent;
    SameNewest(h2, h1, c);
    NewestRetained(h1, c, id);
    NewestRetained(h2, c, id);
  }

  /** Of each newest id the two histories have the same first copy. */
  ghost predicate FirstCopiesAgree(h1: History, h2: History, c: Class) {
    forall i, j :: (0 <= i < |h1| && 0 <= j < |h2| && h1[i].id == h2[j].id && IsNewestEvent(h1, c, h1[i])
                    && FirstCopy(h1, i) && FirstCopy(h2, j)) ==> h1[i] == h2[j]
  }

  ghost predicate SameNewestRows(h1: History, h2: History, c: Class) {
    forall r :: IsNewestRow(Replay(h1), c, r) <==> IsNewestRow(Replay(h2), c, r)
  }

  /** Exactly when two histories of the same events leave the same newest rows, signatures included. */
  lemma RowsConvergeIff(h1: History, h2: History, c: Class)
    requires SameEvents(h1, h2) && IdsFixBodies(h1) && Unbeaten(h1, c)
    ensures SameNewestRows(h1, h2, c) <==> FirstCopiesAgree(h1, h2, c)
  {
    hide Supersedes, Unbeaten, IsNewestRow, IsNewestEvent, FirstCopy;
    SameNewest(h2, h1, c);
    if FirstCopiesAgree(h1, h2, c) {
      AgreeSymmetric(h1, h2, c);
      forall r ensures IsNewestRow(Replay(h1), c, r) <==> IsNewestRow(Replay(h2), c, r) {
        RowsFollowCopies(h1, h2, c, r);
        RowsFollowCopies(h2, h1, c, r);
      }
    }
    if SameNewestRows(h1, h2, c) {
      forall i, j | 0 <= i < |h1| && 0 <= j < |h2| && h1[i].id == h2[j].id && IsNewestEvent(h1, c, h1[i])
                    && FirstCopy(h1, i) && FirstCopy(h2, j)
        ensures h1[i] == h2[j]
      {
        CopiesFollowRows(h1, h2, c, i, j);
      }
    }
  }

  lemma AgreeSymmetric(h1: History, h2: History, c: Class)
    requires SameEvents(h1, h2) && IdsFixBodies(h1) && FirstCopiesAgree(h1, h2, c)
    ensures FirstCopiesAgree(h2, h1, c)
  {
    hide Supersedes, FirstCopy, InClass;
    forall i, j | 0 <= i < |h2| && 0 <= j < |h1| && h2[i].id == h1[j].id && IsNewestEvent(h2, c, h2[i])
                  && FirstCopy(h2, i) && FirstCopy(h1, j)
      ensures h2[i] == h1[j]
    {
      SameNewest(h2, h1, c);
      NewestBody(h1, c, h2[i], h1[j]);
    }
  }

  lemma RowsFollowCopies(h1: History, h2: History, c: Class, r: Row)
    requires SameEvents(h1, h2) && IdsFixBodies(h1) && IdsFixBodies(h2) && Unbeaten(h1, c) && Unbeaten(h2, c)
    requires FirstCopiesAgree(h1, h2, c)
    ensures IsNewestRow(Replay(h1), c, r) ==> IsNewestRow(Replay(h2), c, r)
  {
    hide Supersedes, Unbeaten, IsNewestRow, IsNewestEvent, FirstCopy;
    if IsNewestRow(Replay(h1), c, r) {
      NewestRows(h1, c, r);
      var i :| 0 <= i < |h1| && IsNewestEvent(h1, c, h1[i]) && FirstCopy(h1, i) && r == ToRow(h1[i]);
      SameNewest(h2, h1, c);
      var j := NewestHasRow(h2, c, h1[i]);
      assert h1[i] == h2[j];
    }
  }

  lemma CopiesFollowRows(h1: History, h2: History, c: Class, i: nat, j: nat)
    requires IdsFixBodies(h1) && IdsFixBodies(h2) && Unbeaten(h1, c) && SameEvents(h1, h2)
    requires i < |h1| && j < |h2| && h1[i].id == h2[j].id && IsNewestEvent(h1, c, h1[i])
    requires FirstCopy(h1, i) && FirstCopy(h2, j)
    requires forall r :: IsNewestRow(Replay(h1), c, r) ==> IsNewestRow(Replay(h2), c, r)
    ensures h1[i] == h2[j]
  {
    hide Supersedes, Unbeaten, IsNewestRow, InClass;
    SameNewest(h2, h1, c);
    NewestRows(h1, c, ToRow(h1[i]));
    assert IsNewestRow(Replay(h2), c, ToRow(h1[i]));
    NewestRows(h2, c, ToRow(h1[i]));
    var k :| 0 <= k < |h2| && FirstCopy(h2, k) && ToRow(h1[i]) == ToRow(h2[k]);
    RowRoundTrip(h1[i]);
    RowRoundTrip(h2[k]);
    assert k == j;
  }

  /** In particular when no newest event of the class was ever stored with two signatures. */
  lemma RowsConverge(h1: History, h2: History, c: Class, r: Row)
    requires SameEvents(h1, h2) && IdsFixBodies(h1) && Unbeaten(h1, c)
    requires forall a, b :: IsNewestEvent(h1, c, a) && b in h1 && a.id == b.id ==> a == b
    ensures IsNewestRow(Replay(h1), c, r) <==> IsNewestRow(Replay(h2), c, r)
  {
    hide Supersedes, Unbeaten, IsNewestRow, IsNewestEvent;
    RowsConvergeIff(h1, h2, c);
    assert forall j :: 0 <= j < |h2| ==> h2[j] in h2 && h2[j] in h1;
  }

  /** Otherwise the signature kept is the first arrival's: two copies of a newest event that differ in
      the signature, stored in either order after any history, leave different rows. */
  lemma FirstSignatureWins(g: History, a: NostrEvent, b: NostrEvent, c: Class)
    requires IdsFixBodies(g + [a, b]) && Unbeaten(g + [a, b], c) && IsNewestEvent(g + [a, b], c, a)
    requires a.id == b.id && forall e :: e in g ==> e.id != a.id
    ensures IsNewestRow(Replay(g + [a, b]), c, ToRow(a)) && IsNewestRow(Replay(g + [b, a]), c, ToRow(b))
  {
    hide Supersedes, Unbeaten, IsNewestRow, InClass;
    var h1, h2, n := g + [a, b], g + [b, a], |g|;
    assert SameEvents(h2, h1);
    SameNewest(h2, h1, c);
    assert h1[n] == a && h1[n + 1] == b && h2[n] == b && b in h1;
    NewestBody(h1, c, a, b);
    assert FirstCopy(h1, n) && FirstCopy(h2, n);
    NewestRows(h1, c, ToRow(a));
    NewestRows(h2, c, ToRow(b));
  }

  // ---- the classes of the source ----

  /** All rows of one author and kind. */
  function KeyClass(pubkey: string, kind: int): Class {
    (p: string, k: int, tags: Tags) => p == pubkey && k == kind
  }

  /** All rows of one author, kind and `d_tag`. */
  function AddressClass(pubkey: string, kind: int, d: string): Class {
    (p: string, k: int, tags: Tags) => p == pubkey && k == kind && DTag(tags) == d
  }

  /** Every history is confined to each author and kind, so the results above hold for them as is. */
  lemma KeyConfined(h: History, pubkey: string, kind: int)
    ensures Confined(h, KeyClass(pubkey, kind))
  {
  }

  // ---- d tags ----

  /** The first tag named "d". */
  function FirstD(tags: Tags): Option<seq<string>> {
    if tags == [] then None
    else if |tags[0]| > 0 && tags[0][0] == "d" then Some(tags[0])
    else FirstD(tags[1..])
  }

  lemma {:induction false} FirstDMeans(tags: Tags)
    ensures FirstD(tags).Some? ==> FirstD(tags).value in tags && "d" in FirstD(tags).value
    ensures DTag(tags) == (match FirstD(tags) case Some(t) => (if |t| > 1 then t[1] else "") case None => "")
    ensures FirstD(tags).None? <==> forall t :: t in tags ==> |t| == 0 || t[0] != "d"
  {
    if tags != [] {
      FirstDMeans(tags[1..]);
      assert forall t :: t in tags <==> t == tags[0] || t in tags[1..];
    }
  }

  predicate NamedD(tag: seq<string>) {
    |tag| > 0 && tag[0] == "d"
  }

  /** `d_tag` on the tags alone: the first of them that is named "d" has the value, if it has any. */
  lemma {:induction false} DTagMeans(tags: Tags, i: nat)
    requires i < |tags| && NamedD(tags[i]) && forall j :: 0 <= j < i ==> !NamedD(tags[j])
    ensures DTag(tags) == (if |tags[i]| > 1 then tags[i][1] else "")
    ensures FirstD(tags) == Some(tags[i])
  {
    if i > 0 {
      assert !NamedD(tags[0]) && tags[1..][i - 1] == tags[i];
      assert forall j :: 0 <= j < i - 1 ==> tags[1..][j] == tags[j + 1];
      DTagMeans(tags[1..], i - 1);
    }
  }

  /** The DELETE always hits a row whose first d tag spells out its value. */
  lemma ExplicitDHit(tags: Tags)
    requires FirstD(tags).Some? && |FirstD(tags).value| > 1
    ensures JsonContains(TagsJson(tags), DPattern(DTag(tags)))
  {
    FirstDMeans(tags);
    DPatternMeans(tags, DTag(tags));
    assert FirstD(tags).value[1] in FirstD(tags).value;
  }

  /** Every string beside a "d" in a tag is the row's `d_tag` or "d" itself, and some tag has both. */
  predicate CleanD(tags: Tags) {
    && (forall t :: t in tags && "d" in t ==> forall w :: w in t ==> w == "d" || w == DTag(tags))
    && (DTag(tags) == "d" || exists t :: t in tags && "d" in t && DTag(tags) in t)
  }

  /** Containment agrees with `d_tag` equality, for every value but "d", on exactly the clean rows. */
  lemma ContainmentExactIff(tags: Tags)
    ensures CleanD(tags) <==>
      forall v :: v != "d" ==> (JsonContains(TagsJson(tags), DPattern(v)) <==> DTag(tags) == v)
  {
    forall v ensures JsonContains(TagsJson(tags), DPattern(v)) <==> MatchesDPattern(tags, v) {
      DPatternMeans(tags, v);
    }
    if forall v :: v != "d" ==> (JsonContains(TagsJson(tags), DPattern(v)) <==> DTag(tags) == v) {
      forall t, w | t in tags && "d" in t && w in t && w != "d" ensures w == DTag(tags) {
        assert MatchesDPattern(tags, w);
      }
      if DTag(tags) != "d" {
        assert JsonContains(TagsJson(tags), DPattern(DTag(tags)));
        assert MatchesDPattern(tags, DTag(tags));
      }
    }
  }

  /** Exactly one tag mentions "d", and it is a pair named "d". */
  predicate PlainD(tags: Tags) {
    exists i :: 0 <= i < |tags| && |tags[i]| == 2 && tags[i][0] == "d" &&
                forall j :: 0 <= j < |tags| && j != i ==> "d" !in tags[j]
  }

  /** Such rows are clean; on them containment of "d" itself always holds. */
  lemma PlainDExact(tags: Tags, v: string)
    requires PlainD(tags)
    ensures CleanD(tags)
    ensures JsonContains(TagsJson(tags), DPattern(v)) <==> v == "d" || DTag(tags) == v
  {
    FirstDMeans(tags);
    DPatternMeans(tags, v);
    var i :| 0 <= i < |tags| && |tags[i]| == 2 && tags[i][0] == "d" &&
             forall j :: 0 <= j < |tags| && j != i ==> "d" !in tags[j];
    assert tags[i] in tags && FirstD(tags).Some?;
    var k :| 0 <= k < |tags| && tags[k] == FirstD(tags).value;
    assert k == i;
    assert forall w :: w in tags[i] <==> w == "d" || w == tags[i][1];
  }

  /** A row without a d tag has `d_tag` "" and yet no DELETE for "" or anything else reaches it;
      a row can be reached through a tag that is not its d tag; and a DELETE for "d" reaches others. */
  lemma ContainmentIsNotDTag()
    ensures forall v :: DTag([]) == "" && !JsonContains(TagsJson([]), DPattern(v))
    ensures var tags := [["d", "y"], ["e", "d", "x"]];
            DTag(tags) == "y" && JsonContains(TagsJson(tags), DPattern("x"))
    ensures var tags := [["d", "y"]];
            DTag(tags) == "y" && JsonContains(TagsJson(tags), DPattern("d"))
  {
    hide JsonContains, TagsJson, DPattern;
    forall v ensures !JsonContains(TagsJson([]), DPattern(v)) {
      DPatternMeans([], v);
    }
    OtherTagHit();
    LiteralDHit();
  }

  lemma OtherTagHit()
    ensures var tags := [["d", "y"], ["e", "d", "x"]];
            DTag(tags) == "y" && JsonContains(TagsJson(tags), DPattern("x"))
  {
    hide JsonContains, TagsJson, DPattern;
    var tags := [["d", "y"], ["e", "d", "x"]];
    DPatternMeans(tags, "x");
    assert tags[1] in tags && tags[1][1] == "d" && tags[1][2] == "x";
  }

  lemma LiteralDHit()
    ensures var tags := [["d", "y"]];
            DTag(tags) == "y" && JsonContains(TagsJson(tags), DPattern("d"))
  {
    hide JsonContains, TagsJson, DPattern;
    DPatternMeans([["d", "y"]], "d");
    assert [["d", "y"]][0] in [["d", "y"]] && ["d", "y"][0] == "d";
  }

  /** No newer event of the author and kind has a d tag that a tag of a newest event of the address
      mentions together with "d". */
  ghost predicate AddressSafe(h: History, pubkey: string, kind: U32, d: string) {
    forall a, b ::
      (b in h && b.pubkey == pubkey && b.kind == kind && IsNewestEvent(h, AddressClass(pubkey, ToI32(kind), d), a)
       && b.createdAt > a.createdAt) ==> !MatchesDPattern(a.tags, DTag(b.tags))
  }

  lemma AddressSafeMeans(h: History, pubkey: string, kind: U32, d: string)
    requires CategoryOf(kind) == ParameterizedReplaceable
    ensures AddressSafe(h, pubkey, kind, d) <==> Unbeaten(h, AddressClass(pubkey, ToI32(kind), d))
  {
    hide JsonContains, CategoryOf, MatchesDPattern;
    var c := AddressClass(pubkey, ToI32(kind), d);
    forall a, b | b in h && IsNewestEvent(h, c, a)
      ensures Supersedes(b, ToRow(a)) <==>
        b.pubkey == pubkey && b.kind == kind && b.createdAt > a.createdAt && MatchesDPattern(a.tags, DTag(b.tags))
    {
      assert a.kind == kind;
      KindDecides(b, a);
      DPatternMeans(a.tags, DTag(b.tags));
    }
  }

  /** Exactly when an address keeps its newest events, whatever the order and repetition of the stores. */
  lemma AddressRetainedIff(h: History, pubkey: string, kind: U32, d: string)
    requires CategoryOf(kind) == ParameterizedReplaceable && IdsFixBodies(h)
    ensures AddressSafe(h, pubkey, kind, d) <==>
      forall g :: SameEvents(g, h) ==> Retains(g, AddressClass(pubkey, ToI32(kind), d))
  {
    hide AddressSafe, Unbeaten, Retains, CategoryOf;
    AddressSafeMeans(h, pubkey, kind, d);
    RetainedIff(h, AddressClass(pubkey, ToI32(kind), d));
  }

  /** Enough for that: the newest events of the address are clean, and nothing newer has the d tag "d". */
  lemma CleanAddressSafe(h: History, pubkey: string, kind: U32, d: string)
    requires CategoryOf(kind) == ParameterizedReplaceable
    requires forall a :: IsNewestEvent(h, AddressClass(pubkey, ToI32(kind), d), a) ==> CleanD(a.tags)
    requires forall b :: b in h && b.pubkey == pubkey && b.kind == kind ==> DTag(b.tags) != "d"
    ensures AddressSafe(h, pubkey, kind, d)
  {
    hide CleanD, JsonContains, MatchesDPattern, CategoryOf;
    var c := AddressClass(pubkey, ToI32(kind), d);
    forall a, b | b in h && b.pubkey == pubkey && b.kind == kind && IsNewestEvent(h, c, a) && b.createdAt > a.createdAt
      ensures !MatchesDPattern(a.tags, DTag(b.tags))
    {
      assert CategoryOf(b.kind) == ParameterizedReplaceable;
      ContainmentExactIff(a.tags);
      DPatternMeans(a.tags, DTag(b.tags));
    }
  }

  /** And then the address converges. */
  lemma AddressConverges(h1: History, h2: History, pubkey: string, kind: U32, d: string, id: string)
    requires CategoryOf(kind) == ParameterizedReplaceable && SameEvents(h1, h2) && IdsFixBodies(h1)
    requires AddressSafe(h1, pubkey, kind, d)
    ensures var c := AddressClass(pubkey, ToI32(kind), d);
      && (NewestInTable(Replay(h1), c, id) <==> NewestInHistory(h1, c, id))
      && (NewestInTable(Replay(h1), c, id) <==> NewestInTable(Replay(h2), c, id))
  {
    hide AddressSafe, Unbeaten, NewestInTable, NewestInHistory, CategoryOf;
    var c := AddressClass(pubkey, ToI32(kind), d);
    AddressSafeMeans(h1, pubkey, kind, d);
    NewestRetained(h1, c, id);
    Convergence(h1, h2, c, id);
  }

  /** Exactly when only events of the address ever supersede rows of it. */
  lemma AddressConfined(h: History, pubkey: string, kind: U32, d: string)
    requires CategoryOf(kind) == ParameterizedReplaceable
    ensures Confined(h, AddressClass(pubkey, ToI32(kind), d)) <==>
      forall a, b :: (a in h && b in h && a.pubkey == pubkey && a.kind == kind && DTag(a.tags) == d
                      && b.pubkey == pubkey && b.kind == kind && b.createdAt > a.createdAt
                      && MatchesDPattern(a.tags, DTag(b.tags))) ==> DTag(b.tags) == d
  {
    hide JsonContains, CategoryOf, MatchesDPattern;
    forall a, b ensures Supersedes(b, ToRow(a)) && a.kind == kind <==>
      && a.kind == kind && b.pubkey == a.pubkey && b.kind == kind && b.createdAt > a.createdAt
      && MatchesDPattern(a.tags, DTag(b.tags))
    {
      KindDecides(b, a);
      DPatternMeans(a.tags, DTag(b.tags));
    }
  }

  /** An address that loses its newest event: any event tagged as `a` is, and any newer one of its author
      and kind tagged as `b` is, at another address. No row of the address is left. */
  lemma AddressEmptied(a: NostrEvent, b: NostrEvent)
    requires CategoryOf(a.kind) == ParameterizedReplaceable && b.kind == a.kind && b.pubkey == a.pubkey
    requires b.createdAt > a.createdAt && b.id != a.id
    requires (a.tags == [["d", "y"], ["e", "d", "x"]] && b.tags == [["d", "x"]])
      || (a.tags == [["d", "y"]] && b.tags == [["d", "d"]])
    ensures DTag(a.tags) == "y" && DTag(b.tags) != "y"
    ensures Replay([a, b]) == [ToRow(b)]
    ensures forall r :: r in Replay([a, b]) ==> !InClass(AddressClass(a.pubkey, ToI32(a.kind), "y"), r)
  {
    hide JsonContains, TagsJson, DPattern, Replay;
    OtherTagHit();
    LiteralDHit();
    assert DTag([["d", "x"]]) == "x" && DTag([["d", "d"]]) == "d";
    ReplaySuperseded(a, b);
  }

  /** Of two stores the second removes the first, if it supersedes it. */
  lemma ReplaySuperseded(a: NostrEvent, b: NostrEvent)
    requires Supersedes(b, ToRow(a)) && !IsEphemeral(a)
    ensures Store([], a) == [ToRow(a)] && Store([ToRow(a)], b) == [ToRow(b)]
    ensures Replay([a, b]) == [ToRow(b)]
  {
    hide JsonContains;
    var t := [ToRow(a)];
    assert [a, b][..1] == [a] && [a][..0] == [] && Replay([]) == [];
    assert Without([], SupersededIds([], a)) == [] && !HasId([], a.id);
    assert Replay([a]) == t;
    assert ToRow(a) in t && ToRow(a).id in SupersededIds(t, b);
    assert t[1..] == [] && Without(t, SupersededIds(t, b)) == [];
  }

  // ---- replaceable keys ----

  /** Rows of the key stand in non-increasing order of `created_at`. */
  ghost predicate NonIncreasing(t: seq<Row>, c: Class) {
    forall i, j :: 0 <= i < j < |t| && InClass(c, t[i]) && InClass(c, t[j]) ==> t[i].createdAt >= t[j].createdAt
  }

  lemma ConsKeepsOrder(x: Row, w: seq<Row>, c: Class)
    requires NonIncreasing(w, c)
    requires InClass(c, x) ==> forall r :: r in w && InClass(c, r) ==> x.createdAt >= r.createdAt
    ensures NonIncreasing([x] + w, c)
  {
    hide InClass;
  }

  lemma AppendKeepsOrder(w: seq<Row>, x: Row, c: Class)
    requires NonIncreasing(w, c)
    requires InClass(c, x) ==> forall r :: r in w && InClass(c, r) ==> r.createdAt >= x.createdAt
    ensures NonIncreasing(InsertRow(w, x), c)
  {
    hide InClass, HasId;
  }

  lemma TailOrder(t: seq<Row>, c: Class)
    requires t != [] && NonIncreasing(t, c)
    ensures NonIncreasing(t[1..], c)
    ensures InClass(c, t[0]) ==> forall r :: r in t[1..] && InClass(c, r) ==> t[0].createdAt >= r.createdAt
  {
    hide InClass;
    forall r | r in t[1..] && InClass(c, r) && InClass(c, t[0]) ensures t[0].createdAt >= r.createdAt {
      var i :| 0 <= i < |t[1..]| && t[1..][i] == r;
      assert t[i + 1] == r;
    }
  }

  lemma {:induction false} WithoutKeepsOrder(t: seq<Row>, ids: set<string>, c: Class)
    requires NonIncreasing(t, c)
    ensures NonIncreasing(Without(t, ids), c)
  {
    hide NonIncreasing, InClass;
    if t == [] {
    } else {
      TailOrder(t, c);
      WithoutKeepsOrder(t[1..], ids, c);
      WithoutMeans(t[1..], ids);
      if t[0].id !in ids {
        ConsKeepsOrder(t[0], Without(t[1..], ids), c);
      }
    }
  }

  /** One store keeps the order of a replaceable key. */
  lemma StoreKeepsOrder(t: seq<Row>, e: NostrEvent, pubkey: string, kind: U32)
    requires UniqueIds(t) && CategoryOf(kind) == Replaceable && NonIncreasing(t, KeyClass(pubkey, ToI32(kind)))
    ensures NonIncreasing(Store(t, e), KeyClass(pubkey, ToI32(kind)))
  {
    hide NonIncreasing, JsonContains, InsertRow, Without, CategoryOf;
    var c := KeyClass(pubkey, ToI32(kind));
    var d := Without(t, SupersededIds(t, e));
    WithoutKeepsOrder(t, SupersededIds(t, e), c);
    WithoutMeans(t, SupersededIds(t, e));
    forall r | r in d ensures !Supersedes(e, r) {
      SupersededExactly(t, e, r);
    }
    if InClass(c, ToRow(e)) {
      assert e.kind == kind;
      AppendKeepsOrder(d, ToRow(e), c);
    } else {
      AppendKeepsOrder(d, ToRow(e), c);
      AppendKeepsOrder(t, ToRow(e), c);
    }
  }

  /** The rows of a replaceable key, in insertion order, never increase in `created_at`. */
  lemma {:induction false} InsertionOrder(h: History, pubkey: string, kind: U32)
    requires CategoryOf(kind) == Replaceable
    ensures NonIncreasing(Replay(h), KeyClass(pubkey, ToI32(kind)))
  {
    hide Store, CategoryOf;
    if h == [] {
    } else {
      var g := h[..|h| - 1];
      InsertionOrder(g, pubkey, kind);
      RowsComeFromHistory(g);
      StoreKeepsOrder(Replay(g), h[|h| - 1], pubkey, kind);
    }
  }

  /** Strictly increasing arrivals of one replaceable key leave exactly the last one. */
  lemma {:induction false} IncreasingArrivals(h: History, pubkey: string, kind: U32)
    requires h != [] && CategoryOf(kind) == Replaceable
    requires forall e :: e in h ==> e.pubkey == pubkey && e.kind == kind
    requires forall i, j :: 0 <= i < j < |h| ==> h[i].createdAt < h[j].createdAt
    ensures Replay(h) == [ToRow(h[|h| - 1])]
  {
    var g, e := h[..|h| - 1], h[|h| - 1];
    if g == [] {
      assert Replay(g) == [] && Without([], SupersededIds([], e)) == [];
    } else {
      forall d | d in g ensures d in h {
      }
      IncreasingArrivals(g, pubkey, kind);
      var r := ToRow(g[|g| - 1]);
      assert g[|g| - 1] in h && e in h && r in [r] && Supersedes(e, r);
      assert r.id in SupersededIds([r], e);
      assert [r][1..] == [];
      assert Without([r], SupersededIds([r], e)) == [];
    }
  }

  /** A stale arrival is inserted all the same: the comment at the top of the upsert claims it is dropped. */
  lemma StaleArrivalStays(older: NostrEvent, newer: NostrEvent)
    requires CategoryOf(older.kind) == Replaceable && older.kind == newer.kind && older.pubkey == newer.pubkey
    requires older.createdAt < newer.createdAt && older.id != newer.id
    ensures Replay([newer, older]) == [ToRow(newer), ToRow(older)]
  {
    var t := [ToRow(newer)];
    assert [newer][..0] == [] && Replay([]) == [] && Without([], SupersededIds([], newer)) == [];
    assert Replay([newer]) == t;
    assert [newer, older][..1] == [newer];
    assert SupersededIds(t, older) == {};
    WithoutNone(t);
    assert !HasId(t, older.id);
  }

  /** A row under the id of `a` that `b` removes: then `a` is inserted only after `b`. */
  ghost predicate Clash(t: seq<Row>, a: NostrEvent, b: NostrEvent) {
    !IsEphemeral(a) && exists q :: q in t && q.id == a.id && Supersedes(b, q)
  }

  /** On any table, two stores of different (pubkey, kind) commute exactly unless one of them removes a row
      that stands under the id of the other, or both bring the same new id. Neither happens when ids fix
      their events. */
  lemma StoresCommute(t: seq<Row>, a: NostrEvent, b: NostrEvent)
    requires UniqueIds(t) && (a.pubkey != b.pubkey || a.kind != b.kind)
    ensures (forall r :: r in Store(Store(t, a), b) <==> r in Store(Store(t, b), a)) <==>
      if a.id == b.id then IsEphemeral(a) || IsEphemeral(b) || HasId(t, a.id) else !Clash(t, a, b) && !Clash(t, b, a)
  {
    hide Supersedes, Store, IsEphemeral;
    OtherKeyApart(a, b);
    if a.id == b.id {
      SameIdCommute(t, a, b);
    } else {
      FinalRows(t, a, b);
      FinalRows(t, b, a);
      ClashMeans(t, a, b);
      ClashMeans(t, b, a);
    }
  }

  lemma OtherKeyApart(a: NostrEvent, b: NostrEvent)
    requires a.pubkey != b.pubkey || a.kind != b.kind
    ensures !Supersedes(a, ToRow(b)) && !Supersedes(b, ToRow(a)) && ToRow(a) != ToRow(b)
    ensures !Supersedes(a, ToRow(a)) && !Supersedes(b, ToRow(b))
    ensures forall q :: !(Supersedes(a, q) && Supersedes(b, q))
  {
    hide JsonContains, CategoryOf;
  }

  ghost predicate InsertedFirst(t: seq<Row>, a: NostrEvent) {
    !IsEphemeral(a) && forall q :: q in t && q.id == a.id ==> Supersedes(a, q)
  }

  ghost predicate InsertedAfter(t: seq<Row>, a: NostrEvent, b: NostrEvent) {
    !IsEphemeral(a) && forall q :: q in t && q.id == a.id ==> Supersedes(a, q) || Supersedes(b, q)
  }

  /** The rows after two stores of different keys and ids. */
  lemma FinalRows(t: seq<Row>, a: NostrEvent, b: NostrEvent)
    requires UniqueIds(t) && (a.pubkey != b.pubkey || a.kind != b.kind) && a.id != b.id
    ensures forall r :: r in Store(Store(t, a), b) <==>
      || (r in t && !Supersedes(a, r) && !Supersedes(b, r))
      || (r == ToRow(a) && InsertedFirst(t, a))
      || (r == ToRow(b) && InsertedAfter(t, b, a))
  {
    hide Supersedes, Store, IsEphemeral;
    OtherKeyApart(a, b);
    StoreMeans(t, a);
    StoreMeans(Store(t, a), b);
  }

  lemma ClashMeans(t: seq<Row>, a: NostrEvent, b: NostrEvent)
    requires UniqueIds(t) && (a.pubkey != b.pubkey || a.kind != b.kind)
    ensures InsertedFirst(t, a) ==> InsertedAfter(t, a, b)
    ensures InsertedAfter(t, a, b) && !InsertedFirst(t, a) <==> Clash(t, a, b)
    ensures Clash(t, a, b) ==> ToRow(a) !in t
  {
    hide Supersedes, IsEphemeral;
    OtherKeyApart(a, b);
    forall p, q | p in t && q in t && p.id == q.id ensures p == q {
      SameRow(t, p, q);
    }
  }

  lemma SameIdCommute(t: seq<Row>, a: NostrEvent, b: NostrEvent)
    requires UniqueIds(t) && (a.pubkey != b.pubkey || a.kind != b.kind) && a.id == b.id
    ensures (forall r :: r in Store(Store(t, a), b) <==> r in Store(Store(t, b), a)) <==>
      IsEphemeral(a) || IsEphemeral(b) || HasId(t, a.id)
  {
    hide Supersedes, Store;
    OtherKeyApart(a, b);
    EphemeralSupersedesNone(a);
    EphemeralSupersedesNone(b);
    hide IsEphemeral;
    forall p, q | p in t && q in t && p.id == q.id ensures p == q {
      SameRow(t, p, q);
    }
    SameIdRows(t, a, b);
    SameIdRows(t, b, a);
  }

  lemma EphemeralSupersedesNone(a: NostrEvent)
    ensures IsEphemeral(a) ==> forall q :: !Supersedes(a, q)
  {
  }

  lemma SameIdRows(t: seq<Row>, a: NostrEvent, b: NostrEvent)
    requires UniqueIds(t) && (a.pubkey != b.pubkey || a.kind != b.kind) && a.id == b.id
    requires forall p, q :: p in t && q in t && p.id == q.id ==> p == q
    ensures forall r :: r in Store(Store(t, a), b) <==>
      || (r in t && !Supersedes(a, r) && !Supersedes(b, r))
      || (r == ToRow(a) && InsertedFirst(t, a))
      || (r == ToRow(b) && !InsertedFirst(t, a) && InsertedAfter(t, b, a))
  {
    hide Supersedes, Store, IsEphemeral;
    OtherKeyApart(a, b);
    StoreMeans(t, a);
    StoreMeans(Store(t, a), b);
    if InsertedFirst(t, a) {
      assert ToRow(a) in Store(t, a);
    }
  }

  /** In any history, two stores of different (pubkey, kind) at its end may be swapped. */
  lemma LastStoresCommute(h: History, a: NostrEvent, b: NostrEvent)
    requires IdsFixBodies(h + [a, b]) && (a.pubkey != b.pubkey || a.kind != b.kind)
    ensures forall r :: r in Replay(h + [a, b]) <==> r in Replay(h + [b, a])
  {
    hide Supersedes, Store;
    RowsComeFromHistory(h);
    assert forall e :: e in h + [a, b] <==> e in h || e == a || e == b;
    assert a.id != b.id;
    NoClash(h, a, b);
    NoClash(h, b, a);
    StoresCommute(Replay(h), a, b);
    ReplayTwo(h, a, b);
    ReplayTwo(h, b, a);
  }

  lemma ReplayTwo(h: History, a: NostrEvent, b: NostrEvent)
    ensures Replay(h + [a, b]) == Store(Store(Replay(h), a), b)
  {
    hide Store;
    assert (h + [a, b])[..|h| + 1] == h + [a] && (h + [a])[..|h|] == h;
  }

  lemma NoClash(h: History, a: NostrEvent, b: NostrEvent)
    requires (a.pubkey != b.pubkey || a.kind != b.kind) && forall d :: d in h && d.id == a.id ==> SameBody(d, a)
    ensures !Clash(Replay(h), a, b)
  {
    hide JsonContains, CategoryOf, Replay;
    RowsComeFromHistory(h);
    forall q | q in Replay(h) && q.id == a.id ensures !Supersedes(b, q) {
      var d :| d in h && q == ToRow(d);
      assert SameBody(d, a);
    }
  }

  // ---- exactly one row ----

  /** The table holds exactly one row of the class. */
  ghost predicate HoldsOne(t: seq<Row>, c: Class) {
    exists r :: r in t && InClass(c, r) && forall q :: q in t && InClass(c, q) ==> q == r
  }

  predicate OfKey(e: NostrEvent, pubkey: string, kind: U32) {
    e.pubkey == pubkey && e.kind == kind
  }

  ghost predicate LeftBy(h: History, c: Class, i: nat)
    requires i < |h|
  {
    InClass(c, ToRow(h[i])) && Survives(h, i)
  }

  /** The store is left, and every store of the class that is left has its id. */
  ghost predicate OnlyIdLeft(h: History, c: Class, i: nat)
    requires i < |h|
  {
    LeftBy(h, c, i) && forall k :: 0 <= k < |h| && LeftBy(h, c, k) ==> h[k].id == h[i].id
  }

  /** Any class of rows: one row exactly when the surviving stores of the class are all of one id. */
  lemma ClassOneRowIff(h: History, c: Class)
    requires IdsFixBodies(h)
    ensures HoldsOne(Replay(h), c) <==> exists i :: 0 <= i < |h| && OnlyIdLeft(h, c, i)
  {
    hide IdsFixBodies, Replay, LeftBy, InClass;
    if HoldsOne(Replay(h), c) {
      var i := OneRowLeft(h, c);
    }
    if i :| 0 <= i < |h| && OnlyIdLeft(h, c, i) {
      OneIdOneRow(h, c, i);
    }
  }

  lemma OneRowLeft(h: History, c: Class) returns (i: nat)
    requires IdsFixBodies(h) && HoldsOne(Replay(h), c)
    ensures i < |h| && OnlyIdLeft(h, c, i)
  {
    hide IdsFixBodies, Replay, LeftBy, InClass;
    var r :| r in Replay(h) && InClass(c, r) && forall q :: q in Replay(h) && InClass(c, q) ==> q == r;
    i := SurvivorOf(h, c, r);
    forall k | 0 <= k < |h| && LeftBy(h, c, k) ensures h[k].id == h[i].id {
      var q := RowLeft(h, c, k);
    }
  }

  lemma OneIdOneRow(h: History, c: Class, i: nat)
    requires IdsFixBodies(h) && i < |h| && OnlyIdLeft(h, c, i)
    ensures HoldsOne(Replay(h), c)
  {
    hide IdsFixBodies, Replay, LeftBy, InClass, UniqueIds;
    RowsComeFromHistory(h);
    var r := RowLeft(h, c, i);
    forall q | q in Replay(h) && InClass(c, q) ensures q == r {
      var k := SurvivorOf(h, c, q);
      SameRow(Replay(h), q, r);
    }
  }

  /** A row of the class is there by a surviving store of the class. */
  lemma SurvivorOf(h: History, c: Class, q: Row) returns (i: nat)
    requires IdsFixBodies(h) && q in Replay(h) && InClass(c, q)
    ensures i < |h| && h[i].id == q.id && LeftBy(h, c, i)
  {
    hide Supersedes, Replay, Survives;
    RowsComeFromHistory(h);
    var e :| e in h && q == ToRow(e);
    TableContents(h, q.id);
    i :| 0 <= i < |h| && h[i].id == q.id && Survives(h, i);
    assert h[i] in h && SameBody(e, h[i]);
  }

  lemma RowLeft(h: History, c: Class, i: nat) returns (r: Row)
    requires IdsFixBodies(h) && i < |h| && LeftBy(h, c, i)
    ensures r in Replay(h) && InClass(c, r) && r.id == h[i].id
  {
    hide Supersedes, Replay, Survives;
    TableContents(h, h[i].id);
    r :| r in Replay(h) && r.id == h[i].id;
    assert h[i] in h;
    var b := RowBody(h, r, h[i]);
  }

  /** Rows of the class are superseded by the strictly newer events of the class, and by nothing else. */
  ghost predicate Ordered(h: History, c: Class) {
    forall a, b :: a in h && b in h && InClass(c, ToRow(a)) ==>
      !IsEphemeral(a) && (Supersedes(b, ToRow(a)) <==> InClass(c, ToRow(b)) && b.createdAt > a.createdAt)
  }

  /** The last arrival of the class is strictly newer than every event of it with another id. */
  ghost predicate LastIsNewest(h: History, c: Class, l: nat)
    requires l < |h|
  {
    forall i :: 0 <= i < |h| && InClass(c, ToRow(h[i])) && h[i].id != h[l].id ==> h[i].createdAt < h[l].createdAt
  }

  lemma OrderedOneRowIff(h: History, c: Class, l: nat)
    requires IdsFixBodies(h) && Ordered(h, c)
    requires l < |h| && InClass(c, ToRow(h[l])) && forall j :: l < j < |h| ==> !InClass(c, ToRow(h[j]))
    ensures HoldsOne(Replay(h), c) <==> LastIsNewest(h, c, l)
  {
    hide IdsFixBodies, Ordered, LeftBy, Replay, InClass, HoldsOne, LastIsNewest;
    ClassOneRowIff(h, c);
    LastLeft(h, c, l);
    if LastIsNewest(h, c, l) {
      forall k | 0 <= k < |h| && LeftBy(h, c, k) ensures h[k].id == h[l].id {
        OtherTaken(h, c, l, k);
      }
      assert OnlyIdLeft(h, c, l);
    } else {
      var i := Unmatched(h, c, l);
      var k := OtherLeft(h, c, l, i);
      assert h[k].id != h[l].id;
    }
  }

  lemma LastLeft(h: History, c: Class, l: nat)
    requires Ordered(h, c) && l < |h| && InClass(c, ToRow(h[l])) && forall j :: l < j < |h| ==> !InClass(c, ToRow(h[j]))
    ensures LeftBy(h, c, l)
  {
    hide Supersedes, InClass;
    assert forall j :: 0 <= j < |h| ==> h[j] in h;
  }

  lemma OtherTaken(h: History, c: Class, l: nat, k: nat)
    requires Ordered(h, c) && l < |h| && InClass(c, ToRow(h[l])) && forall j :: l < j < |h| ==> !InClass(c, ToRow(h[j]))
    requires LastIsNewest(h, c, l) && k < |h| && LeftBy(h, c, k)
    ensures h[k].id == h[l].id
  {
    hide Supersedes, InClass;
    assert k <= l && h[k] in h && h[l] in h;
    assert k < l ==> !Supersedes(h[l], ToRow(h[k]));
  }

  lemma Unmatched(h: History, c: Class, l: nat) returns (i: nat)
    requires l < |h| && !LastIsNewest(h, c, l)
    ensures i < |h| && InClass(c, ToRow(h[i])) && h[i].id != h[l].id && h[i].createdAt >= h[l].createdAt
  {
    hide InClass;
    i :| 0 <= i < |h| && InClass(c, ToRow(h[i])) && h[i].id != h[l].id && h[i].createdAt >= h[l].createdAt;
  }

  /** An event of another id at least as new as `h[l]` leaves another row beside it. */
  lemma {:induction false} OtherLeft(h: History, c: Class, l: nat, i: nat) returns (k: nat)
    requires IdsFixBodies(h) && Ordered(h, c) && l < |h| && i < |h|
    requires InClass(c, ToRow(h[i])) && h[i].id != h[l].id && h[i].createdAt >= h[l].createdAt
    ensures k < |h| && LeftBy(h, c, k) && h[k].id != h[l].id
    decreases |h| - i
  {
    hide Supersedes, InClass;
    assert forall j :: 0 <= j < |h| ==> h[j] in h;
    if j :| i < j < |h| && Supersedes(h[j], ToRow(h[i])) {
      k := OtherLeft(h, c, l, j);
    } else {
      k := i;
    }
  }

  /** A replaceable key holds exactly one row exactly when the last arrival is strictly newer than every
      event of another id. */
  lemma OneRowIff(h: History, l: nat, pubkey: string, kind: U32)
    requires IdsFixBodies(h) && CategoryOf(kind) == Replaceable
    requires l < |h| && OfKey(h[l], pubkey, kind) && forall j :: l < j < |h| ==> !OfKey(h[j], pubkey, kind)
    ensures HoldsOne(Replay(h), KeyClass(pubkey, ToI32(kind))) <==>
      forall i :: 0 <= i < |h| && OfKey(h[i], pubkey, kind) && h[i].id != h[l].id ==> h[i].createdAt < h[l].createdAt
  {
    hide CategoryOf, Replay, HoldsOne, IdsFixBodies, Ordered, InClass, OfKey, KeyClass;
    KeyOrdered(h, pubkey, kind);
    forall e ensures InClass(KeyClass(pubkey, ToI32(kind)), ToRow(e)) <==> OfKey(e, pubkey, kind) {
      KeyOfEvent(e, pubkey, kind);
    }
    OrderedOneRowIff(h, KeyClass(pubkey, ToI32(kind)), l);
  }

  lemma KeyOfEvent(e: NostrEvent, pubkey: string, kind: U32)
    ensures InClass(KeyClass(pubkey, ToI32(kind)), ToRow(e)) <==> OfKey(e, pubkey, kind)
  {
  }

  lemma KeyOrdered(h: History, pubkey: string, kind: U32)
    requires CategoryOf(kind) == Replaceable
    ensures Ordered(h, KeyClass(pubkey, ToI32(kind)))
  {
    hide Supersedes, CategoryOf, InClass, KeyClass;
    var c := KeyClass(pubkey, ToI32(kind));
    forall a, b | a in h && b in h && InClass(c, ToRow(a))
      ensures !IsEphemeral(a) && (Supersedes(b, ToRow(a)) <==> InClass(c, ToRow(b)) && b.createdAt > a.createdAt)
    {
      KeyOfEvent(a, pubkey, kind);
      KeyOfEvent(b, pubkey, kind);
      ReplaceableSuperseded(b, a);
    }
  }

  // ---- exactly one row at an address ----

  /** A later and newer event of the author and kind has a d tag that a tag of the event mentions beside "d". */
  ghost predicate ReachedLater(h: History, i: nat)
    requires i < |h|
  {
    exists j :: i < j < |h| && h[j].pubkey == h[i].pubkey && h[j].kind == h[i].kind
      && h[j].createdAt > h[i].createdAt && MatchesDPattern(h[i].tags, DTag(h[j].tags))
  }

  predicate AtAddress(e: NostrEvent, pubkey: string, kind: U32, d: string) {
    OfKey(e, pubkey, kind) && DTag(e.tags) == d
  }

  /** The event is at the address, and no later and newer event of its author and kind has a d tag that one of
      its tags mentions beside "d". */
  ghost predicate Unreached(h: History, i: nat, pubkey: string, kind: U32, d: string)
    requires i < |h|
  {
    AtAddress(h[i], pubkey, kind, d) && !ReachedLater(h, i)
  }

  /** An address holds exactly one row exactly when its events that nothing later reaches are all of one id. */
  lemma AddressOneRowIff(h: History, pubkey: string, kind: U32, d: string)
    requires IdsFixBodies(h) && CategoryOf(kind) == ParameterizedReplaceable
    ensures HoldsOne(Replay(h), AddressClass(pubkey, ToI32(kind), d)) <==>
      exists i :: 0 <= i < |h| && Unreached(h, i, pubkey, kind, d) &&
        forall k :: 0 <= k < |h| && Unreached(h, k, pubkey, kind, d) ==> h[k].id == h[i].id
  {
    hide CategoryOf, Replay, HoldsOne, IdsFixBodies, LeftBy, Unreached, AddressClass;
    var c := AddressClass(pubkey, ToI32(kind), d);
    forall i | 0 <= i < |h| ensures LeftBy(h, c, i) <==> Unreached(h, i, pubkey, kind, d) {
      AddressLeft(h, i, pubkey, kind, d);
    }
    ClassOneRowIff(h, c);
    forall i | 0 <= i < |h| ensures OnlyIdLeft(h, c, i) <==>
      Unreached(h, i, pubkey, kind, d) && forall k :: 0 <= k < |h| && Unreached(h, k, pubkey, kind, d) ==>
        h[k].id == h[i].id
    {
    }
  }

  lemma AddressLeft(h: History, i: nat, pubkey: string, kind: U32, d: string)
    requires CategoryOf(kind) == ParameterizedReplaceable && i < |h|
    ensures LeftBy(h, AddressClass(pubkey, ToI32(kind), d), i) <==> Unreached(h, i, pubkey, kind, d)
  {
    hide Supersedes, MatchesDPattern;
    if AtAddress(h[i], pubkey, kind, d) {
      forall j | i < j < |h| ensures Supersedes(h[j], ToRow(h[i])) <==>
        && h[j].pubkey == h[i].pubkey && h[j].kind == h[i].kind
        && h[j].createdAt > h[i].createdAt && MatchesDPattern(h[i].tags, DTag(h[j].tags))
      {
        KindDecides(h[j], h[i]);
      }
    }
  }

  /** At an address whose events are all clean, when nothing of the author and kind has the d tag "d", it is as
      for a replaceable key: the last arrival is strictly newer than every event of another id. */
  lemma CleanAddressOneRowIff(h: History, l: nat, pubkey: string, kind: U32, d: string)
    requires IdsFixBodies(h) && CategoryOf(kind) == ParameterizedReplaceable
    requires forall e :: e in h && AtAddress(e, pubkey, kind, d) ==> CleanD(e.tags)
    requires forall e :: e in h && OfKey(e, pubkey, kind) ==> DTag(e.tags) != "d"
    requires l < |h| && AtAddress(h[l], pubkey, kind, d)
    requires forall j :: l < j < |h| ==> !AtAddress(h[j], pubkey, kind, d)
    ensures HoldsOne(Replay(h), AddressClass(pubkey, ToI32(kind), d)) <==>
      forall i :: 0 <= i < |h| && AtAddress(h[i], pubkey, kind, d) && h[i].id != h[l].id ==>
        h[i].createdAt < h[l].createdAt
  {
    hide CategoryOf, Replay, HoldsOne, IdsFixBodies, Ordered, InClass, AtAddress, AddressClass, CleanD;
    CleanOrdered(h, pubkey, kind, d);
    forall e ensures InClass(AddressClass(pubkey, ToI32(kind), d), ToRow(e)) <==> AtAddress(e, pubkey, kind, d) {
      AddressOfEvent(e, pubkey, kind, d);
    }
    OrderedOneRowIff(h, AddressClass(pubkey, ToI32(kind), d), l);
  }

  lemma AddressOfEvent(e: NostrEvent, pubkey: string, kind: U32, d: string)
    ensures InClass(AddressClass(pubkey, ToI32(kind), d), ToRow(e)) <==> AtAddress(e, pubkey, kind, d)
  {
  }

  lemma CleanOrdered(h: History, pubkey: string, kind: U32, d: string)
    requires CategoryOf(kind) == ParameterizedReplaceable
    requires forall e :: e in h && AtAddress(e, pubkey, kind, d) ==> CleanD(e.tags)
    requires forall e :: e in h && OfKey(e, pubkey, kind) ==> DTag(e.tags) != "d"
    ensures Ordered(h, AddressClass(pubkey, ToI32(kind), d))
  {
    hide Supersedes, CategoryOf, InClass, AddressClass, CleanD;
    var c := AddressClass(pubkey, ToI32(kind), d);
    forall a, b | a in h && b in h && InClass(c, ToRow(a))
      ensures !IsEphemeral(a) && (Supersedes(b, ToRow(a)) <==> InClass(c, ToRow(b)) && b.createdAt > a.createdAt)
    {
      AddressOfEvent(a, pubkey, kind, d);
      AddressOfEvent(b, pubkey, kind, d);
      CleanSuperseded(a, b);
    }
  }

  lemma CleanSuperseded(a: NostrEvent, b: NostrEvent)
    requires CategoryOf(a.kind) == ParameterizedReplaceable && CleanD(a.tags)
    requires b.pubkey == a.pubkey && b.kind == a.kind ==> DTag(b.tags) != "d"
    ensures !IsEphemeral(a)
    ensures Supersedes(b, ToRow(a)) <==>
      AtAddress(b, a.pubkey, a.kind, DTag(a.tags)) && b.createdAt > a.createdAt
  {
    hide Supersedes, CleanD, MatchesDPattern;
    KindDecides(b, a);
    ContainmentExactIff(a.tags);
    DPatternMeans(a.tags, DTag(b.tags));
  }

  /** An address that keeps two rows though they arrive in order of time: events with no tags at all have the
      d tag "", which no DELETE reaches. Its newest event is safe all the same. */
  lemma UntaggedAddressDoubled(a: NostrEvent, b: NostrEvent)
    requires CategoryOf(a.kind) == ParameterizedReplaceable && b.kind == a.kind && b.pubkey == a.pubkey
    requires a.tags == [] && b.tags == [] && b.createdAt > a.createdAt && b.id != a.id
    ensures AtAddress(a, a.pubkey, a.kind, "") && AtAddress(b, a.pubkey, a.kind, "")
    ensures AddressSafe([a, b], a.pubkey, a.kind, "")
    ensures Replay([a, b]) == [ToRow(a), ToRow(b)]
  {
    hide JsonContains, MatchesDPattern, Replay;
    var t := [ToRow(a)];
    assert !MatchesDPattern([], "") by {
      DPatternMeans([], "");
      ContainmentIsNotDTag();
    }
    KindDecides(b, a);
    ReplayUnreached(a, b);
  }

  /** Of two stores the second leaves the first alone, if it does not supersede it. */
  lemma ReplayUnreached(a: NostrEvent, b: NostrEvent)
    requires !Supersedes(b, ToRow(a)) && !IsEphemeral(a) && !IsEphemeral(b) && a.id != b.id
    ensures Replay([a, b]) == [ToRow(a), ToRow(b)]
  {
    hide Supersedes;
    var t := [ToRow(a)];
    assert [a, b][..1] == [a] && [a][..0] == [] && Replay([]) == [];
    assert Without([], SupersededIds([], a)) == [] && !HasId([], a.id);
    assert Replay([a]) == t;
    assert SupersededIds(t, b) == {};
    WithoutNone(t);
    assert !HasId(t, b.id);
  }
}
