/** The interleaved workers, address by address (src/storage/postgres.rs, src/worker/mod.rs): where no event
    of another address supersedes rows of an address, no interleaving takes its newest time back, and no
    acknowledged event of it is lost to another address. */
module Addresses {
  import opened Base
  import opened Events
  import opened Table
  import opened Streams
  import opened Histories
  import opened Pipeline
  import PR = PipelineRuns

  /** Only queued events of the class ever supersede rows of the class. */
  ghost predicate QueueConfined(stream: Stream, c: Class) {
    forall a, b :: Queued(stream, a) && Queued(stream, b) && InClass(c, ToRow(a)) && Supersedes(b, ToRow(a))
      ==> InClass(c, ToRow(b))
  }

  /** The event's id is in the table, or a strictly newer row of the class is. */
  ghost predicate SettledIn(t: seq<Row>, c: Class, e: NostrEvent) {
    HasId(t, e.id) || ClassHas(t, c, e.createdAt + 1)
  }

  ghost predicate TaskSettled(t: seq<Row>, stream: Stream, c: Class, k: Task) {
    match k
    case InTx(_, e, Inserted(_, inserts)) => !inserts && InClass(c, ToRow(e)) ==> SettledIn(t, c, e)
    case Acking(todo) => forall e :: AtHand(stream, todo, e) && InClass(c, ToRow(e)) ==> SettledIn(t, c, e)
    case _ => true
  }

  predicate OfClass(stream: Stream, c: Class, n: nat) {
    n < |stream.entries| && stream.entries[n].EventJson? && InClass(c, ToRow(stream.entries[n].event))
  }

  ghost predicate AckedSettledIn(s: Pipe, c: Class) {
    forall n :: n in Acked(s.stream) && OfClass(s.stream, c, n) ==> SettledIn(s.table, c, s.stream.entries[n].event)
  }

  ghost predicate ClassInv(s: Pipe, c: Class) {
    && (forall w :: w in s.tasks ==> TaskSettled(s.table, s.stream, c, s.tasks[w]))
    && AckedSettledIn(s, c)
  }

  /** The newest time of the class is not taken back. */
  ghost predicate TimesKept(t: seq<Row>, u: seq<Row>, c: Class) {
    forall time :: ClassHas(t, c, time) ==> ClassHas(u, c, time)
  }

  // ---- what a commit does to a class ----

  /** `u` is `t` after a commit of `e`, seen by the class. */
  ghost predicate CommittedIn(t: seq<Row>, u: seq<Row>, c: Class, e: NostrEvent) {
    && (forall r :: r in t && r !in u ==> Supersedes(e, r))
    && (InClass(c, ToRow(e)) ==> ClassHas(u, c, e.createdAt))
  }

  lemma NewerNotSuperseded(e: NostrEvent, r: Row)
    requires r.createdAt >= e.createdAt
    ensures !Supersedes(e, r)
  {
    hide JsonContains, CategoryOf;
  }

  /** A row with a queued event's id has its body. */
  lemma QueuedRow(env: Env, s: Pipe, e: NostrEvent, r: Row) returns (d: NostrEvent)
    requires NoCollision(env) && QueueGated(env, s.stream) && TableGated(s)
    requires Queued(s.stream, e) && r in s.table && r.id == e.id
    ensures Queued(s.stream, d) && r == ToRow(d) && SameBody(d, e)
  {
    hide NoCollision, Known;
    d :| Queued(s.stream, d) && r == ToRow(d);
    IdFixesBody(env, d, e);
  }

  /** The class keeps a row as new as an event of it that was settled before its commit. */
  lemma SettledClassHas(env: Env, s: Pipe, u: seq<Row>, c: Class, e: NostrEvent)
    requires NoCollision(env) && QueueGated(env, s.stream) && TableGated(s)
    requires Queued(s.stream, e) && InClass(c, ToRow(e)) && SettledIn(s.table, c, e)
    requires forall r :: r in s.table && r !in u ==> Supersedes(e, r)
    ensures ClassHas(u, c, e.createdAt)
  {
    hide NoCollision, QueueGated, Supersedes, TableGated;
    if r :| r in s.table && r.id == e.id {
      var d := QueuedRow(env, s, e, r);
      NewerNotSuperseded(e, r);
      assert r in u && InClass(c, r);
    } else {
      var r :| r in s.table && InClass(c, r) && r.createdAt >= e.createdAt + 1;
      NewerNotSuperseded(e, r);
      assert r in u;
    }
  }

  /** A commit takes no newest time of the class back. */
  lemma CommitKeepsTimes(s: Pipe, u: seq<Row>, c: Class, e: NostrEvent)
    requires TableGated(s) && QueueConfined(s.stream, c) && Queued(s.stream, e) && CommittedIn(s.table, u, c, e)
    ensures TimesKept(s.table, u, c)
  {
    hide JsonContains, CategoryOf;
    forall time | ClassHas(s.table, c, time) ensures ClassHas(u, c, time) {
      var r :| r in s.table && InClass(c, r) && r.createdAt >= time;
      if r !in u {
        var d :| Queued(s.stream, d) && r == ToRow(d);
        assert InClass(c, ToRow(e));
        var q :| q in u && InClass(c, q) && q.createdAt >= e.createdAt;
        assert q.createdAt >= time;
      }
    }
  }

  /** What was settled in the class stays settled in it. */
  lemma CommitKeepsSettledIn(env: Env, s: Pipe, u: seq<Row>, c: Class, e: NostrEvent, x: NostrEvent)
    requires NoCollision(env) && QueueGated(env, s.stream) && TableGated(s) && QueueConfined(s.stream, c)
    requires Queued(s.stream, e) && CommittedIn(s.table, u, c, e)
    requires Queued(s.stream, x) && InClass(c, ToRow(x)) && SettledIn(s.table, c, x)
    ensures SettledIn(u, c, x)
  {
    hide NoCollision, QueueGated, JsonContains, CategoryOf, ClassHas;
    CommitKeepsTimes(s, u, c, e);
    if r :| r in s.table && r.id == x.id {
      var d := QueuedRow(env, s, x, r);
      if r !in u {
        assert Supersedes(e, ToRow(d)) && InClass(c, ToRow(d)) && InClass(c, ToRow(e));
        LaterTime(u, c, x.createdAt + 1, e.createdAt);
      }
    }
  }

  lemma LaterTime(t: seq<Row>, c: Class, earlier: int, later: int)
    requires ClassHas(t, c, later) && earlier <= later
    ensures ClassHas(t, c, earlier)
  {
  }

  // ---- every step ----

  lemma SameTableStep(s: Pipe, t: Pipe, c: Class)
    requires ClassInv(s, c) && t.table == s.table && s.stream.entries <= t.stream.entries
    requires forall n :: n in Acked(s.stream) ==> n < |s.stream.entries|
    requires forall n :: n in Acked(t.stream) && n !in Acked(s.stream) && OfClass(t.stream, c, n) ==>
      SettledIn(s.table, c, t.stream.entries[n].event)
    requires forall w :: w in t.tasks ==> TaskSettled(t.table, t.stream, c, t.tasks[w])
    ensures ClassInv(t, c) && TimesKept(s.table, t.table, c)
  {
    hide TaskSettled, SettledIn, InClass;
  }

  /** A task that another worker's step leaves alone. */
  lemma TaskStays(env: Env, t: seq<Row>, stream: Stream, stream': Stream, c: Class, k: Task)
    requires TaskSettled(t, stream, c, k) && TaskOk(t, stream, k) && stream.entries <= stream'.entries
    ensures TaskSettled(t, stream', c, k)
  {
    hide SettledIn, InClass, Settled;
  }

  lemma InvOf(env: Env, s: Pipe)
    requires Inv(env, s)
    ensures QueueGated(env, s.stream) && TableGated(s)
    ensures forall w :: w in s.tasks ==> TaskOk(s.table, s.stream, s.tasks[w])
    ensures forall n :: n in Acked(s.stream) ==> n < |s.stream.entries| && s.stream.entries[n].EventJson?
  {
    hide TaskOk, QueueGated, TableGated, Settled;
  }

  /** The steps that commit. */
  lemma CommitStepIn(env: Env, s: Pipe, t: Pipe, w: nat, c: Class, e: NostrEvent)
    requires NoCollision(env) && Inv(env, s) && ClassInv(s, c) && QueueConfined(s.stream, c) && Queued(s.stream, e)
    requires CommittedIn(s.table, t.table, c, e) && t.stream == s.stream && w in t.tasks
    requires TaskSettled(t.table, t.stream, c, t.tasks[w])
    requires forall v :: v in t.tasks && v != w ==> v in s.tasks && SameClaim(s.tasks[v], t.tasks[v])
    ensures ClassInv(t, c) && TimesKept(s.table, t.table, c)
  {
    hide NoCollision, QueueConfined, CommittedIn, SettledIn, InClass, Inv, QueueGated, TableGated;
    InvOf(env, s);
    CommitKeepsTimes(s, t.table, c, e);
    forall v | v in t.tasks ensures TaskSettled(t.table, t.stream, c, t.tasks[v]) {
      if v != w {
        TaskAfterCommit(env, s, t.table, v, c, e);
        SameClaimSettled(t.table, t.stream, c, s.tasks[v], t.tasks[v]);
      }
    }
    forall n | n in Acked(t.stream) && OfClass(t.stream, c, n)
      ensures SettledIn(t.table, c, t.stream.entries[n].event)
    {
      assert Queued(s.stream, s.stream.entries[n].event);
      CommitKeepsSettledIn(env, s, t.table, c, e, s.stream.entries[n].event);
    }
  }

  /** Alike but for what a snapshot sees. */
  ghost predicate SameClaim(k: Task, k': Task) {
    k == k' || exists gone :: k' == Blind(k, gone)
  }

  lemma SameClaimSettled(t: seq<Row>, stream: Stream, c: Class, k: Task, k': Task)
    requires SameClaim(k, k') && TaskSettled(t, stream, c, k)
    ensures TaskSettled(t, stream, c, k')
  {
    hide SettledIn, InClass;
  }

  lemma TaskAfterCommit(env: Env, s: Pipe, u: seq<Row>, v: nat, c: Class, e: NostrEvent)
    requires NoCollision(env) && QueueGated(env, s.stream) && TableGated(s) && QueueConfined(s.stream, c)
    requires Queued(s.stream, e) && CommittedIn(s.table, u, c, e)
    requires v in s.tasks && TaskSettled(s.table, s.stream, c, s.tasks[v]) && TaskOk(s.table, s.stream, s.tasks[v])
    ensures TaskSettled(u, s.stream, c, s.tasks[v])
  {
    hide NoCollision, QueueConfined, CommittedIn, SettledIn, InClass, QueueGated, TableGated, Settled, DelsSuperseded;
    match s.tasks[v]
    case InTx(todo, x, Inserted(_, inserts)) =>
      assert Queued(s.stream, x);
      if !inserts && InClass(c, ToRow(x)) {
        CommitKeepsSettledIn(env, s, u, c, e, x);
      }
    case Acking(todo) =>
      forall x | AtHand(s.stream, todo, x) && InClass(c, ToRow(x)) ensures SettledIn(u, c, x) {
        assert Queued(s.stream, x);
        CommitKeepsSettledIn(env, s, u, c, e, x);
      }
    case _ =>
  }

  lemma CommitAction(env: Env, s: Pipe, c: Class, a: Action)
    requires NoCollision(env) && Inv(env, s) && ClassInv(s, c) && QueueConfined(s.stream, c)
    requires a.Commit? && Enabled(env, s, a)
    ensures ClassInv(Apply(env, s, a), c) && TimesKept(s.table, Apply(env, s, a).table, c)
  {
    hide NoCollision, QueueConfined, QueueGated, TableGated, ClassHas, InClass, Supersedes, Conserved, LocksApart,
      AckedSettled, Settled;
    var w, k := a.w, s.tasks[a.w];
    assert TaskOk(s.table, s.stream, k) && TaskSettled(s.table, s.stream, c, k);
    var e := k.event;
    assert Queued(s.stream, e);
    var t := Apply(env, s, a);
    CommitSeen(env, s, c, w, t.table);
    CommitStepIn(env, s, t, w, c, e);
  }

  /** What the commit of a transaction means for the class. */
  lemma CommitSeen(env: Env, s: Pipe, c: Class, w: nat, u: seq<Row>)
    requires NoCollision(env) && Inv(env, s) && w in s.tasks && s.tasks[w].InTx? && s.tasks[w].tx.Inserted?
    requires TaskSettled(s.table, s.stream, c, s.tasks[w])
    requires u == CommitTable(s.table, s.tasks[w].event, s.tasks[w].tx.dels, s.tasks[w].tx.inserts)
    ensures CommittedIn(s.table, u, c, s.tasks[w].event)
    ensures InClass(c, ToRow(s.tasks[w].event)) ==> SettledIn(u, c, s.tasks[w].event)
  {
    hide NoCollision, QueueConfined, QueueGated, ClassHas, InClass, Supersedes, Conserved, LocksApart, AckedSettled,
      Settled;
    var k := s.tasks[w];
    assert TaskOk(s.table, s.stream, k);
    var e := k.event;
    assert Queued(s.stream, e);
    CommitTableMeans(s.table, e, k.tx.dels, k.tx.inserts);
    if InClass(c, ToRow(e)) {
      if k.tx.inserts {
        assert ToRow(e) in u;
        RowServes(u, c, e);
      } else {
        SettledClassHas(env, s, u, c, e);
        OwnSettled(env, s, u, c, e);
      }
    }
  }

  lemma RowServes(u: seq<Row>, c: Class, e: NostrEvent)
    requires ToRow(e) in u && InClass(c, ToRow(e))
    ensures ClassHas(u, c, e.createdAt) && SettledIn(u, c, e)
  {
  }

  /** A commit does not unsettle its own event. */
  lemma OwnSettled(env: Env, s: Pipe, u: seq<Row>, c: Class, e: NostrEvent)
    requires NoCollision(env) && QueueGated(env, s.stream) && TableGated(s) && Queued(s.stream, e)
    requires InClass(c, ToRow(e)) && SettledIn(s.table, c, e)
    requires forall r :: r in s.table && r !in u ==> Supersedes(e, r)
    ensures SettledIn(u, c, e)
  {
    hide NoCollision, QueueGated, Supersedes, TableGated;
    if r :| r in s.table && r.id == e.id {
      var d := QueuedRow(env, s, e, r);
      NewerNotSuperseded(e, r);
      assert r in u;
    } else {
      var r :| r in s.table && InClass(c, r) && r.createdAt >= e.createdAt + 1;
      NewerNotSuperseded(e, r);
      assert r in u;
    }
  }

  lemma RegularAction(env: Env, s: Pipe, c: Class, a: Action)
    requires NoCollision(env) && Inv(env, s) && ClassInv(s, c) && QueueConfined(s.stream, c)
    requires a.StoreRegular? && Enabled(env, s, a)
    ensures ClassInv(Apply(env, s, a), c) && TimesKept(s.table, Apply(env, s, a).table, c)
  {
    hide NoCollision, QueueConfined, QueueGated, TableGated, ClassHas, InClass, Supersedes, Conserved, LocksApart,
      AckedSettled, Settled, InsertRow;
    var w, k := a.w, s.tasks[a.w];
    var e := Head(s, k).value;
    assert Queued(s.stream, e);
    var t := Apply(env, s, a);
    InsertSeen(env, s, c, e, t.table);
    CommitStepIn(env, s, t, w, c, e);
  }

  lemma InsertSeen(env: Env, s: Pipe, c: Class, e: NostrEvent, u: seq<Row>)
    requires NoCollision(env) && Inv(env, s) && Queued(s.stream, e) && u == InsertRow(s.table, ToRow(e))
    ensures CommittedIn(s.table, u, c, e) && (InClass(c, ToRow(e)) ==> SettledIn(u, c, e))
  {
    hide NoCollision, QueueGated, Supersedes, Conserved, LocksApart, AckedSettled, Settled, TaskOk;
    InsertMeans(s.table, ToRow(e));
    if r :| r in s.table && r.id == e.id {
      var d := QueuedRow(env, s, e, r);
      assert r in u;
    } else {
      assert ToRow(e) in u;
    }
  }

  /** What a step that commits nothing leaves a worker with. */
  lemma TaskAfterOther(env: Env, s: Pipe, c: Class, a: Action, w: nat)
    requires Inv(env, s) && ClassInv(s, c) && Enabled(env, s, a) && !a.Commit? && !a.StoreRegular?
    requires w in Apply(env, s, a).tasks
    ensures TaskSettled(s.table, Apply(env, s, a).stream, c, Apply(env, s, a).tasks[w])
  {
    hide QueueGated, TableGated, ClassHas, InClass, Supersedes, Conserved, LocksApart, AckedSettled, Settled, Known,
      Targets, FreeFor, AckedSettledIn, Xack, CategoryOf, CreateGroup;
    if w in s.tasks {
      assert TaskOk(s.table, s.stream, s.tasks[w]);
      HeadGated(env, s, w);
      if a == Insert(w) {
        WithoutMeans(s.table, s.tasks[w].tx.dels);
      } else if !(a.Insert? && a.w == w) && Apply(env, s, a).tasks[w] == s.tasks[w] {
        EntriesGrow(env, s, a);
        TaskStays(env, s.table, s.stream, Apply(env, s, a).stream, c, s.tasks[w]);
      }
    }
  }

  lemma EntriesGrow(env: Env, s: Pipe, a: Action)
    requires Enabled(env, s, a)
    ensures s.stream.entries <= Apply(env, s, a).stream.entries
  {
    hide Targets, CommitTable, InsertRow, HasId, FreeFor, Known, Head, HeadIs, Batch, Span;
  }

  /** The entry that an XACK acks is settled in its class. */
  lemma AckedByOther(env: Env, s: Pipe, c: Class, a: Action, n: nat)
    requires Inv(env, s) && ClassInv(s, c) && Enabled(env, s, a)
    requires n in Acked(Apply(env, s, a).stream) && n !in Acked(s.stream) && OfClass(Apply(env, s, a).stream, c, n)
    ensures SettledIn(s.table, c, Apply(env, s, a).stream.entries[n].event)
  {
    hide QueueGated, TableGated, ClassHas, InClass, Supersedes, Conserved, LocksApart, AckedSettled, Settled, Known,
      Targets, FreeFor, AckedSettledIn, CommitTable, InsertRow, Head, HeadIs, Batch, Span;
    if a.Ack? {
      assert TaskOk(s.table, s.stream, s.tasks[a.w]) && TaskSettled(s.table, s.stream, c, s.tasks[a.w]);
      assert AtHand(s.stream, s.tasks[a.w].todo, s.stream.entries[n].event);
    }
  }

  /** Every step of every worker keeps the newest time of a class that the queue is confined to. */
  lemma StepKeepsClass(env: Env, s: Pipe, a: Action, c: Class)
    requires NoCollision(env) && Inv(env, s) && Enabled(env, s, a) && ClassInv(s, c) && QueueConfined(s.stream, c)
    ensures ClassInv(Apply(env, s, a), c) && TimesKept(s.table, Apply(env, s, a).table, c)
  {
    hide NoCollision, Inv, ClassInv, QueueConfined, TaskSettled, SettledIn, TimesKept, OfClass;
    if a.Commit? {
      CommitAction(env, s, c, a);
    } else if a.StoreRegular? {
      RegularAction(env, s, c, a);
    } else {
      OtherAction(env, s, a, c);
    }
  }

  lemma OtherAction(env: Env, s: Pipe, a: Action, c: Class)
    requires Inv(env, s) && Enabled(env, s, a) && ClassInv(s, c) && !a.Commit? && !a.StoreRegular?
    ensures ClassInv(Apply(env, s, a), c) && TimesKept(s.table, Apply(env, s, a).table, c)
  {
    hide Inv, ClassInv, TaskSettled, SettledIn, TimesKept, Enabled;
    var t := Apply(env, s, a);
    InvOf(env, s);
    EntriesGrow(env, s, a);
    forall w | w in t.tasks ensures TaskSettled(t.table, t.stream, c, t.tasks[w]) {
      SameTable(env, s, a);
      TaskAfterOther(env, s, c, a, w);
    }
    forall n | n in Acked(t.stream) && n !in Acked(s.stream) && OfClass(t.stream, c, n)
      ensures SettledIn(s.table, c, t.stream.entries[n].event)
    {
      AckedByOther(env, s, c, a, n);
    }
    SameTable(env, s, a);
    SameTableStep(s, t, c);
  }

  lemma SameTable(env: Env, s: Pipe, a: Action)
    requires Enabled(env, s, a) && !a.Commit? && !a.StoreRegular?
    ensures Apply(env, s, a).table == s.table
  {
    hide Targets, CommitTable, InsertRow, HasId, FreeFor, Known, Head, HeadIs, Batch, Span;
  }

  // ---- every run ----

  lemma ConfinedBefore(stream: Stream, stream': Stream, c: Class)
    requires stream.entries <= stream'.entries && QueueConfined(stream', c)
    ensures QueueConfined(stream, c)
  {
    hide InClass, Supersedes;
    assert forall e :: Queued(stream, e) ==> Queued(stream', e);
  }

  /** Over any run, however its transactions interleave, the newest time of the class never decreases. */
  lemma {:induction false} RunKeepsClass(env: Env, s: Pipe, acts: seq<Action>, t: Pipe, c: Class)
    requires NoCollision(env) && Inv(env, s) && PR.Runs(env, s, acts, t) && ClassInv(s, c) && QueueConfined(t.stream, c)
    ensures ClassInv(t, c) && TimesKept(s.table, t.table, c)
    decreases |acts|
  {
    hide NoCollision, Inv, ClassInv, QueueConfined, Enabled, Apply, ClassHas;
    if acts == [] {
    } else {
      var m := Apply(env, s, acts[0]);
      PR.RunKeepsInv(env, s, acts, t);
      ConfinedBefore(s.stream, t.stream, c);
      StepKeepsInv(env, s, acts[0]);
      StepKeepsClass(env, s, acts[0], c);
      RunKeepsClass(env, m, acts[1..], t, c);
    }
  }

  // ---- addresses ----

  /** No queued event has, beside a newer one of its author and kind at another address, a tag that mentions
      "d" and that address. */
  ghost predicate TagsApart(stream: Stream, pubkey: string, kind: U32, d: string) {
    forall a, b :: (Queued(stream, a) && Queued(stream, b) && OfKey(a, pubkey, kind) && DTag(a.tags) == d
                    && OfKey(b, pubkey, kind) && b.createdAt > a.createdAt && MatchesDPattern(a.tags, DTag(b.tags)))
      ==> DTag(b.tags) == d
  }

  lemma TagsApartConfined(stream: Stream, pubkey: string, kind: U32, d: string)
    requires CategoryOf(kind) == ParameterizedReplaceable
    ensures TagsApart(stream, pubkey, kind, d) <==> QueueConfined(stream, AddressClass(pubkey, ToI32(kind), d))
  {
    hide JsonContains, CategoryOf, MatchesDPattern;
    forall a, b ensures Supersedes(b, ToRow(a)) && a.kind == kind <==>
      && a.kind == kind && b.pubkey == a.pubkey && b.kind == kind && b.createdAt > a.createdAt
      && MatchesDPattern(a.tags, DTag(b.tags))
    {
      KindDecides(b, a);
      DPatternMeans(a.tags, DTag(b.tags));
    }
  }
}
