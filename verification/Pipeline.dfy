/** The write pipeline as a machine of interleaved steps: the stream, the table, and any number
    of workers whose DELETE, INSERT and COMMIT interleave under READ COMMITTED
    (src/worker/mod.rs, src/storage/postgres.rs, src/storage/redis.rs). */
module Pipeline {
  import opened Base
  import opened Events
  import opened Table
  import opened Streams

  const BATCH_SIZE := 50

  /** A transaction: its DELETE has a snapshot, or has locked the rows it deletes, or its INSERT is
      done too (`inserts` when it claims the id, not when the id was there). */
  datatype Tx =
    | Scanning(visible: set<string>)
    | Deleted(dels: set<string>)
    | Inserted(dels: set<string>, inserts: bool)

  /** Where a worker stands in its loop; `todo[0]` is the entry at hand. */
  datatype Task =
    | Reading
    | Next(todo: seq<nat>)
    | InTx(todo: seq<nat>, event: NostrEvent, tx: Tx)
    | Acking(todo: seq<nat>)

  datatype Pipe = Pipe(table: seq<Row>, stream: Stream, tasks: map<nat, Task>)

  const EMPTY_PIPE := Pipe([], EMPTY_STREAM, map[])

  datatype Action =
    | Start(w: nat)
    | Enqueue(e: NostrEvent)
    | ForeignAdd(p: Payload)
    | EnsureGroup
    | Read(w: nat, reported: bool)
    | Skip(w: nat)
    | PassEphemeral(w: nat)
    | StoreRegular(w: nat, reported: bool)
    | Begin(w: nat)
    | Delete(w: nat)
    | Insert(w: nat)
    | Commit(w: nat, reported: bool)
    | Fail(w: nat)
    | Ack(w: nat, applied: bool)
    | Crash(w: nat)

  // ---- locks ----

  /** Row ids a worker's open transaction has locked for deletion. */
  function Dels(k: Task): set<string> {
    match k
    case InTx(_, _, Deleted(d)) => d
    case InTx(_, _, Inserted(d, _)) => d
    case _ => {}
  }

  /** The id a worker's open transaction has inserted but not committed. */
  function Claim(k: Task): Option<string> {
    match k
    case InTx(_, e, Inserted(_, true)) => Some(e.id)
    case _ => None
  }

  predicate Holds(k: Task, id: string) {
    id in Dels(k) || Claim(k) == Some(id)
  }

  predicate FreeFor(s: Pipe, w: nat, id: string) {
    forall v :: v in s.tasks && v != w ==> !Holds(s.tasks[v], id)
  }

  // ---- steps ----

  function AfterHead(todo: seq<nat>): Task {
    if |todo| <= 1 then Reading else Next(todo[1..])
  }

  function ReadTask(batch: seq<nat>): Task {
    if batch == [] then Reading else Next(batch)
  }

  /** The event at hand, when the entry at hand parses. */
  function Head(s: Pipe, k: Task): Option<NostrEvent> {
    if k.Next? && k.todo != [] && k.todo[0] < |s.stream.entries| && s.stream.entries[k.todo[0]].EventJson?
    then Some(s.stream.entries[k.todo[0]].event) else None
  }

  predicate HeadIs(s: Pipe, w: nat, c: Category) {
    w in s.tasks && Head(s, s.tasks[w]).Some? && CategoryOf(Head(s, s.tasks[w]).value.kind) == c
  }

  predicate TxAt(s: Pipe, w: nat) {
    w in s.tasks && s.tasks[w].InTx?
  }

  /** The rows the DELETE takes: superseded, committed, and in the statement's snapshot. */
  function Targets(s: Pipe, k: Task): set<string>
    requires k.InTx? && k.tx.Scanning?
  {
    SupersededIds(s.table, k.event) * k.tx.visible
  }

  predicate Enabled(env: Env, s: Pipe, a: Action) {
    match a
    case Start(w) => w !in s.tasks
    case Enqueue(e) => Known(env, e) && !IsEphemeral(e)
    case ForeignAdd(p) => !p.EventJson?
    case EnsureGroup => true
    case Read(w, _) => w in s.tasks && s.tasks[w].Reading? && s.stream.group.Some?
    case Skip(w) => w in s.tasks && s.tasks[w].Next? && Head(s, s.tasks[w]).None?
    case PassEphemeral(w) => HeadIs(s, w, Ephemeral)
    case StoreRegular(w, _) => HeadIs(s, w, Regular) && FreeFor(s, w, Head(s, s.tasks[w]).value.id)
    case Begin(w) => HeadIs(s, w, Replaceable) || HeadIs(s, w, ParameterizedReplaceable)
    case Delete(w) =>
      TxAt(s, w) && s.tasks[w].tx.Scanning? &&
      forall id :: id in Targets(s, s.tasks[w]) ==> FreeFor(s, w, id)
    case Insert(w) => TxAt(s, w) && s.tasks[w].tx.Deleted? && FreeFor(s, w, s.tasks[w].event.id)
    case Commit(w, _) => TxAt(s, w) && s.tasks[w].tx.Inserted?
    case Fail(w) => w in s.tasks && (s.tasks[w].Next? || s.tasks[w].InTx?)
    case Ack(w, _) => w in s.tasks && s.tasks[w].Acking?
    case Crash(w) => w in s.tasks
  }

  function CommitTable(t: seq<Row>, e: NostrEvent, dels: set<string>, inserts: bool): seq<Row> {
    Without(t, dels) + (if inserts then [ToRow(e)] else [])
  }

  function SetTask(s: Pipe, w: nat, k: Task): Pipe {
    s.(tasks := s.tasks[w := k])
  }

  /** A deleted tuple is gone for good: a row inserted later under its id is in no earlier snapshot. */
  function Blind(k: Task, gone: set<string>): Task {
    match k
    case InTx(todo, e, Scanning(visible)) => InTx(todo, e, Scanning(visible - gone))
    case _ => k
  }

  function Unsee(tasks: map<nat, Task>, gone: set<string>): map<nat, Task> {
    map w | w in tasks :: Blind(tasks[w], gone)
  }

  /** A store whose reply came back goes on to the XACK; otherwise the entry is left pending. */
  function Stored(todo: seq<nat>, reported: bool): Task {
    if reported then Acking(todo) else AfterHead(todo)
  }

  function Apply(env: Env, s: Pipe, a: Action): Pipe
    requires Enabled(env, s, a)
  {
    match a
    case Start(w) => SetTask(s, w, Reading)
    case Enqueue(e) => s.(stream := Xadd(s.stream, EventJson(e)))
    case ForeignAdd(p) => s.(stream := Xadd(s.stream, p))
    case EnsureGroup => s.(stream := CreateGroup(s.stream))
    case Read(w, reported) =>
      var batch := Batch(s.stream.entries, s.stream.group.value.next, BatchEnd(s.stream, BATCH_SIZE));
      SetTask(s, w, if reported then ReadTask(batch) else Reading).(stream := ReadGroup(s.stream, BATCH_SIZE))
    case Skip(w) => SetTask(s, w, AfterHead(s.tasks[w].todo))
    case PassEphemeral(w) => SetTask(s, w, Acking(s.tasks[w].todo))
    case StoreRegular(w, reported) =>
      var e := Head(s, s.tasks[w]).value;
      SetTask(s, w, Stored(s.tasks[w].todo, reported)).(table := InsertRow(s.table, ToRow(e)))
    case Begin(w) =>
      var visible := set r | r in s.table :: r.id;
      SetTask(s, w, InTx(s.tasks[w].todo, Head(s, s.tasks[w]).value, Scanning(visible)))
    case Delete(w) => SetTask(s, w, s.tasks[w].(tx := Deleted(Targets(s, s.tasks[w]))))
    case Insert(w) =>
      var k := s.tasks[w];
      SetTask(s, w, k.(tx := Inserted(k.tx.dels, !HasId(Without(s.table, k.tx.dels), k.event.id))))
    case Commit(w, reported) =>
      var k := s.tasks[w];
      SetTask(s.(tasks := Unsee(s.tasks, k.tx.dels)), w, Stored(k.todo, reported)).(
        table := CommitTable(s.table, k.event, k.tx.dels, k.tx.inserts))
    case Fail(w) => SetTask(s, w, AfterHead(s.tasks[w].todo))
    case Ack(w, applied) =>
      var k := s.tasks[w];
      SetTask(s, w, AfterHead(k.todo)).(stream :=
        if applied && k.todo != [] then Xack(s.stream, k.todo[0]) else s.stream)
    case Crash(w) => SetTask(s, w, Reading)
  }

  // ---- what every step keeps ----

  ghost predicate Queued(stream: Stream, e: NostrEvent) {
    EventJson(e) in stream.entries
  }

  /** Every queued event passed the gate and is not ephemeral. */
  ghost predicate QueueGated(env: Env, stream: Stream) {
    forall e :: Queued(stream, e) ==> Known(env, e) && !IsEphemeral(e)
  }

  /** The primary key holds and every row is a queued event's. */
  ghost predicate TableGated(s: Pipe) {
    && UniqueIds(s.table)
    && forall r :: r in s.table ==> exists e :: Queued(s.stream, e) && r == ToRow(e)
  }

  /** A queued event supersedes this one, and a strictly newer row of its author and kind is there. */
  ghost predicate Displaced(t: seq<Row>, stream: Stream, e: NostrEvent) {
    && (exists c :: Queued(stream, c) && Supersedes(c, ToRow(e)))
    && AtLeast(t, e.pubkey, ToI32(e.kind), e.createdAt + 1)
  }

  /** The event's id is in the table, or the event is displaced. */
  ghost predicate Settled(t: seq<Row>, stream: Stream, e: NostrEvent) {
    HasId(t, e.id) || Displaced(t, stream, e)
  }

  lemma SettledGrows(t: seq<Row>, stream: Stream, stream': Stream, e: NostrEvent)
    requires Settled(t, stream, e) && stream.entries <= stream'.entries
    ensures Settled(t, stream', e)
  {
    hide Supersedes;
    assert forall c :: Queued(stream, c) ==> Queued(stream', c);
  }

  predicate AtHand(stream: Stream, todo: seq<nat>, e: NostrEvent) {
    todo != [] && todo[0] < |stream.entries| && stream.entries[todo[0]] == EventJson(e)
  }

  ghost predicate DelsSuperseded(t: seq<Row>, e: NostrEvent, dels: set<string>) {
    forall r :: r in t && r.id in dels ==> Supersedes(e, r)
  }

  ghost predicate TaskOk(t: seq<Row>, stream: Stream, k: Task) {
    match k
    case Reading => true
    case Next(todo) => todo != []
    case InTx(todo, e, tx) =>
      && AtHand(stream, todo, e)
      && (CategoryOf(e.kind) == Replaceable || CategoryOf(e.kind) == ParameterizedReplaceable)
      && DelsSuperseded(t, e, Dels(k))
      && (tx.Inserted? && tx.inserts ==> !HasId(t, e.id))
      && (tx.Inserted? && !tx.inserts ==> Settled(t, stream, e))
    case Acking(todo) => exists e :: AtHand(stream, todo, e) && Settled(t, stream, e)
  }

  /** No two open transactions hold the same id. */
  ghost predicate LocksApart(tasks: map<nat, Task>) {
    forall v, w, id :: v in tasks && w in tasks && v != w && Holds(tasks[v], id) ==> !Holds(tasks[w], id)
  }

  /** Only parsed events are ever acked, and each of them is settled. */
  ghost predicate AckedSettled(s: Pipe) {
    forall n :: n in Acked(s.stream) ==>
      n < |s.stream.entries| && s.stream.entries[n].EventJson? && Settled(s.table, s.stream, s.stream.entries[n].event)
  }

  ghost predicate Inv(env: Env, s: Pipe) {
    && Conserved(s.stream)
    && QueueGated(env, s.stream)
    && TableGated(s)
    && (forall w :: w in s.tasks ==> TaskOk(s.table, s.stream, s.tasks[w]))
    && LocksApart(s.tasks)
    && AckedSettled(s)
  }

  /** Every row of `t` that is gone in `u` is superseded by a queued event. */
  ghost predicate OnlySuperseded(t: seq<Row>, u: seq<Row>, stream: Stream) {
    forall r :: r in t && r !in u ==> exists c :: Queued(stream, c) && Supersedes(c, r)
  }

  // ---- what a commit does to the table ----

  /** `u` is `t` after a commit of `e`: what is gone is superseded, and the key is at least as new as `e`. */
  ghost predicate Committed(t: seq<Row>, u: seq<Row>, stream: Stream, e: NostrEvent) {
    && UniqueIds(u)
    && (forall r :: r in t && r !in u ==> Supersedes(e, r))
    && (forall r :: r in u ==> r in t || (r == ToRow(e) && !HasId(t, e.id)))
    && AtLeast(u, e.pubkey, ToI32(e.kind), e.createdAt)
    && Settled(u, stream, e)
  }

  lemma CommitTableMeans(t: seq<Row>, e: NostrEvent, dels: set<string>, inserts: bool)
    requires UniqueIds(t)
    ensures forall r :: r in CommitTable(t, e, dels, inserts) <==>
      (r in t && r.id !in dels) || (inserts && r == ToRow(e))
    ensures !HasId(t, e.id) || !inserts ==> UniqueIds(CommitTable(t, e, dels, inserts))
  {
    WithoutMeans(t, dels);
    var d := Without(t, dels);
    if inserts && !HasId(t, e.id) {
      assert forall i :: 0 <= i < |d| ==> d[i] in t && d[i].id != e.id;
    }
  }

  /** A transaction that reaches its commit leaves the key at least as new as its event. */
  lemma CommitCommits(t: seq<Row>, stream: Stream, e: NostrEvent, dels: set<string>, inserts: bool)
    requires UniqueIds(t) && CategoryOf(e.kind) != Regular && DelsSuperseded(t, e, dels)
    requires inserts ==> !HasId(t, e.id)
    requires !inserts ==> Settled(t, stream, e)
    requires forall r :: r in t && r.id == e.id ==> HasBodyOf(r, e)
    ensures Committed(t, CommitTable(t, e, dels, inserts), stream, e)
  {
    CommitTableMeans(t, e, dels, inserts);
    var u := CommitTable(t, e, dels, inserts);
    if inserts {
      assert ToRow(e) in u;
    } else if r :| r in t && r.id == e.id {
      assert r in u;
    } else {
      var q :| q in t && q.pubkey == e.pubkey && q.kind == ToI32(e.kind) && q.createdAt >= e.createdAt + 1;
      assert q in u;
    }
  }

  /** So does the autocommitted INSERT of a regular event. */
  lemma InsertCommits(t: seq<Row>, stream: Stream, e: NostrEvent)
    requires UniqueIds(t)
    requires forall r :: r in t && r.id == e.id ==> HasBodyOf(r, e)
    ensures Committed(t, InsertRow(t, ToRow(e)), stream, e)
  {
    InsertMeans(t, ToRow(e));
    if r :| r in t && r.id == e.id {
      assert r in InsertRow(t, ToRow(e));
    } else {
      assert ToRow(e) in InsertRow(t, ToRow(e));
    }
  }

  /** No commit takes the newest time of any author and kind back. */
  lemma CommitKeepsNewest(t: seq<Row>, u: seq<Row>, stream: Stream, e: NostrEvent)
    requires Committed(t, u, stream, e)
    ensures NewestKept(t, u)
  {
    DeletingKeepsNewest(t, u, e);
  }

  lemma KindColumnInjective(a: U32, b: U32)
    ensures ToI32(a) == ToI32(b) <==> a == b
  {
  }

  /** What was settled before a commit is settled after it. */
  lemma CommitKeepsSettled(t: seq<Row>, u: seq<Row>, stream: Stream, c: NostrEvent, e: NostrEvent)
    requires Committed(t, u, stream, c) && Queued(stream, c) && Settled(t, stream, e)
    requires forall r :: r in t && r.id == e.id ==> HasBodyOf(r, e)
    ensures Settled(u, stream, e)
  {
    CommitKeepsNewest(t, u, stream, c);
    KindColumnInjective(c.kind, e.kind);
    if r :| r in t && r.id == e.id {
      if r in u {
      } else {
        assert Supersedes(c, r);
        var q :| q in u && q.pubkey == c.pubkey && q.kind == ToI32(c.kind) && q.createdAt >= c.createdAt;
        assert AtLeast(u, e.pubkey, ToI32(e.kind), e.createdAt + 1) && Supersedes(c, ToRow(e));
      }
    }
  }

  ghost predicate HasBodyOf(r: Row, e: NostrEvent) {
    r.pubkey == e.pubkey && r.kind == ToI32(e.kind) && r.createdAt == e.createdAt && r.tags == e.tags
  }

  // ---- every step keeps the invariant ----

  /** A row with a queued event's id is that event's, by collision freedom. */
  lemma RowOfQueued(env: Env, s: Pipe, e: NostrEvent, r: Row)
    requires NoCollision(env) && QueueGated(env, s.stream) && TableGated(s)
    requires Queued(s.stream, e) && r in s.table && r.id == e.id
    ensures HasBodyOf(r, e)
  {
    var d :| Queued(s.stream, d) && r == ToRow(d);
    IdFixesBody(env, d, e);
  }

  lemma SetTaskKeepsLocks(s: Pipe, w: nat, k: Task)
    requires LocksApart(s.tasks)
    requires forall id :: Holds(k, id) ==> FreeFor(s, w, id)
    ensures LocksApart(SetTask(s, w, k).tasks)
  {
  }

  /** Steps that leave the table and the entries alone. */
  lemma QuietStep(env: Env, s: Pipe, w: nat, k: Task, stream: Stream)
    requires Inv(env, s) && TaskOk(s.table, s.stream, k)
    requires forall id :: Holds(k, id) ==> FreeFor(s, w, id)
    requires Conserved(stream) && stream.entries == s.stream.entries
    requires forall n :: n in Acked(stream) && n !in Acked(s.stream) ==>
      n < |s.stream.entries| && s.stream.entries[n].EventJson? && Settled(s.table, s.stream, s.stream.entries[n].event)
    ensures Inv(env, SetTask(s, w, k).(stream := stream))
  {
    SetTaskKeepsLocks(s, w, k);
    var s' := SetTask(s, w, k).(stream := stream);
    assert TableGated(s') by {
      assert forall e :: Queued(s'.stream, e) <==> Queued(s.stream, e);
    }
    forall v | v in s'.tasks ensures TaskOk(s'.table, stream, s'.tasks[v]) {
      SameEntriesTaskOk(s.table, s.stream, stream, s'.tasks[v]);
    }
  }

  lemma SameEntriesTaskOk(t: seq<Row>, stream: Stream, stream': Stream, k: Task)
    requires TaskOk(t, stream, k) && stream.entries <= stream'.entries
    ensures TaskOk(t, stream', k)
  {
    if k.Acking? {
      var e :| AtHand(stream, k.todo, e) && Settled(t, stream, e);
      assert AtHand(stream', k.todo, e);
    }
  }

  /** Steps that append an entry. */
  lemma AppendStep(env: Env, s: Pipe, p: Payload)
    requires Inv(env, s)
    requires p.EventJson? ==> Known(env, p.event) && !IsEphemeral(p.event)
    ensures Inv(env, s.(stream := Xadd(s.stream, p)))
  {
    AddConserves(s.stream, p);
    var s' := s.(stream := Xadd(s.stream, p));
    assert forall e :: Queued(s'.stream, e) <==> Queued(s.stream, e) || p == EventJson(e);
    forall v | v in s'.tasks ensures TaskOk(s'.table, s'.stream, s'.tasks[v]) {
      SameEntriesTaskOk(s.table, s.stream, s'.stream, s.tasks[v]);
    }
  }

  /** What a commit means to another worker. */
  lemma CommitKeepsTask(env: Env, s: Pipe, w: nat, v: nat, u: seq<Row>, c: NostrEvent)
    requires NoCollision(env) && Inv(env, s) && v in s.tasks && v != w
    requires Committed(s.table, u, s.stream, c) && Queued(s.stream, c)
    requires ToRow(c) in u && ToRow(c) !in s.table ==> FreeFor(s, w, c.id)
    ensures TaskOk(u, s.stream, s.tasks[v])
  {
    hide NoCollision, QueueGated, TableGated, Conserved, LocksApart, AckedSettled, Supersedes, Settled, AtLeast;
    match s.tasks[v]
    case Reading =>
    case Next(_) =>
    case InTx(todo, e, tx) =>
      assert Queued(s.stream, e);
      if tx.Inserted? && !tx.inserts {
        CommitKeepsSettledQueued(env, s, u, c, e);
      }
    case Acking(todo) =>
      var e :| AtHand(s.stream, todo, e) && Settled(s.table, s.stream, e);
      CommitKeepsSettledQueued(env, s, u, c, e);
  }

  lemma CommitKeepsSettledQueued(env: Env, s: Pipe, u: seq<Row>, c: NostrEvent, e: NostrEvent)
    requires NoCollision(env) && QueueGated(env, s.stream) && TableGated(s)
    requires Committed(s.table, u, s.stream, c) && Settled(s.table, s.stream, e)
    requires Queued(s.stream, c) && Queued(s.stream, e)
    ensures Settled(u, s.stream, e)
  {
    forall r | r in s.table && r.id == e.id ensures HasBodyOf(r, e) {
      RowOfQueued(env, s, e, r);
    }
    CommitKeepsSettled(s.table, u, s.stream, c, e);
  }

  /** Steps that commit a queued event. */
  lemma CommitStep(env: Env, s: Pipe, w: nat, u: seq<Row>, c: NostrEvent, todo: seq<nat>, reported: bool)
    requires NoCollision(env) && Inv(env, s) && Queued(s.stream, c) && AtHand(s.stream, todo, c)
    requires Committed(s.table, u, s.stream, c)
    requires ToRow(c) in u && ToRow(c) !in s.table ==> FreeFor(s, w, c.id)
    ensures Inv(env, SetTask(s, w, Stored(todo, reported)).(table := u))
  {
    var k := Stored(todo, reported);
    var s' := SetTask(s, w, k).(table := u);
    SetTaskKeepsLocks(s, w, k);
    forall v | v in s'.tasks ensures TaskOk(u, s.stream, s'.tasks[v]) {
      if v != w {
        CommitKeepsTask(env, s, w, v, u, c);
      }
    }
    forall n | n in Acked(s.stream) ensures Settled(u, s.stream, s.stream.entries[n].event) {
      assert Queued(s.stream, s.stream.entries[n].event);
      CommitKeepsSettledQueued(env, s, u, c, s.stream.entries[n].event);
    }
    assert TableGated(s') by {
      forall r | r in u ensures exists e :: Queued(s.stream, e) && r == ToRow(e) {
      }
    }
  }

  lemma UnseeKeepsInv(env: Env, s: Pipe, gone: set<string>)
    requires Inv(env, s)
    ensures Inv(env, s.(tasks := Unsee(s.tasks, gone)))
    ensures forall w, id :: FreeFor(s, w, id) ==> FreeFor(s.(tasks := Unsee(s.tasks, gone)), w, id)
  {
    hide Conserved, QueueGated, Settled;
    var s' := s.(tasks := Unsee(s.tasks, gone));
    forall w | w in s.tasks
      ensures TaskOk(s.table, s.stream, s'.tasks[w]) && forall id :: Holds(s'.tasks[w], id) <==> Holds(s.tasks[w], id)
    {
      assert TaskOk(s.table, s.stream, s.tasks[w]);
    }
    assert TableGated(s');
  }

  lemma CommitActionKeepsInv(env: Env, s: Pipe, w: nat, reported: bool)
    requires NoCollision(env) && Inv(env, s) && Enabled(env, s, Commit(w, reported))
    ensures Inv(env, Apply(env, s, Commit(w, reported)))
    ensures NewestKept(s.table, Apply(env, s, Commit(w, reported)).table)
    ensures OnlySuperseded(s.table, Apply(env, s, Commit(w, reported)).table, s.stream)
  {
    var k := s.tasks[w];
    assert TaskOk(s.table, s.stream, k);
    var e := k.event;
    assert Queued(s.stream, e);
    forall r | r in s.table && r.id == e.id ensures HasBodyOf(r, e) {
      RowOfQueued(env, s, e, r);
    }
    CommitCommits(s.table, s.stream, e, k.tx.dels, k.tx.inserts);
    CommitTableMeans(s.table, e, k.tx.dels, k.tx.inserts);
    var u := CommitTable(s.table, e, k.tx.dels, k.tx.inserts);
    if k.tx.inserts {
      assert Holds(k, e.id);
    }
    UnseeKeepsInv(env, s, k.tx.dels);
    CommitStep(env, s.(tasks := Unsee(s.tasks, k.tx.dels)), w, u, e, k.todo, reported);
    CommitKeepsNewest(s.table, u, s.stream, e);
  }

  lemma RegularActionKeepsInv(env: Env, s: Pipe, w: nat, reported: bool)
    requires NoCollision(env) && Inv(env, s) && Enabled(env, s, StoreRegular(w, reported))
    ensures Inv(env, Apply(env, s, StoreRegular(w, reported)))
    ensures NewestKept(s.table, Apply(env, s, StoreRegular(w, reported)).table)
    ensures OnlySuperseded(s.table, Apply(env, s, StoreRegular(w, reported)).table, s.stream)
  {
    var k := s.tasks[w];
    var e := Head(s, k).value;
    assert Queued(s.stream, e);
    forall r | r in s.table && r.id == e.id ensures HasBodyOf(r, e) {
      RowOfQueued(env, s, e, r);
    }
    InsertCommits(s.table, s.stream, e);
    CommitStep(env, s, w, InsertRow(s.table, ToRow(e)), e, k.todo, reported);
    CommitKeepsNewest(s.table, InsertRow(s.table, ToRow(e)), s.stream, e);
  }

  lemma DeleteActionKeepsInv(env: Env, s: Pipe, w: nat)
    requires Inv(env, s) && Enabled(env, s, Delete(w))
    ensures Inv(env, Apply(env, s, Delete(w)))
  {
    var k := s.tasks[w];
    assert TaskOk(s.table, s.stream, k);
    var k' := k.(tx := Deleted(Targets(s, k)));
    forall r | r in s.table && r.id in Targets(s, k) ensures Supersedes(k.event, r) {
      SupersededExactly(s.table, k.event, r);
    }
    QuietStep(env, s, w, k', s.stream);
  }

  /** A transaction's own DELETE never takes the row of its own event. */
  lemma OwnRowKept(env: Env, s: Pipe, e: NostrEvent, dels: set<string>, r: Row)
    requires NoCollision(env) && QueueGated(env, s.stream) && TableGated(s) && Queued(s.stream, e)
    requires DelsSuperseded(s.table, e, dels) && r in s.table && r.id == e.id
    ensures e.id !in dels
  {
    RowOfQueued(env, s, e, r);
    assert !Supersedes(e, r);
  }

  lemma InsertActionKeepsInv(env: Env, s: Pipe, w: nat)
    requires NoCollision(env) && Inv(env, s) && Enabled(env, s, Insert(w))
    ensures Inv(env, Apply(env, s, Insert(w)))
  {
    hide NoCollision, Known, Supersedes, Conserved, LocksApart, AckedSettled;
    var k := s.tasks[w];
    assert TaskOk(s.table, s.stream, k);
    var e, dels := k.event, k.tx.dels;
    assert Queued(s.stream, e);
    WithoutMeans(s.table, dels);
    forall r | r in s.table && r.id == e.id ensures e.id !in dels {
      OwnRowKept(env, s, e, dels, r);
    }
    var k' := k.(tx := Inserted(dels, !HasId(Without(s.table, dels), e.id)));
    assert forall id :: id in dels ==> Holds(k, id);
    InsertFree(s, w, k, k');
    QuietStep(env, s, w, k', s.stream);
  }

  lemma InsertFree(s: Pipe, w: nat, k: Task, k': Task)
    requires LocksApart(s.tasks) && w in s.tasks && s.tasks[w] == k && k.InTx? && k'.InTx?
    requires FreeFor(s, w, k.event.id) && Dels(k') == Dels(k) && (Claim(k').Some? ==> Claim(k').value == k.event.id)
    ensures forall id :: Holds(k', id) ==> FreeFor(s, w, id)
  {
    forall id | Holds(k', id) ensures FreeFor(s, w, id) {
      if id in Dels(k) {
        assert Holds(k, id);
      }
    }
  }

  lemma AckActionKeepsInv(env: Env, s: Pipe, w: nat, applied: bool)
    requires Inv(env, s) && Enabled(env, s, Ack(w, applied))
    ensures Inv(env, Apply(env, s, Ack(w, applied)))
    ensures Advances(s.stream, Apply(env, s, Ack(w, applied)).stream)
  {
    var k := s.tasks[w];
    assert TaskOk(s.table, s.stream, k);
    var n := k.todo[0];
    AckConserves(s.stream, n);
    QuietStep(env, s, w, AfterHead(k.todo), if applied then Xack(s.stream, n) else s.stream);
  }

  lemma RestOk(t: seq<Row>, stream: Stream, todo: seq<nat>, batch: seq<nat>)
    ensures TaskOk(t, stream, AfterHead(todo)) && TaskOk(t, stream, ReadTask(batch)) && TaskOk(t, stream, Reading)
    ensures forall id :: !Holds(AfterHead(todo), id) && !Holds(ReadTask(batch), id) && !Holds(Reading, id)
  {
  }

  /** Steps that only bring a worker to a task of no claims. */
  lemma IdleStep(env: Env, s: Pipe, w: nat, todo: seq<nat>, batch: seq<nat>, stream: Stream)
    requires Inv(env, s) && Conserved(stream) && stream.entries == s.stream.entries && Acked(stream) == Acked(s.stream)
    ensures Inv(env, SetTask(s, w, AfterHead(todo)).(stream := stream))
    ensures Inv(env, SetTask(s, w, ReadTask(batch)).(stream := stream))
    ensures Inv(env, SetTask(s, w, Reading).(stream := stream))
  {
    hide Inv, TaskOk, Holds, AfterHead, ReadTask;
    RestOk(s.table, s.stream, todo, batch);
    QuietStep(env, s, w, AfterHead(todo), stream);
    QuietStep(env, s, w, ReadTask(batch), stream);
    QuietStep(env, s, w, Reading, stream);
  }

  lemma BeginActionKeepsInv(env: Env, s: Pipe, w: nat)
    requires Inv(env, s) && Enabled(env, s, Begin(w))
    ensures Inv(env, Apply(env, s, Begin(w)))
  {
    var visible := set r | r in s.table :: r.id;
    QuietStep(env, s, w, InTx(s.tasks[w].todo, Head(s, s.tasks[w]).value, Scanning(visible)), s.stream);
  }

  lemma HeadGated(env: Env, s: Pipe, w: nat)
    requires QueueGated(env, s.stream)
    ensures !HeadIs(s, w, Ephemeral)
  {
    hide Known;
    if w in s.tasks && Head(s, s.tasks[w]).Some? {
      assert Queued(s.stream, Head(s, s.tasks[w]).value);
    }
  }

  /** What any step may do to the table and the stream. */
  ghost predicate Forwards(s: Pipe, t: Pipe) {
    && NewestKept(s.table, t.table)
    && OnlySuperseded(s.table, t.table, s.stream)
    && Advances(s.stream, t.stream)
  }

  lemma SameTableForwards(s: Pipe, t: Pipe)
    requires t.table == s.table && Advances(s.stream, t.stream)
    ensures Forwards(s, t)
  {
  }

  lemma QuietActionKeepsInv(env: Env, s: Pipe, a: Action)
    requires a.Start? || a.Read? || a.Skip? || a.Fail? || a.Crash?
    requires Inv(env, s) && Enabled(env, s, a)
    ensures Inv(env, Apply(env, s, a)) && Forwards(s, Apply(env, s, a))
  {
    hide QueueGated, TableGated, TaskOk, LocksApart, AckedSettled, Forwards;
    var todo := if a.Skip? || a.Fail? then s.tasks[a.w].todo else [];
    var g := s.stream.group;
    var batch := if a.Read? then Batch(s.stream.entries, g.value.next, BatchEnd(s.stream, BATCH_SIZE)) else [];
    ReadConserves(s.stream, BATCH_SIZE);
    IdleStep(env, s, a.w, todo, batch, if a.Read? then ReadGroup(s.stream, BATCH_SIZE) else s.stream);
    SameTableForwards(s, Apply(env, s, a));
  }

  lemma QueueActionKeepsInv(env: Env, s: Pipe, a: Action)
    requires a.Enqueue? || a.ForeignAdd? || a.EnsureGroup?
    requires Inv(env, s) && Enabled(env, s, a)
    ensures Inv(env, Apply(env, s, a)) && Forwards(s, Apply(env, s, a))
  {
    hide Inv, Forwards, Known;
    match a
    case Enqueue(e) =>
      AppendStep(env, s, EventJson(e));
      StreamPart(env, s);
      AddConserves(s.stream, EventJson(e));
      SameTableForwards(s, Apply(env, s, a));
    case ForeignAdd(p) =>
      AppendStep(env, s, p);
      StreamPart(env, s);
      AddConserves(s.stream, p);
      SameTableForwards(s, Apply(env, s, a));
    case EnsureGroup =>
      GroupStep(env, s);
      SameTableForwards(s, Apply(env, s, a));
  }

  lemma StreamPart(env: Env, s: Pipe)
    requires Inv(env, s)
    ensures Conserved(s.stream) && QueueGated(env, s.stream)
  {
  }

  /** Every step of every worker keeps the invariant, never takes back the newest committed
      `created_at` of any (pubkey, kind), removes only superseded rows, and moves stream entries only forward. */
  lemma StepKeepsInv(env: Env, s: Pipe, a: Action)
    requires NoCollision(env) && Inv(env, s) && Enabled(env, s, a)
    ensures Inv(env, Apply(env, s, a)) && Forwards(s, Apply(env, s, a))
  {
    hide Inv, NewestKept, NoCollision;
    match a
    case PassEphemeral(w) =>
      StreamPart(env, s);
      HeadGated(env, s, w);
    case StoreRegular(w, reported) => RegularActionKeepsInv(env, s, w, reported);
    case Begin(w) =>
      BeginActionKeepsInv(env, s, w);
      SameTableForwards(s, Apply(env, s, a));
    case Delete(w) =>
      DeleteActionKeepsInv(env, s, w);
      SameTableForwards(s, Apply(env, s, a));
    case Insert(w) =>
      InsertActionKeepsInv(env, s, w);
      SameTableForwards(s, Apply(env, s, a));
    case Commit(w, reported) => CommitActionKeepsInv(env, s, w, reported);
    case Ack(w, applied) =>
      AckActionKeepsInv(env, s, w, applied);
      SameTableForwards(s, Apply(env, s, a));
    case _ =>
      if a.Enqueue? || a.ForeignAdd? || a.EnsureGroup? {
        QueueActionKeepsInv(env, s, a);
      } else {
        QuietActionKeepsInv(env, s, a);
      }
  }

  lemma GroupStep(env: Env, s: Pipe)
    requires Inv(env, s)
    ensures Inv(env, s.(stream := CreateGroup(s.stream))) && Advances(s.stream, CreateGroup(s.stream))
  {
    var s' := s.(stream := CreateGroup(s.stream));
    assert forall e :: Queued(s'.stream, e) <==> Queued(s.stream, e);
    forall v | v in s'.tasks ensures TaskOk(s'.table, s'.stream, s'.tasks[v]) {
      SameEntriesTaskOk(s.table, s.stream, s'.stream, s.tasks[v]);
    }
  }
}
