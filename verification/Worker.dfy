/** The background worker over the two store objects (src/worker/mod.rs). Whatever fails, what its
    code does is a run of one worker of the pipeline machine, so all that holds of that machine holds here. */
module Worker {
  import opened Base
  import opened Events
  import opened Table
  import opened Streams
  import opened Pipeline
  import opened Hands
  import opened PipelineRuns
  import opened Postgres

  datatype EntryFaults = EntryFaults(store: Faults, ack: Fault)

  /** One round of the loop: what clients queue before it reads, and which of its calls fail. */
  datatype Round = Round(queued: seq<NostrEvent>, read: Fault, faults: nat -> EntryFaults)

  /** The store of entry `n` is reported, so that its XACK follows. */
  predicate Done(entries: seq<Payload>, n: nat, faults: nat -> EntryFaults)
    requires n < |entries|
  {
    entries[n].EventJson? && Reported(entries[n].event, faults(n).store)
  }

  ghost predicate InStream(entries: seq<Payload>, todo: seq<nat>) {
    forall i :: 0 <= i < |todo| ==> todo[i] < |entries|
  }

  /** The table after attempting the entries of `todo` in order. */
  ghost function BatchTable(t: seq<Row>, entries: seq<Payload>, todo: seq<nat>, faults: nat -> EntryFaults): seq<Row>
    requires InStream(entries, todo)
  {
    if todo == [] then t
    else
      var n := todo[|todo| - 1];
      var before := BatchTable(t, entries, todo[..|todo| - 1], faults);
      if entries[n].EventJson? then Attempted(before, entries[n].event, faults(n).store) else before
  }

  function View(pg: PgStore, redis: RedisStore, w: nat, k: Task): Pipe
    reads pg, redis
  {
    Pipe(pg.events, redis.stream, map[w := k])
  }

  // ---- the worker's calls as steps of the machine ----

  lemma StoreRuns(env: Env, s: Pipe, w: nat, todo: seq<nat>, e: NostrEvent, f: Faults) returns (acts: seq<Action>)
    requires s.tasks == map[w := Next(todo)] && AtHand(s.stream, todo, e)
    ensures Runs(env, s, acts,
      Pipe(Attempted(s.table, e, f), s.stream, map[w := if Reported(e, f) then Acking(todo) else AfterHead(todo)]))
  {
    hide InsertRow, Without, SupersededIds, AfterHead, Runs, HasId;
    if !TakesEffect(e, f) {
      RunOfOne(env, s, Fail(w));
      OnlyTask(s, w, AfterHead(todo));
      acts := [Fail(w)];
    } else {
      match CategoryOf(e.kind)
      case Ephemeral =>
        RunOfOne(env, s, PassEphemeral(w));
        OnlyTask(s, w, Acking(todo));
        acts := [PassEphemeral(w)];
      case Regular =>
        RunOfOne(env, s, StoreRegular(w, f.last.Works?));
        OnlyTask(s, w, Stored(todo, f.last.Works?));
        acts := [StoreRegular(w, f.last.Works?)];
      case _ =>
        TransactionRuns(env, s, w, todo, e, f.last.Works?);
        acts := Transaction(w, f.last.Works?);
    }
  }

  lemma OnlyTask(s: Pipe, w: nat, k: Task)
    requires s.tasks.Keys == {w}
    ensures s.tasks[w := k] == map[w := k]
  {
  }

  lemma TransactionRuns(env: Env, s: Pipe, w: nat, todo: seq<nat>, e: NostrEvent, reported: bool)
    requires s.tasks == map[w := Next(todo)] && AtHand(s.stream, todo, e)
    requires CategoryOf(e.kind) != Ephemeral && CategoryOf(e.kind) != Regular
    ensures Runs(env, s, Transaction(w, reported), Pipe(Store(s.table, e), s.stream, map[w := Stored(todo, reported)]))
  {
    hide InsertRow, Without, SupersededIds, AfterHead, Runs, HasId, Store, Stored;
    AloneTransactionIsStore(env, s, w, reported);
    OnlyTask(s.(tasks := Unsee(s.tasks, SupersededIds(s.table, e))), w, Stored(todo, reported));
  }

  lemma AckRuns(env: Env, s: Pipe, w: nat, todo: seq<nat>, ack: Fault)
    requires s.tasks == map[w := Acking(todo)] && todo != []
    ensures Runs(env, s, [Ack(w, !ack.Fails?)],
      Pipe(s.table, if ack.Fails? then s.stream else Xack(s.stream, todo[0]), map[w := AfterHead(todo)]))
  {
    hide AfterHead, Runs, Xack;
    RunOfOne(env, s, Ack(w, !ack.Fails?));
    assert s.tasks[w := AfterHead(todo)] == map[w := AfterHead(todo)];
  }

  lemma SkipRuns(env: Env, s: Pipe, w: nat, todo: seq<nat>)
    requires s.tasks == map[w := Next(todo)]
    ensures Runs(env, s, [Fail(w)], s.(tasks := map[w := AfterHead(todo)]))
  {
    hide AfterHead, Runs;
    RunOfOne(env, s, Fail(w));
    assert s.tasks[w := AfterHead(todo)] == map[w := AfterHead(todo)];
  }

  lemma ReadRuns(env: Env, s: Pipe, w: nat, reported: bool)
    requires s.tasks == map[w := Reading] && s.stream.group.Some?
    ensures var batch := Batch(s.stream.entries, s.stream.group.value.next, BatchEnd(s.stream, BATCH_SIZE));
      Runs(env, s, [Read(w, reported)],
        Pipe(s.table, ReadGroup(s.stream, BATCH_SIZE), map[w := if reported then ReadTask(batch) else Reading]))
  {
    hide Runs, ReadTask, ReadGroup, Batch;
    RunOfOne(env, s, Read(w, reported));
    var batch := Batch(s.stream.entries, s.stream.group.value.next, BatchEnd(s.stream, BATCH_SIZE));
    var k := if reported then ReadTask(batch) else Reading;
    assert s.tasks[w := k] == map[w := k];
  }

  // ---- the code ----

  /** Succeeds exactly when the entry parses and its store is reported. */
  method ProcessEntry(pg: PgStore, payload: Payload, f: Faults) returns (r: Result<(), ()>)
    requires pg.Valid()
    modifies pg
    ensures pg.Valid()
    ensures pg.events == if payload.EventJson? then Attempted(old(pg.events), payload.event, f) else old(pg.events)
    ensures r.Ok? <==> payload.EventJson? && Reported(payload.event, f)
  {
    if !payload.EventJson? {
      return Err(());
    }
    var stored := pg.StoreEvent(payload.event, f);
    r := if stored.Ok? then Ok(()) else Err(());
  }

  /** The entries whose XACK is sent and arrives. */
  function AckedBy(entries: seq<Payload>, todo: seq<nat>, faults: nat -> EntryFaults): set<nat>
  {
    set n | n in todo && n < |entries| && Done(entries, n, faults) && !faults(n).ack.Fails?
  }

  /** The inner loop: each entry is stored, and acked only after its store was reported; a failure
      of one entry stops no other. */
  method ProcessBatch(
      ghost env: Env, ghost w: nat, pg: PgStore, redis: RedisStore, batch: seq<nat>, faults: nat -> EntryFaults)
    returns (ghost acts: seq<Action>)
    requires pg.Valid() && Distinct(batch) && InStream(redis.stream.entries, batch)
    requires redis.stream.group.Some?
    requires forall j :: 0 <= j < |batch| ==> batch[j] in redis.stream.group.value.pending
    modifies pg, redis
    ensures pg.Valid() && redis.stream.entries == old(redis.stream.entries)
    ensures pg.events == BatchTable(old(pg.events), redis.stream.entries, batch, faults)
    ensures Acked(redis.stream) == old(Acked(redis.stream)) + AckedBy(redis.stream.entries, batch, faults)
    ensures Runs(env, old(View(pg, redis, w, ReadTask(batch))), acts, View(pg, redis, w, Reading))
  {
    hide Runs, Attempted, BatchTable, AckedBy, AfterEntry;
    ghost var start := View(pg, redis, w, ReadTask(batch));
    ghost var entries := redis.stream.entries;
    ghost var acked := Acked(redis.stream);
    acts := [];
    EmptyRun(env, start);
    NothingYet(start.table, entries, batch, faults);
    for i := 0 to |batch|
      invariant pg.Valid() && redis.stream.entries == entries && redis.stream.group.Some?
      invariant pg.events == BatchTable(start.table, entries, batch[..i], faults)
      invariant Acked(redis.stream) == acked + AckedBy(entries, batch[..i], faults)
      invariant forall j :: i <= j < |batch| ==> batch[j] in redis.stream.group.value.pending
      invariant Runs(env, start, acts, View(pg, redis, w, ReadTask(batch[i..])))
    {
      ghost var todo := batch[i..];
      ghost var at := View(pg, redis, w, Next(todo));
      OneMore(start.table, entries, batch, i, faults);
      var r := ProcessEntry(pg, redis.stream.entries[batch[i]], faults(batch[i]).store);
      if r.Ok? {
        var _ := redis.AckStream(batch[i], faults(batch[i]).ack);
      }
      ghost var more := EntryRuns(env, at, w, todo, faults(batch[i]));
      assert AfterEntry(at, w, todo, faults(batch[i])) == View(pg, redis, w, ReadTask(batch[i + 1..])) by {
        EntryShape(at, w, todo, faults(batch[i]));
      }
      RunsConcat(env, start, acts, at, more, View(pg, redis, w, ReadTask(batch[i + 1..])));
      acts := acts + more;
    }
    assert batch[..|batch|] == batch;
  }

  lemma EntryShape(s: Pipe, w: nat, todo: seq<nat>, f: EntryFaults)
    requires todo != [] && todo[0] < |s.stream.entries|
    ensures var p := s.stream.entries[todo[0]];
      var stored := p.EventJson? && Reported(p.event, f.store);
      AfterEntry(s, w, todo, f) == Pipe(
        if p.EventJson? then Attempted(s.table, p.event, f.store) else s.table,
        if stored && !f.ack.Fails? then Xack(s.stream, todo[0]) else s.stream,
        map[w := ReadTask(todo[1..])])
  {
  }

  lemma NothingYet(t: seq<Row>, entries: seq<Payload>, batch: seq<nat>, faults: nat -> EntryFaults)
    requires InStream(entries, batch)
    ensures batch[0..] == batch && batch[..0] == []
    ensures BatchTable(t, entries, batch[..0], faults) == t && AckedBy(entries, batch[..0], faults) == {}
  {
  }

  lemma OneMore(t: seq<Row>, entries: seq<Payload>, batch: seq<nat>, i: nat, faults: nat -> EntryFaults)
    requires InStream(entries, batch) && i < |batch|
    ensures batch[i..] != [] && batch[i..][0] == batch[i] && batch[i..][1..] == batch[i + 1..]
    ensures var n, before := batch[i], BatchTable(t, entries, batch[..i], faults);
      BatchTable(t, entries, batch[..i + 1], faults) ==
        if entries[n].EventJson? then Attempted(before, entries[n].event, faults(n).store) else before
    ensures AckedBy(entries, batch[..i + 1], faults) == AckedBy(entries, batch[..i], faults) +
      if Done(entries, batch[i], faults) && !faults(batch[i]).ack.Fails? then {batch[i]} else {}
  {
    hide Attempted, Reported;
    assert batch[..i + 1][..i] == batch[..i];
    assert forall m :: m in batch[..i + 1] <==> m in batch[..i] || m == batch[i];
  }

  /** One turn of the inner loop: the store, then the XACK if the store was reported. */
  function AfterEntry(s: Pipe, w: nat, todo: seq<nat>, f: EntryFaults): Pipe
    requires todo != [] && todo[0] < |s.stream.entries|
  {
    var p := s.stream.entries[todo[0]];
    var stored := p.EventJson? && Reported(p.event, f.store);
    Pipe(
      if p.EventJson? then Attempted(s.table, p.event, f.store) else s.table,
      if stored && !f.ack.Fails? then Xack(s.stream, todo[0]) else s.stream,
      map[w := ReadTask(todo[1..])])
  }

  lemma EntryRuns(env: Env, s: Pipe, w: nat, todo: seq<nat>, f: EntryFaults) returns (acts: seq<Action>)
    requires s.tasks == map[w := Next(todo)] && todo != [] && todo[0] < |s.stream.entries|
    ensures Runs(env, s, acts, AfterEntry(s, w, todo, f))
  {
    hide Runs, Attempted, Xack, Reported;
    var p := s.stream.entries[todo[0]];
    assert AfterHead(todo) == ReadTask(todo[1..]);
    if !p.EventJson? {
      SkipRuns(env, s, w, todo);
      acts := [Fail(w)];
    } else {
      acts := StoreRuns(env, s, w, todo, p.event, f.store);
      if Reported(p.event, f.store) {
        var m := Pipe(Attempted(s.table, p.event, f.store), s.stream, map[w := Acking(todo)]);
        AckRuns(env, m, w, todo, f.ack);
        RunsConcat(env, s, acts, m, [Ack(w, !f.ack.Fails?)], AfterEntry(s, w, todo, f));
        acts := acts + [Ack(w, !f.ack.Fails?)];
      }
    }
  }

  /** What a read delivers is in the stream, in order, each entry once, and pending. */
  lemma DeliveredPending(s: Stream, count: nat)
    requires Conserved(s) && s.group.Some?
    ensures var b := Batch(s.entries, s.group.value.next, BatchEnd(s, count));
      Distinct(b) && InStream(s.entries, b) &&
      forall j :: 0 <= j < |b| ==> b[j] in ReadGroup(s, count).group.value.pending
  {
    BatchIncreases(s.entries, s.group.value.next, BatchEnd(s, count));
  }

  lemma QueueRuns(env: Env, s: Pipe, e: NostrEvent)
    requires Known(env, e) && !IsEphemeral(e)
    ensures Runs(env, s, [Enqueue(e)], s.(stream := Xadd(s.stream, EventJson(e))))
  {
    hide Runs, Xadd, Known;
    RunOfOne(env, s, Enqueue(e));
  }

  lemma GroupRuns(env: Env, s: Pipe)
    ensures Runs(env, s, [EnsureGroup], s.(stream := CreateGroup(s.stream)))
  {
    hide Runs, CreateGroup;
    RunOfOne(env, s, EnsureGroup);
  }

  /** Events that connections queue while the worker waits. */
  method QueueAll(ghost env: Env, ghost w: nat, pg: PgStore, redis: RedisStore, queued: seq<NostrEvent>)
    returns (ghost acts: seq<Action>)
    requires forall i :: 0 <= i < |queued| ==> Known(env, queued[i]) && !IsEphemeral(queued[i])
    modifies redis
    ensures Runs(env, old(View(pg, redis, w, Reading)), acts, View(pg, redis, w, Reading))
  {
    hide Runs, Known, IsEphemeral;
    acts := [];
    ghost var start := View(pg, redis, w, Reading);
    EmptyRun(env, start);
    for i := 0 to |queued|
      invariant Runs(env, start, acts, View(pg, redis, w, Reading))
      invariant pg.events == start.table
    {
      ghost var at := View(pg, redis, w, Reading);
      var _ := redis.EnqueueEvent(queued[i], Works);
      QueueRuns(env, at, queued[i]);
      RunsConcat(env, start, acts, at, [Enqueue(queued[i])], View(pg, redis, w, Reading));
      acts := acts + [Enqueue(queued[i])];
    }
  }

  /** One round: a failed or empty read goes round again, and every delivered entry is processed. */
  method OneRound(ghost env: Env, ghost w: nat, pg: PgStore, redis: RedisStore, read: Fault, faults: nat -> EntryFaults)
    returns (ghost acts: seq<Action>)
    requires pg.Valid() && Conserved(redis.stream)
    modifies pg, redis
    ensures Runs(env, old(View(pg, redis, w, Reading)), acts, View(pg, redis, w, Reading))
    ensures redis.stream.entries == old(redis.stream.entries)
    ensures read.Works? && old(redis.stream).group.Some? ==>
      var before := old(redis.stream);
      var batch := Batch(before.entries, before.group.value.next, BatchEnd(before, BATCH_SIZE));
      && (exists read :: Delivers(before, read, 50, batch))
      && InStream(before.entries, batch)
      && pg.events == BatchTable(old(pg.events), before.entries, batch, faults)
      && Acked(redis.stream) == Acked(before) + AckedBy(before.entries, batch, faults)
    ensures !(read.Works? && old(redis.stream).group.Some?) ==>
      pg.events == old(pg.events) && Acked(redis.stream) == old(Acked(redis.stream))
  {
    hide Runs, Batch, BatchEnd, BatchTable, AckedBy, Conserved, Delivers;
    ghost var start := View(pg, redis, w, Reading);
    EmptyRun(env, start);
    acts := [];
    if redis.stream.group.Some? {
      DeliveredPending(redis.stream, BATCH_SIZE);
      ReadRuns(env, start, w, read.Works?);
    }
    var entries := redis.ReadStream(BATCH_SIZE, read);
    if start.stream.group.Some? && !read.Fails? {
      acts := [Read(w, read.Works?)];
    }
    if entries.Err? {
      return;
    }
    ghost var at := View(pg, redis, w, ReadTask(entries.value));
    ghost var more := ProcessBatch(env, w, pg, redis, entries.value, faults);
    RunsConcat(env, start, acts, at, more, View(pg, redis, w, Reading));
    acts := acts + more;
  }

  /** The worker's loop, for as many rounds as it is let run, whatever is queued meanwhile and whichever
      calls fail: a run of the machine. So entries are conserved and move only forward, the newest time of
      no author and kind is taken back, and what is acked is stored or superseded by something newer. */
  method RunWorker(ghost env: Env, ghost w: nat, pg: PgStore, redis: RedisStore, group: Fault, rounds: seq<Round>)
    returns (ghost acts: seq<Action>)
    requires NoCollision(env) && Inv(env, View(pg, redis, w, Reading))
    requires forall i, j :: 0 <= i < |rounds| && 0 <= j < |rounds[i].queued| ==>
      Known(env, rounds[i].queued[j]) && !IsEphemeral(rounds[i].queued[j])
    modifies pg, redis
    ensures Runs(env, old(View(pg, redis, w, Reading)), acts, View(pg, redis, w, Reading))
    ensures Conserved(redis.stream) && Advances(old(redis.stream), redis.stream)
    ensures pg.Valid() && NewestKept(old(pg.events), pg.events)
    ensures forall n :: n in Acked(redis.stream) ==>
      && n < |redis.stream.entries| && redis.stream.entries[n].EventJson?
      && Settled(pg.events, redis.stream, redis.stream.entries[n].event)
  {
    hide Runs, Known, IsEphemeral, NoCollision, Inv, Settled, Advances, NewestKept, Conserved;
    ghost var start := View(pg, redis, w, Reading);
    acts := [];
    EmptyRun(env, start);
    GroupRuns(env, start);
    var _ := redis.EnsureConsumerGroup(group);
    if !group.Fails? {
      acts := [EnsureGroup];
    }
    for i := 0 to |rounds|
      invariant Runs(env, start, acts, View(pg, redis, w, Reading))
    {
      ghost var at := View(pg, redis, w, Reading);
      ghost var queueing := QueueAll(env, w, pg, redis, rounds[i].queued);
      ghost var mid := View(pg, redis, w, Reading);
      RunsConcat(env, start, acts, at, queueing, mid);
      acts := acts + queueing;
      InvParts(env, start, acts, mid);
      ghost var more := OneRound(env, w, pg, redis, rounds[i].read, rounds[i].faults);
      RunsConcat(env, start, acts, mid, more, View(pg, redis, w, Reading));
      acts := acts + more;
    }
    InvParts(env, start, acts, View(pg, redis, w, Reading));
  }

  lemma InvParts(env: Env, s: Pipe, acts: seq<Action>, t: Pipe)
    requires NoCollision(env) && Inv(env, s) && Runs(env, s, acts, t)
    ensures Conserved(t.stream) && UniqueIds(t.table)
    ensures Advances(s.stream, t.stream) && NewestKept(s.table, t.table)
    ensures forall n :: n in Acked(t.stream) ==>
      n < |t.stream.entries| && t.stream.entries[n].EventJson? && Settled(t.table, t.stream, t.stream.entries[n].event)
  {
    hide Runs, Settled, Advances, NewestKept, Conserved, NoCollision;
    RunKeepsInv(env, s, acts, t);
  }
}
