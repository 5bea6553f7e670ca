/** Addresses over whole runs of the interleaved workers: what each keeps, and exactly when
    (src/storage/postgres.rs, src/worker/mod.rs). */
module AddressRuns {
  import opened Base
  import opened Events
  import opened Table
  import opened Streams
  import opened Histories
  import opened Pipeline
  import opened PipelineRuns
  import opened Addresses

  // ---- what the condition gives, from any state ----

  /** An acked event of an address apart has its id in the table, or a strictly newer row of the same address is
      there, in every state reached from one of which that was true. */
  lemma AddressKept(env: Env, s: Pipe, acts: seq<Action>, t: Pipe, n: nat)
    requires NoCollision(env) && Inv(env, s) && Runs(env, s, acts, t) && n in Acked(t.stream)
    requires n < |t.stream.entries| && t.stream.entries[n].EventJson?
    requires var e := t.stream.entries[n].event;
      && CategoryOf(e.kind) == ParameterizedReplaceable && TagsApart(t.stream, e.pubkey, e.kind, DTag(e.tags))
      && ClassInv(s, AddressClass(e.pubkey, ToI32(e.kind), DTag(e.tags)))
    ensures var e := t.stream.entries[n].event;
      HasId(t.table, e.id)
      || exists r ::
           r in t.table && InClass(AddressClass(e.pubkey, ToI32(e.kind), DTag(e.tags)), r) && r.createdAt > e.createdAt
  {
    hide NoCollision, Inv, QueueConfined, Enabled, Apply, TagsApart, CategoryOf;
    var e := t.stream.entries[n].event;
    var c := AddressClass(e.pubkey, ToI32(e.kind), DTag(e.tags));
    TagsApartConfined(t.stream, e.pubkey, e.kind, DTag(e.tags));
    RunKeepsClass(env, s, acts, t, c);
    assert OfClass(t.stream, c, n);
  }

  /** And whatever the interleaving, the newest time of such an address never decreases. */
  lemma AddressNewestKept(env: Env, s: Pipe, acts: seq<Action>, t: Pipe, pubkey: string, kind: U32, d: string)
    requires NoCollision(env) && Inv(env, s) && Runs(env, s, acts, t)
    requires CategoryOf(kind) == ParameterizedReplaceable && TagsApart(t.stream, pubkey, kind, d)
    requires ClassInv(s, AddressClass(pubkey, ToI32(kind), d))
    ensures ClassInv(t, AddressClass(pubkey, ToI32(kind), d))
    ensures TimesKept(s.table, t.table, AddressClass(pubkey, ToI32(kind), d))
  {
    hide NoCollision, Inv, QueueConfined, Enabled, Apply, TagsApart, CategoryOf, ClassInv, TimesKept;
    TagsApartConfined(t.stream, pubkey, kind, d);
    RunKeepsClass(env, s, acts, t, AddressClass(pubkey, ToI32(kind), d));
  }

  // ---- and that it is needed ----

  /** Only events that `stream` has are queued in the state. */
  ghost predicate DrawnFrom(s: Pipe, stream: Stream) {
    forall e :: Queued(s.stream, e) ==> Queued(stream, e)
  }

  /** No run over these events, from any state it passes, takes back the newest time of the class. */
  ghost predicate NeverTakenBack(env: Env, stream: Stream, c: Class) {
    forall before, s, acts, t :: Runs(env, EMPTY_PIPE, before, s) && Runs(env, s, acts, t) && DrawnFrom(t, stream)
      ==> TimesKept(s.table, t.table, c)
  }

  /** In no run over these events is an acked event of the class neither stored nor followed by a newer row of it. */
  ghost predicate NeverLost(env: Env, stream: Stream, c: Class) {
    forall acts, t :: Runs(env, EMPTY_PIPE, acts, t) && DrawnFrom(t, stream) ==> AckedSettledIn(t, c)
  }

  /** Exactly when a class of rows keeps its newest time, and its acknowledged events, in every run over given
      events: when only events of the class ever supersede rows of it. */
  lemma ConfinedIff(env: Env, stream: Stream, c: Class)
    requires NoCollision(env) && QueueGated(env, stream)
    ensures QueueConfined(stream, c) <==> NeverTakenBack(env, stream, c)
    ensures QueueConfined(stream, c) <==> NeverLost(env, stream, c)
  {
    hide NoCollision, QueueGated, Runs, DrawnFrom, TimesKept, AckedSettledIn, QueueConfined;
    if QueueConfined(stream, c) {
      forall before, s, acts, t | Runs(env, EMPTY_PIPE, before, s) && Runs(env, s, acts, t) && DrawnFrom(t, stream)
        ensures TimesKept(s.table, t.table, c)
      {
        ConfinedKeeps(env, stream, c, before, s, acts, t);
      }
      forall acts, t | Runs(env, EMPTY_PIPE, acts, t) && DrawnFrom(t, stream) ensures AckedSettledIn(t, c) {
        EmptyRun(env, t);
        ConfinedKeeps(env, stream, c, acts, t, [], t);
      }
    } else {
      var before, s, acts, t := TakenBack(env, stream, c);
      RunsConcat(env, EMPTY_PIPE, before, s, acts, t);
    }
  }

  lemma ConfinedKeeps(env: Env, stream: Stream, c: Class, before: seq<Action>, s: Pipe, acts: seq<Action>, t: Pipe)
    requires NoCollision(env) && QueueConfined(stream, c) && DrawnFrom(t, stream)
    requires Runs(env, EMPTY_PIPE, before, s) && Runs(env, s, acts, t)
    ensures TimesKept(s.table, t.table, c) && AckedSettledIn(t, c)
  {
    hide NoCollision, Inv, Runs, TimesKept, TaskSettled, Supersedes, InClass;
    EmptyPipeInv(env);
    RunKeepsInv(env, EMPTY_PIPE, before, s);
    RunKeepsInv(env, s, acts, t);
    assert QueueConfined(t.stream, c) && ClassInv(EMPTY_PIPE, c);
    ConfinedBefore(s.stream, t.stream, c);
    RunKeepsClass(env, EMPTY_PIPE, before, s, c);
    RunKeepsClass(env, s, acts, t, c);
  }

  /** If an event of another class supersedes one of the class, one worker that stores them in turn takes the
      class's newest time back, although it acknowledged the event. */
  lemma TakenBack(env: Env, stream: Stream, c: Class) returns (before: seq<Action>, s: Pipe, acts: seq<Action>, t: Pipe)
    requires NoCollision(env) && QueueGated(env, stream) && !QueueConfined(stream, c)
    ensures Runs(env, EMPTY_PIPE, before, s) && Runs(env, s, acts, t) && DrawnFrom(t, stream)
    ensures !TimesKept(s.table, t.table, c) && !AckedSettledIn(t, c)
  {
    hide NoCollision, Runs, Supersedes, Known, InClass, IsEphemeral;
    var a, b :| Queued(stream, a) && Queued(stream, b) && InClass(c, ToRow(a)) && Supersedes(b, ToRow(a)) &&
      !InClass(c, ToRow(b));
    before, s, acts, t := StoredInTurn(env, a, b);
    NotTheSame(env, a, b);
    TimeGone(s, t, c, a, b);
  }

  lemma TimeGone(s: Pipe, t: Pipe, c: Class, a: NostrEvent, b: NostrEvent)
    requires s.table == [ToRow(a)] && t.table == [ToRow(b)] && InClass(c, ToRow(a)) && !InClass(c, ToRow(b))
    requires a.id != b.id && 0 in Acked(t.stream) && |t.stream.entries| > 0 && t.stream.entries[0] == EventJson(a)
    ensures !TimesKept(s.table, t.table, c) && !AckedSettledIn(t, c)
  {
    assert ToRow(a) in s.table && ClassHas(s.table, c, a.createdAt) && !ClassHas(t.table, c, a.createdAt);
    assert OfClass(t.stream, c, 0);
  }

  lemma NotTheSame(env: Env, a: NostrEvent, b: NostrEvent)
    requires NoCollision(env) && Known(env, a) && Known(env, b) && Supersedes(b, ToRow(a))
    ensures a.id != b.id
  {
    hide NoCollision, Known;
    if a.id == b.id {
      IdFixesBody(env, a, b);
    }
  }

  // ---- one worker, two events ----

  function Solo(table: seq<Row>, entries: seq<Payload>, g: Group, k: Task): Pipe {
    Pipe(table, Stream(entries, Some(g)), map[0 := k])
  }

  lemma StoredInTurn(env: Env, a: NostrEvent, b: NostrEvent)
      returns (before: seq<Action>, s: Pipe, acts: seq<Action>, t: Pipe)
    requires Known(env, a) && Known(env, b) && !IsEphemeral(a) && !IsEphemeral(b) && Supersedes(b, ToRow(a))
    ensures Runs(env, EMPTY_PIPE, before, s) && Runs(env, s, acts, t)
    ensures s.table == [ToRow(a)] && t.table == [ToRow(b)]
    ensures t.stream.entries == [EventJson(a), EventJson(b)] && Acked(t.stream) == {0}
  {
    hide Runs, Known, IsEphemeral, Supersedes, Enabled, Apply;
    var entries := [EventJson(a), EventJson(b)];
    var queued := Solo([], entries, Group(0, 2, {0, 1}, {}), Next([0, 1]));
    var stored := Solo([ToRow(a)], entries, Group(0, 2, {0, 1}, {}), Acking([0, 1]));
    s := Solo([ToRow(a)], entries, Group(0, 2, {1}, {0}), Next([1]));
    t := Solo([ToRow(b)], entries, Group(0, 2, {1}, {0}), Acking([1]));
    StoreTwo(a, b);
    before := BothQueued(env, a, b);
    StoreAlone(env, [], entries, Group(0, 2, {0, 1}, {}), [0, 1], a);
    AckFirst(env, [ToRow(a)], entries);
    StoreAlone(env, [ToRow(a)], entries, Group(0, 2, {1}, {0}), [1], b);
    acts := Transaction(0, true);
    RunOfOne(env, stored, Ack(0, true));
    RunsConcat(env, EMPTY_PIPE, before, queued, Transaction(0, true), stored);
    before := before + Transaction(0, true);
    RunsConcat(env, EMPTY_PIPE, before, stored, [Ack(0, true)], s);
    before := before + [Ack(0, true)];
  }

  lemma StoreTwo(a: NostrEvent, b: NostrEvent)
    requires Supersedes(b, ToRow(a)) && !IsEphemeral(a)
    ensures Store([], a) == [ToRow(a)] && Store([ToRow(a)], b) == [ToRow(b)]
    ensures Upserts(a) && Upserts(b)
  {
    ReplaySuperseded(a, b);
    hide JsonContains, Store;
    KindColumnInjective(a.kind, b.kind);
  }

  predicate Upserts(e: NostrEvent) {
    CategoryOf(e.kind) == Replaceable || CategoryOf(e.kind) == ParameterizedReplaceable
  }

  /** Both are queued, in order, and worker 0 has them in hand. */
  lemma BothQueued(env: Env, a: NostrEvent, b: NostrEvent) returns (acts: seq<Action>)
    requires Known(env, a) && Known(env, b) && !IsEphemeral(a) && !IsEphemeral(b)
    ensures Runs(env, EMPTY_PIPE, acts,
      Solo([], [EventJson(a), EventJson(b)], Group(0, 2, {0, 1}, {}), Next([0, 1])))
  {
    hide Known, IsEphemeral, Runs;
    var s1 := Pipe([], Stream([], Some(Group(0, 0, {}, {}))), map[]);
    assert Enabled(env, EMPTY_PIPE, EnsureGroup) && Apply(env, EMPTY_PIPE, EnsureGroup) == s1;
    var s2 := Apply(env, s1, Start(0));
    var s3 := Apply(env, s2, Enqueue(a));
    var s4 := Solo([], [EventJson(a), EventJson(b)], Group(0, 0, {}, {}), Reading);
    assert s4 == Apply(env, s3, Enqueue(b));
    var t := Solo([], [EventJson(a), EventJson(b)], Group(0, 2, {0, 1}, {}), Next([0, 1]));
    ReadBoth(env, a, b);
    RunOfFour(env, s1, Start(0), Enqueue(a), Enqueue(b), Read(0, true), t);
    RunOfOne(env, EMPTY_PIPE, EnsureGroup);
    acts := [EnsureGroup] + [Start(0), Enqueue(a), Enqueue(b), Read(0, true)];
    RunsConcat(env, EMPTY_PIPE, [EnsureGroup], s1, [Start(0), Enqueue(a), Enqueue(b), Read(0, true)], t);
  }

  lemma ReadBoth(env: Env, a: NostrEvent, b: NostrEvent)
    ensures var entries := [EventJson(a), EventJson(b)];
      var s := Solo([], entries, Group(0, 0, {}, {}), Reading);
      Enabled(env, s, Read(0, true)) && Apply(env, s, Read(0, true)) ==
        Solo([], entries, Group(0, 2, {0, 1}, {}), Next([0, 1]))
  {
    var entries := [EventJson(a), EventJson(b)];
    var s := Solo([], entries, Group(0, 0, {}, {}), Reading);
    assert BatchEnd(s.stream, BATCH_SIZE) == 2;
    assert Batch(entries, 2, 2) == [] && Batch(entries, 1, 2) == [1] && Batch(entries, 0, 2) == [0, 1];
    assert Span(0, 2) == {0, 1} && {} + {0, 1} == {0, 1};
    assert ReadGroup(s.stream, BATCH_SIZE) == Stream(entries, Some(Group(0, 2, {0, 1}, {})));
    assert ReadTask([0, 1]) == Next([0, 1]);
    assert s.tasks[0 := Next([0, 1])] == map[0 := Next([0, 1])];
  }

  lemma StoreAlone(env: Env, table: seq<Row>, entries: seq<Payload>, g: Group, todo: seq<nat>, e: NostrEvent)
    requires todo != [] && todo[0] < |entries| && entries[todo[0]] == EventJson(e) && Upserts(e)
    ensures Runs(env, Solo(table, entries, g, Next(todo)), Transaction(0, true),
      Solo(Store(table, e), entries, g, Acking(todo)))
  {
    hide Runs, Store, Known, Supersedes;
    var s := Solo(table, entries, g, Next(todo));
    AloneTransactionIsStore(env, s, 0, true);
    var seen := s.(tasks := Unsee(s.tasks, SupersededIds(s.table, e)));
    assert SetTask(seen, 0, Stored(todo, true)).tasks == map[0 := Acking(todo)];
  }

  lemma AckFirst(env: Env, table: seq<Row>, entries: seq<Payload>)
    ensures var s := Solo(table, entries, Group(0, 2, {0, 1}, {}), Acking([0, 1]));
      && Enabled(env, s, Ack(0, true))
      && Apply(env, s, Ack(0, true)) == Solo(table, entries, Group(0, 2, {1}, {0}), Next([1]))
  {
    var s := Solo(table, entries, Group(0, 2, {0, 1}, {}), Acking([0, 1]));
    assert {0, 1} - {0} == {1} && {} + {0} == {0};
    assert [0, 1][1..] == [1];
    assert s.tasks[0 := Next([1])] == map[0 := Next([1])];
  }

  // ---- addresses ----

  /** Exactly when an address keeps its newest time and its acknowledged events in every run over given events:
      when no event of it has a tag that mentions "d" and another address with a newer event. */
  lemma AddressIff(env: Env, stream: Stream, pubkey: string, kind: U32, d: string)
    requires NoCollision(env) && QueueGated(env, stream) && CategoryOf(kind) == ParameterizedReplaceable
    ensures var c := AddressClass(pubkey, ToI32(kind), d);
      && (TagsApart(stream, pubkey, kind, d) <==> NeverTakenBack(env, stream, c))
      && (TagsApart(stream, pubkey, kind, d) <==> NeverLost(env, stream, c))
  {
    hide NoCollision, QueueGated, TagsApart, NeverTakenBack, NeverLost, QueueConfined, CategoryOf;
    TagsApartConfined(stream, pubkey, kind, d);
    ConfinedIff(env, stream, AddressClass(pubkey, ToI32(kind), d));
  }
}
