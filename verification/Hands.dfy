/** Who has an entry in hand, and what becomes of entries that are dropped (src/worker/mod.rs,
    src/storage/redis.rs): the comment in the worker loop promises a redelivery, but every read asks
    only for new entries. */
module Hands {
  import opened Base
  import opened Events
  import opened Table
  import opened Streams
  import opened Pipeline
  import opened PipelineRuns

  function Todo(k: Task): seq<nat> {
    match k
    case Reading => []
    case Next(todo) => todo
    case InTx(todo, _, _) => todo
    case Acking(todo) => todo
  }

  predicate InHand(s: Pipe, w: nat, n: nat) {
    w in s.tasks && n in Todo(s.tasks[w])
  }

  predicate IsPending(s: Pipe, n: nat) {
    s.stream.group.Some? && n in s.stream.group.value.pending
  }

  /** What workers have in hand is pending, no worker has an entry twice, and no two have the same. */
  ghost predicate Handed(s: Pipe) {
    && (forall w, n :: InHand(s, w, n) ==> IsPending(s, n))
    && (forall w :: w in s.tasks ==> Distinct(Todo(s.tasks[w])))
    && (forall v, w, n :: InHand(s, v, n) && InHand(s, w, n) ==> v == w)
  }

  /** The entry is pending and no worker has it in hand. */
  ghost predicate Stranded(s: Pipe, n: nat) {
    IsPending(s, n) && forall w :: !InHand(s, w, n)
  }

  // ---- what a step does to hands ----

  function Tail(todo: seq<nat>): seq<nat> {
    if todo == [] then [] else todo[1..]
  }

  /** The worker lets go of its first entry. */
  predicate LetsGo(a: Action, w: nat) {
    match a
    case Skip(v) => v == w
    case Fail(v) => v == w
    case StoreRegular(v, reported) => v == w && !reported
    case Commit(v, reported) => v == w && !reported
    case Ack(v, _) => v == w
    case _ => false
  }

  /** What a worker has in hand after a step that is no read. */
  function TodoThen(s: Pipe, a: Action, w: nat): seq<nat> {
    if w !in s.tasks || a == Crash(w) then []
    else if LetsGo(a, w) then Tail(Todo(s.tasks[w]))
    else Todo(s.tasks[w])
  }

  lemma AfterHeadTodo(todo: seq<nat>)
    ensures Todo(AfterHead(todo)) == Tail(todo)
  {
  }

  lemma BlindTodo(k: Task, gone: set<string>)
    ensures Todo(Blind(k, gone)) == Todo(k)
  {
  }

  lemma TodoAfter(env: Env, s: Pipe, a: Action, w: nat)
    requires Enabled(env, s, a) && !a.Read?
    ensures w in Apply(env, s, a).tasks <==> w in s.tasks || a == Start(w)
    ensures w in Apply(env, s, a).tasks ==> Todo(Apply(env, s, a).tasks[w]) == TodoThen(s, a, w)
  {
    hide Targets, CommitTable, InsertRow, HasId, FreeFor, Known, AfterHead, Blind, Xack, CreateGroup, Xadd, CategoryOf;
    if w in s.tasks {
      AfterHeadTodo(Todo(s.tasks[w]));
      if a.Commit? {
        BlindTodo(s.tasks[w], s.tasks[a.w].tx.dels);
      }
    }
  }

  predicate AtHead(s: Pipe, w: nat, n: nat) {
    w in s.tasks && Todo(s.tasks[w]) != [] && Todo(s.tasks[w])[0] == n
  }

  lemma PendingAfter(env: Env, s: Pipe, a: Action, n: nat)
    requires Enabled(env, s, a) && !a.Read?
    ensures IsPending(Apply(env, s, a), n) <==> IsPending(s, n) && !Takes(s, a, n)
  {
    hide Targets, CommitTable, InsertRow, HasId, FreeFor, Known, AfterHead, Blind, CategoryOf;
  }

  lemma ReadAfter(env: Env, s: Pipe, a: Action)
    requires Enabled(env, s, a) && a.Read? && Conserved(s.stream)
    ensures var t := Apply(env, s, a); var todo := Todo(t.tasks[a.w]);
      && t.tasks == s.tasks[a.w := t.tasks[a.w]] && Todo(s.tasks[a.w]) == []
      && Distinct(todo)
      && (forall n: nat :: n in todo <==> a.reported && Delivered(s, n))
      && (forall n: nat :: IsPending(t, n) <==> IsPending(s, n) || Arrives(s, n))
  {
    var g := s.stream.group.value;
    var upTo := BatchEnd(s.stream, BATCH_SIZE);
    BatchMeans(s.stream.entries, g.next, upTo);
    BatchIncreases(s.stream.entries, g.next, upTo);
  }

  // ---- every step keeps hands apart ----

  lemma DistinctTail(todo: seq<nat>)
    requires Distinct(todo)
    ensures Distinct(Tail(todo))
    ensures forall n :: n in Tail(todo) <==> n in todo && n != todo[0]
  {
    if todo != [] {
      assert forall n :: n in todo <==> n == todo[0] || n in todo[1..];
      assert forall i :: 0 <= i < |todo[1..]| ==> todo[1..][i] == todo[i + 1];
    }
  }

  /** The step lets go of the entry without acknowledging it: a failure, a crash, an entry that does not
      parse, a store, read or acknowledgement that takes no effect or goes unreported. */
  predicate Drops(s: Pipe, a: Action, n: nat) {
    match a
    case Fail(w) => AtHead(s, w, n)
    case Skip(w) => AtHead(s, w, n)
    case StoreRegular(w, reported) => !reported && AtHead(s, w, n)
    case Commit(w, reported) => !reported && AtHead(s, w, n)
    case Ack(w, applied) => !applied && AtHead(s, w, n)
    case Crash(w) => InHand(s, w, n)
    case Read(_, reported) => Arrives(s, n) && !(reported && Delivered(s, n))
    case _ => false
  }

  /** An acknowledgement that takes effect. */
  predicate Takes(s: Pipe, a: Action, n: nat) {
    a.Ack? && a.applied && AtHead(s, a.w, n)
  }

  /** What is dropped or acknowledged was in the hand of the worker that acts. */
  lemma DropsOwn(env: Env, s: Pipe, a: Action, n: nat)
    requires Enabled(env, s, a) && !a.Read? && (Drops(s, a, n) || Takes(s, a, n))
    ensures InHand(s, a.w, n)
  {
    hide Enabled, Todo;
  }

  lemma HandAfter(env: Env, s: Pipe, a: Action, w: nat, n: nat)
    requires Enabled(env, s, a) && !a.Read? && Handed(s)
    ensures InHand(Apply(env, s, a), w, n) <==> InHand(s, w, n) && !Drops(s, a, n) && !Takes(s, a, n)
  {
    hide Enabled, Apply, Todo, IsPending;
    TodoAfter(env, s, a, w);
    if w in s.tasks {
      DistinctTail(Todo(s.tasks[w]));
    }
    if Drops(s, a, n) || Takes(s, a, n) {
      DropsOwn(env, s, a, n);
      if w == a.w {
        assert n !in TodoThen(s, a, w);
      } else {
        assert !InHand(s, w, n);
      }
    } else {
      assert w in s.tasks ==> (n in TodoThen(s, a, w) <==> n in Todo(s.tasks[w]));
    }
  }

  lemma OtherStepHanded(env: Env, s: Pipe, a: Action)
    requires Enabled(env, s, a) && !a.Read? && Handed(s)
    ensures Handed(Apply(env, s, a))
  {
    hide Enabled, Apply, Todo, IsPending;
    var t := Apply(env, s, a);
    forall w: nat | w in t.tasks
      ensures Distinct(Todo(t.tasks[w])) && forall n: nat :: InHand(t, w, n) ==> InHand(s, w, n) && IsPending(t, n)
    {
      TodoAfter(env, s, a, w);
      if w in s.tasks {
        DistinctTail(Todo(s.tasks[w]));
      }
      forall n: nat | InHand(t, w, n) ensures InHand(s, w, n) && IsPending(t, n) {
        HandAfter(env, s, a, w, n);
        PendingAfter(env, s, a, n);
      }
    }
  }

  lemma ReadStepHanded(env: Env, s: Pipe, a: Action)
    requires Enabled(env, s, a) && a.Read? && Handed(s) && Conserved(s.stream)
    ensures Handed(Apply(env, s, a))
  {
    hide Enabled, Apply, Todo;
    ReadAfter(env, s, a);
    var t := Apply(env, s, a);
    forall w: nat, n: nat | InHand(t, w, n)
      ensures IsPending(t, n) && (if w == a.w then a.reported && Delivered(s, n) else InHand(s, w, n) && !Arrives(s, n))
    {
      if w != a.w {
        assert InHand(s, w, n);
        PendingArrived(s, n);
      }
    }
  }

  lemma PendingArrived(s: Pipe, n: nat)
    requires Conserved(s.stream) && IsPending(s, n)
    ensures !Arrives(s, n)
  {
    assert n in s.stream.group.value.pending + s.stream.group.value.acked;
  }

  /** The next read takes the entry from the stream. */
  predicate Arrives(s: Pipe, n: nat) {
    s.stream.group.Some? && s.stream.group.value.next <= n < BatchEnd(s.stream, BATCH_SIZE)
  }

  /** And hands it to the worker. */
  predicate Delivered(s: Pipe, n: nat) {
    Arrives(s, n) && n < |s.stream.entries| && !s.stream.entries[n].NoEventField?
  }

  /** No entry is ever in two hands. */
  lemma StepKeepsHands(env: Env, s: Pipe, a: Action)
    requires Inv(env, s) && Handed(s) && Enabled(env, s, a)
    ensures Handed(Apply(env, s, a))
  {
    hide Handed, Inv, Enabled, Apply;
    StreamPart(env, s);
    if a.Read? {
      ReadStepHanded(env, s, a);
    } else {
      OtherStepHanded(env, s, a);
    }
  }

  lemma {:induction false} RunKeepsHands(env: Env, s: Pipe, acts: seq<Action>, t: Pipe)
    requires NoCollision(env) && Inv(env, s) && Handed(s) && Runs(env, s, acts, t)
    ensures Handed(t)
    decreases |acts|
  {
    hide Handed, Inv, Enabled, Apply, NoCollision;
    if acts == [] {
    } else {
      StepKeepsInv(env, s, acts[0]);
      StepKeepsHands(env, s, acts[0]);
      RunKeepsHands(env, Apply(env, s, acts[0]), acts[1..], t);
    }
  }

  /** Whatever is pending before any worker starts, hands are in order in every state that a run then reaches. */
  lemma ReachedHanded(env: Env, s: Pipe, acts: seq<Action>, t: Pipe)
    requires NoCollision(env) && Inv(env, s) && s.tasks == map[] && Runs(env, s, acts, t)
    ensures Inv(env, t) && Handed(t)
  {
    hide Inv, NoCollision, Runs;
    assert Handed(s);
    RunKeepsInv(env, s, acts, t);
    RunKeepsHands(env, s, acts, t);
  }

  // ---- what strands an entry ----

  /** In every reachable state a step strands exactly the entries it drops, and never frees one. */
  lemma StrandsIff(env: Env, s: Pipe, a: Action, n: nat)
    requires Inv(env, s) && Handed(s) && Enabled(env, s, a)
    ensures Stranded(Apply(env, s, a), n) <==> Stranded(s, n) || Drops(s, a, n)
  {
    hide Inv, Enabled, Apply;
    StreamPart(env, s);
    if a.Read? {
      ReadStrands(env, s, a, n);
    } else {
      OtherStrands(env, s, a, n);
    }
  }

  lemma ReadStrands(env: Env, s: Pipe, a: Action, n: nat)
    requires Enabled(env, s, a) && a.Read? && Handed(s) && Conserved(s.stream)
    ensures Stranded(Apply(env, s, a), n) <==> Stranded(s, n) || Drops(s, a, n)
  {
    hide Enabled, Apply, Todo, Arrives, IsPending;
    var t := Apply(env, s, a);
    ReadAfter(env, s, a);
    if IsPending(s, n) {
      PendingArrived(s, n);
    }
    forall w: nat ensures InHand(t, w, n) <==> InHand(s, w, n) || (w == a.w && a.reported && Delivered(s, n)) {
    }
    if Arrives(s, n) {
      assert forall w: nat :: !InHand(s, w, n);
      assert InHand(t, a.w, n) <==> a.reported && Delivered(s, n);
    }
  }

  lemma OtherStrands(env: Env, s: Pipe, a: Action, n: nat)
    requires Enabled(env, s, a) && !a.Read? && Handed(s)
    ensures Stranded(Apply(env, s, a), n) <==> Stranded(s, n) || Drops(s, a, n)
  {
    hide Enabled, Apply, Todo, IsPending;
    var t := Apply(env, s, a);
    PendingAfter(env, s, a, n);
    forall w: nat
      ensures InHand(t, w, n) <==> InHand(s, w, n) && !Drops(s, a, n) && !Takes(s, a, n)
    {
      HandAfter(env, s, a, w, n);
    }
    if Drops(s, a, n) || Takes(s, a, n) {
      DropsOwn(env, s, a, n);
    }
  }

  /** Nothing ever takes a stranded entry up again. */
  lemma {:induction false} StrandedForEver(env: Env, s: Pipe, acts: seq<Action>, t: Pipe, n: nat)
    requires NoCollision(env) && Inv(env, s) && Handed(s) && Runs(env, s, acts, t) && Stranded(s, n)
    ensures Stranded(t, n)
    decreases |acts|
  {
    hide Handed, Inv, Enabled, Apply, NoCollision, Stranded, Drops;
    if acts == [] {
    } else {
      StepKeepsInv(env, s, acts[0]);
      StepKeepsHands(env, s, acts[0]);
      StrandsIff(env, s, acts[0], n);
      StrandedForEver(env, Apply(env, s, acts[0]), acts[1..], t, n);
    }
  }

  /** In every run, whatever a step drops is pending and in nobody's hand for ever after. */
  lemma DroppedForEver(env: Env, s: Pipe, before: seq<Action>, m: Pipe, a: Action, rest: seq<Action>, t: Pipe, n: nat)
    requires NoCollision(env) && Inv(env, s) && Handed(s) && Runs(env, s, before, m)
    requires Enabled(env, m, a) && Drops(m, a, n) && Runs(env, Apply(env, m, a), rest, t)
    ensures Stranded(t, n) && n !in Acked(t.stream)
  {
    hide Handed, Inv, Enabled, Apply, NoCollision, Stranded, Drops;
    RunKeepsInv(env, s, before, m);
    RunKeepsHands(env, s, before, m);
    StrandsIff(env, m, a, n);
    StepKeepsInv(env, m, a);
    StepKeepsHands(env, m, a);
    StrandedForEver(env, Apply(env, m, a), rest, t, n);
    RunKeepsInv(env, Apply(env, m, a), rest, t);
    StreamPart(env, t);
    PendingNotAcked(t, n);
  }

  lemma PendingNotAcked(s: Pipe, n: nat)
    requires Conserved(s.stream) && Stranded(s, n)
    ensures n !in Acked(s.stream)
  {
  }

  // ---- which pending entries can still become acked ----

  /** Some run from here acknowledges the entry. */
  ghost predicate Ackable(env: Env, s: Pipe, n: nat) {
    exists acts, t :: Runs(env, s, acts, t) && n in Acked(t.stream)
  }

  function Busy(s: Pipe, w: nat): set<nat> {
    set v | v in s.tasks && v != w && s.tasks[v] != Reading
  }

  /** The other workers may crash, and then hold no locks. */
  lemma {:induction false} CrashOthers(env: Env, s: Pipe, w: nat) returns (acts: seq<Action>, t: Pipe)
    requires w in s.tasks
    ensures Runs(env, s, acts, t) && t.table == s.table && t.stream == s.stream
    ensures w in t.tasks && t.tasks[w] == s.tasks[w] && Alone(t, w)
    decreases |Busy(s, w)|
  {
    hide Enabled, Apply;
    if v :| v in Busy(s, w) {
      assert Enabled(env, s, Crash(v)) && Apply(env, s, Crash(v)) == SetTask(s, v, Reading) by {
        CrashStep(env, s, v);
      }
      var m := SetTask(s, v, Reading);
      assert Busy(m, w) == Busy(s, w) - {v};
      var rest;
      rest, t := CrashOthers(env, m, w);
      acts := [Crash(v)] + rest;
      assert acts[1..] == rest;
    } else {
      acts, t := [], s;
      assert forall v :: v in s.tasks && v != w ==> v !in Busy(s, w);
    }
  }

  lemma CrashStep(env: Env, s: Pipe, v: nat)
    requires v in s.tasks
    ensures Enabled(env, s, Crash(v)) && Apply(env, s, Crash(v)) == SetTask(s, v, Reading)
  {
  }

  /** Failing what comes before it, a worker alone brings an entry in its hand to the front. */
  lemma {:induction false} BringUp(env: Env, s: Pipe, w: nat, n: nat) returns (acts: seq<Action>, t: Pipe)
    requires InHand(s, w, n) && Alone(s, w)
    ensures Runs(env, s, acts, t) && t.stream == s.stream && AtHead(t, w, n) && Alone(t, w)
    decreases |Todo(s.tasks[w])|
  {
    hide Enabled, Apply, Holds, AfterHead;
    var todo := Todo(s.tasks[w]);
    if todo[0] == n {
      acts, t := [], s;
    } else {
      var a := if s.tasks[w].Acking? then Ack(w, false) else Fail(w);
      var m := SetTask(s, w, AfterHead(todo));
      assert Enabled(env, s, a) && Apply(env, s, a) == m by {
        FailStep(env, s, w, a);
      }
      AfterHeadTodo(todo);
      var rest;
      rest, t := BringUp(env, m, w, n);
      acts := [a] + rest;
      assert acts[1..] == rest;
    }
  }

  lemma FailStep(env: Env, s: Pipe, w: nat, a: Action)
    requires w in s.tasks && Todo(s.tasks[w]) != [] && a == if s.tasks[w].Acking? then Ack(w, false) else Fail(w)
    ensures Enabled(env, s, a) && Apply(env, s, a) == SetTask(s, w, AfterHead(Todo(s.tasks[w])))
  {
    hide AfterHead;
  }

  /** How many of its own steps a task is from the XACK. */
  function ToGo(k: Task): nat {
    match k
    case Acking(_) => 0
    case InTx(_, _, Inserted(_, _)) => 1
    case InTx(_, _, Deleted(_)) => 2
    case InTx(_, _, Scanning(_)) => 3
    case _ => 4
  }

  function NextStep(s: Pipe, w: nat): Action
    requires w in s.tasks && (s.tasks[w].InTx? || Head(s, s.tasks[w]).Some?)
  {
    match s.tasks[w]
    case InTx(_, _, Inserted(_, _)) => Commit(w, true)
    case InTx(_, _, Deleted(_)) => Insert(w)
    case InTx(_, _, Scanning(_)) => Delete(w)
    case _ =>
      match CategoryOf(Head(s, s.tasks[w]).value.kind)
      case Ephemeral => PassEphemeral(w)
      case Regular => StoreRegular(w, true)
      case _ => Begin(w)
  }

  /** Each of those steps is open to a worker alone and brings it on. */
  lemma NextStepOpen(env: Env, s: Pipe, w: nat)
    requires w in s.tasks && Alone(s, w) && (s.tasks[w].InTx? || Head(s, s.tasks[w]).Some?)
    ensures var a := NextStep(s, w);
      && Enabled(env, s, a)
      && var t := Apply(env, s, a);
         && t.stream == s.stream && w in t.tasks && Todo(t.tasks[w]) == Todo(s.tasks[w])
         && ToGo(t.tasks[w]) < ToGo(s.tasks[w]) && (t.tasks[w].InTx? || t.tasks[w].Acking?) && Alone(t, w)
  {
    hide InsertRow, CommitTable, HasId, SupersededIds, AfterHead;
    var k := s.tasks[w];
    if k.InTx? && k.tx.Inserted? {
      forall v
        ensures v in s.tasks ==> forall id :: Holds(Blind(s.tasks[v], k.tx.dels), id) <==> Holds(s.tasks[v], id)
      {
      }
    }
  }

  /** A worker alone stores and acknowledges the entry at hand. */
  lemma {:induction false} FinishHead(env: Env, s: Pipe, w: nat, n: nat) returns (acts: seq<Action>, t: Pipe)
    requires AtHead(s, w, n) && Alone(s, w) && IsPending(s, n)
    requires n < |s.stream.entries| && s.stream.entries[n].EventJson?
    ensures Runs(env, s, acts, t) && n in Acked(t.stream)
    decreases ToGo(s.tasks[w])
  {
    hide Enabled, Apply, Alone, Acked;
    if s.tasks[w].Acking? {
      AckStep(env, s, w, n);
      t := Apply(env, s, Ack(w, true));
      acts := [Ack(w, true)];
      RunOfOne(env, s, Ack(w, true));
    } else {
      NextStepOpen(env, s, w);
      var a := NextStep(s, w);
      var rest;
      rest, t := FinishHead(env, Apply(env, s, a), w, n);
      acts := [a] + rest;
      assert acts[1..] == rest;
    }
  }

  lemma AckStep(env: Env, s: Pipe, w: nat, n: nat)
    requires AtHead(s, w, n) && s.tasks[w].Acking? && IsPending(s, n)
    ensures Enabled(env, s, Ack(w, true)) && n in Acked(Apply(env, s, Ack(w, true)).stream)
  {
    hide AfterHead;
  }

  /** Exactly which pending entries can still become acked: those some worker has in hand and that parse. */
  lemma AckableIff(env: Env, s: Pipe, n: nat)
    requires NoCollision(env) && Inv(env, s) && Handed(s) && IsPending(s, n) && n < |s.stream.entries|
    ensures Ackable(env, s, n) <==> (exists w :: InHand(s, w, n)) && s.stream.entries[n].EventJson?
  {
    hide Inv, Handed, Alone, NoCollision, Acked, Enabled, Apply;
    if w :| InHand(s, w, n) && s.stream.entries[n].EventJson? {
      var a1, s1 := CrashOthers(env, s, w);
      var a2, s2 := BringUp(env, s1, w, n);
      var a3, t := FinishHead(env, s2, w, n);
      RunsConcat(env, s, a1, s1, a2, s2);
      RunsConcat(env, s, a1 + a2, s2, a3, t);
    }
    if Ackable(env, s, n) {
      var acts, t :| Runs(env, s, acts, t) && n in Acked(t.stream);
      RunKeepsInv(env, s, acts, t);
      AckedParses(env, s, t, n);
      if Stranded(s, n) {
        StrandedForEver(env, s, acts, t, n);
        StreamPart(env, t);
        PendingNotAcked(t, n);
        assert false;
      }
    }
  }

  lemma AckedParses(env: Env, s: Pipe, t: Pipe, n: nat)
    requires Inv(env, t) && Advances(s.stream, t.stream) && n in Acked(t.stream) && n < |s.stream.entries|
    ensures s.stream.entries[n].EventJson?
  {
    hide Conserved, QueueGated, TableGated, TaskOk, LocksApart, Settled, FateOf;
  }

  /** A store that fails strands its entry: queue one event, let a worker read it and fail. */
  lemma FailedEntryStranded(env: Env, e: NostrEvent)
    requires Known(env, e) && !IsEphemeral(e)
    ensures exists acts, t :: Runs(env, EMPTY_PIPE, acts, t) && Stranded(t, 0)
  {
    hide Known, IsEphemeral, Stranded;
    var group0, group1 := Some(Group(0, 0, {}, {})), Some(Group(0, 1, {0}, {}));
    var s1 := Pipe([], Stream([], group0), map[]);
    assert Enabled(env, EMPTY_PIPE, EnsureGroup) && Apply(env, EMPTY_PIPE, EnsureGroup) == s1;
    var s3 := Pipe([], Stream([EventJson(e)], group0), map[7 := Reading]);
    assert s3 == Apply(env, Apply(env, s1, Start(7)), Enqueue(e));
    var s4 := Pipe([], Stream([EventJson(e)], group1), map[7 := Next([0])]);
    ReadOne(env, e, s3, s4);
    var t := Pipe([], Stream([EventJson(e)], group1), map[7 := Reading]);
    FailOne(env, e, s4, t);
    RunOfFour(env, s1, Start(7), Enqueue(e), Read(7, true), Fail(7), t);
    RunOfOne(env, EMPTY_PIPE, EnsureGroup);
    RunsConcat(env, EMPTY_PIPE, [EnsureGroup], s1, [Start(7), Enqueue(e), Read(7, true), Fail(7)], t);
  }

  lemma FailOne(env: Env, e: NostrEvent, s: Pipe, t: Pipe)
    requires s == Pipe([], Stream([EventJson(e)], Some(Group(0, 1, {0}, {}))), map[7 := Next([0])])
    requires t == Pipe([], Stream([EventJson(e)], Some(Group(0, 1, {0}, {}))), map[7 := Reading])
    ensures Enabled(env, s, Fail(7)) && Apply(env, s, Fail(7)) == t && Stranded(t, 0)
  {
    assert s.tasks[7 := Reading] == t.tasks;
  }

  lemma ReadOne(env: Env, e: NostrEvent, s: Pipe, t: Pipe)
    requires s == Pipe([], Stream([EventJson(e)], Some(Group(0, 0, {}, {}))), map[7 := Reading])
    requires t == Pipe([], Stream([EventJson(e)], Some(Group(0, 1, {0}, {}))), map[7 := Next([0])])
    ensures Enabled(env, s, Read(7, true)) && Apply(env, s, Read(7, true)) == t
  {
    assert BatchEnd(s.stream, BATCH_SIZE) == 1;
    assert Batch(s.stream.entries, 1, 1) == [] && Batch(s.stream.entries, 0, 1) == [0];
    assert Span(0, 1) == {0};
    assert ReadGroup(s.stream, BATCH_SIZE) == t.stream;
    assert s.tasks[7 := Next([0])] == t.tasks;
  }
}
