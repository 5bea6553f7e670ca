/** The relay as one machine: connections whose handlers take one lock or make one remote call
    at a time and interleave freely with each other and with the write pipeline
    (src/websocket/mod.rs, src/relay/mod.rs, src/service/mod.rs, src/subscription/mod.rs). */
module Relay {
  import opened Base
  import opened Events
  import opened Filters
  import opened Subscriptions
  import opened Table
  import opened Streams
  import opened Protocol
  import ClientIds
  import P = Pipeline
  import Sql

  /** Bookkeeping on a message: pushed by a broadcast, or a reply to the client's own frame. */
  datatype Origin = Live(cast: nat) | Reply

  datatype Sent = Sent(msg: Msg, origin: Origin)

  /** One history query of a REQ: what it saw and what it returned. */
  datatype QueryRec = QueryRec(filter: Filter, ok: bool, db: seq<Row>, acked: set<nat>, rows: seq<Row>)

  /** How the relay dealt with a frame. `cast` is the broadcast of an accepted event. */
  datatype Outcome =
    | Answered(id: string, why: Option<Refusal>, cast: Option<nat>)
    | Complained(complaint: Complaint)
    | Subscribed(reg: nat, sub: string, queries: seq<QueryRec>)
    | Unsubscribed(sub: string)

  /** Where a connection's handler stands. */
  datatype Phase =
    | Idle
    | Checking(e: NostrEvent)
    | Routing(e: NostrEvent)
    | Snapshotting(e: NostrEvent, entry: Option<nat>)
    | Sending(no: nat, next: nat)
    | Answering(id: string, why: Option<Refusal>, cast: Option<nat>)
    | Complaining(complaint: Complaint)
    | Counting(sub: string, filters: seq<Filter>)
    | Adding(sub: string, filters: seq<Filter>)
    | Querying(reg: nat, queries: seq<QueryRec>)
    | Replaying(reg: nat, queries: seq<QueryRec>, next: nat)
    | Closing(sub: string)
    | Departing
    | Leaving
    | Gone

  datatype Conn = Conn(phase: Phase, log: seq<Outcome>)

  /** A registration of a subscription, made when `castsBefore` broadcasts had been snapshotted. */
  datatype Reg = Reg(client: string, sub: string, filters: seq<Filter>, castsBefore: nat)

  /** A broadcast: its event, stream entry, and the subscriptions when the snapshot was taken. */
  datatype Cast = Cast(event: NostrEvent, entry: Option<nat>, targets: seq<Pair>, subs: SubMap)

  datatype Sys = Sys(
    pipe: P.Pipe,
    issued: nat,
    subs: SubMap,
    clients: set<string>,
    outbox: map<string, seq<Sent>>,
    conns: map<string, Conn>,
    casts: seq<Cast>,
    regs: seq<Reg>,
    live: map<Pair, nat>)

  const EMPTY_SYS := Sys(P.EMPTY_PIPE, 0, map[], {}, map[], map[], [], [], map[])

  datatype Step =
    | Work(a: P.Action)
    | Connect(clock: U64)
    | Receive(c: string, frame: Frame)
    | Check(c: string, fails: bool)
    | Route(c: string, fault: Fault)
    | Snapshot(c: string, targets: seq<Pair>)
    | Send(c: string)
    | Answer(c: string)
    | Complain(c: string)
    | Count(c: string)
    | Add(c: string)
    | Query(c: string, answer: Option<seq<Row>>)
    | Replay(c: string)
    | Eose(c: string)
    | CloseSub(c: string)
    | Deregister(c: string)
    | Forget(c: string)

  // ---- state updates ----

  function SetPhase(s: Sys, c: string, p: Phase): Sys
    requires c in s.conns
  {
    s.(conns := s.conns[c := s.conns[c].(phase := p)])
  }

  function Finish(s: Sys, c: string, o: Outcome): Sys
    requires c in s.conns
  {
    s.(conns := s.conns[c := Conn(Idle, s.conns[c].log + [o])])
  }

  /** A send on the channel of `c`, dropped unless `c` is registered. */
  function Post(s: Sys, c: string, m: Sent): Sys {
    if c in s.clients && c in s.outbox then s.(outbox := s.outbox[c := s.outbox[c] + [m]]) else s
  }

  /** The read lock on the client registry is held across the sends of one loop. */
  predicate HoldsClients(p: Phase) {
    (p.Sending? && p.next > 0) || (p.Replaying? && p.next > 0)
  }

  predicate NoReaders(s: Sys) {
    forall c :: c in s.conns ==> !HoldsClients(s.conns[c].phase)
  }

  predicate At(s: Sys, c: string) {
    c in s.conns
  }

  function PhaseOf(s: Sys, c: string): Phase
    requires c in s.conns
  {
    s.conns[c].phase
  }

  function Asked(f: Filter): Row -> bool {
    r => Sql.WantedBy(f, r)
  }

  function LastRows(queries: seq<QueryRec>): seq<Row> {
    if queries == [] then [] else queries[|queries| - 1].rows
  }

  /** An event's row is looked up by id before it is queued. */
  function AfterGate(env: Env, e: NostrEvent): Phase {
    match Gate(env, e)
    case Some(why) => Answering(e.id, Some(why), None)
    case None => if IsEphemeral(e) then Routing(e) else Checking(e)
  }

  function OnRequest(env: Env, request: Request): Phase {
    match request
    case BadRequest => Complaining(BadMessage)
    case EventRequest(e) => AfterGate(env, e)
    case ReqRequest(sub, filters) =>
      if |filters| > env.maxFilters then Complaining(TooManyFilters) else Counting(sub, filters)
    case CloseRequest(sub) => Closing(sub)
  }

  function OnFrame(env: Env, frame: Frame): Phase {
    match frame
    case TextFrame(body) => OnRequest(env, Parse(body))
    case PingFrame => Idle
    case OtherFrame => Idle
    case CloseFrame => Departing
  }

  /** An event that a frame carries is one that is sent. */
  predicate FrameSent(env: Env, frame: Frame) {
    frame.TextFrame? && Parse(frame.body).EventRequest? ==> env.sent(Parse(frame.body).event)
  }

  /** The relay when it starts over what earlier runs left in table and stream. */
  function Started(pipe: P.Pipe): Sys {
    EMPTY_SYS.(pipe := pipe)
  }

  ghost predicate Enabled(env: Env, s: Sys, st: Step) {
    match st
    case Work(a) => !a.Enqueue? && P.Enabled(env, s.pipe, a)
    case Connect(_) => s.issued < TWO_64 && NoReaders(s)
    case Receive(c, frame) => At(s, c) && PhaseOf(s, c).Idle? && FrameSent(env, frame)
    case Check(c, _) => At(s, c) && PhaseOf(s, c).Checking?
    case Route(c, _) => At(s, c) && PhaseOf(s, c).Routing?
    case Snapshot(c, targets) => At(s, c) && PhaseOf(s, c).Snapshotting? && Distinct(targets) &&
      forall p :: p in targets <==> MatchesPair(s.subs, p, PhaseOf(s, c).e)
    case Send(c) => At(s, c) && PhaseOf(s, c).Sending? && PhaseOf(s, c).no < |s.casts| &&
      PhaseOf(s, c).next < |s.casts[PhaseOf(s, c).no].targets|
    case Answer(c) => At(s, c) && PhaseOf(s, c).Answering?
    case Complain(c) => At(s, c) && PhaseOf(s, c).Complaining?
    case Count(c) => At(s, c) && PhaseOf(s, c).Counting?
    case Add(c) => At(s, c) && PhaseOf(s, c).Adding?
    case Query(c, answer) => At(s, c) && PhaseOf(s, c).Querying? && PhaseOf(s, c).reg < |s.regs| &&
      var filters := s.regs[PhaseOf(s, c).reg].filters;
      |PhaseOf(s, c).queries| < |filters| &&
      var f := filters[|PhaseOf(s, c).queries|];
      (answer.Some? ==> HistoryLimit(env, f) < TWO_63 &&
                        Sql.IsAnswer(s.pipe.table, Asked(f), HistoryLimit(env, f), answer.value))
    case Replay(c) => At(s, c) && PhaseOf(s, c).Replaying? && PhaseOf(s, c).reg < |s.regs| &&
      PhaseOf(s, c).next < |LastRows(PhaseOf(s, c).queries)|
    case Eose(c) => At(s, c) && PhaseOf(s, c).Querying? && PhaseOf(s, c).reg < |s.regs| &&
      |PhaseOf(s, c).queries| == |s.regs[PhaseOf(s, c).reg].filters|
    case CloseSub(c) => At(s, c) && PhaseOf(s, c).Closing?
    case Deregister(c) => At(s, c) && PhaseOf(s, c).Departing? && NoReaders(s)
    case Forget(c) => At(s, c) && PhaseOf(s, c).Leaving?
  }

  // ---- steps ----

  function DoConnect(s: Sys, clock: U64): Sys {
    var id := ClientIds.IdText(clock, s.issued % TWO_64);
    s.(issued := s.issued + 1, clients := s.clients + {id},
       outbox := s.outbox[id := []], conns := s.conns[id := Conn(Idle, [])])
  }

  function DoCheck(s: Sys, c: string, fails: bool): Sys
    requires c in s.conns && PhaseOf(s, c).Checking?
  {
    var e := PhaseOf(s, c).e;
    if fails then SetPhase(s, c, Answering(e.id, Some(DatabaseError), None))
    else if HasId(s.pipe.table, e.id) then SetPhase(s, c, Answering(e.id, Some(Duplicate), None))
    else SetPhase(s, c, Routing(e))
  }

  /** Ephemeral events are published, and a failure to do so ignored; others go to the stream. */
  function DoRoute(s: Sys, c: string, fault: Fault): Sys
    requires c in s.conns && PhaseOf(s, c).Routing?
  {
    var e := PhaseOf(s, c).e;
    if IsEphemeral(e) then SetPhase(s, c, Snapshotting(e, None))
    else
      var n := |s.pipe.stream.entries|;
      var queued := s.(pipe := s.pipe.(stream := Xadd(s.pipe.stream, EventJson(e))));
      match fault
      case Works => SetPhase(queued, c, Snapshotting(e, Some(n)))
      case ReplyLost => SetPhase(queued, c, Answering(e.id, Some(EnqueueError), None))
      case Fails => SetPhase(s, c, Answering(e.id, Some(EnqueueError), None))
  }

  function DoSnapshot(s: Sys, c: string, targets: seq<Pair>): Sys
    requires c in s.conns && PhaseOf(s, c).Snapshotting?
  {
    var p := PhaseOf(s, c);
    var s' := s.(casts := s.casts + [Cast(p.e, p.entry, targets, s.subs)]);
    SetPhase(s', c, if targets == [] then Answering(p.e.id, None, Some(|s.casts|)) else Sending(|s.casts|, 0))
  }

  function DoSend(s: Sys, c: string): Sys
    requires c in s.conns && PhaseOf(s, c).Sending? && PhaseOf(s, c).no < |s.casts|
    requires PhaseOf(s, c).next < |s.casts[PhaseOf(s, c).no].targets|
  {
    var k, i := PhaseOf(s, c).no, PhaseOf(s, c).next;
    var cast := s.casts[k];
    var s' := Post(s, cast.targets[i].0, Sent(EventMsg(cast.targets[i].1, cast.event), Live(k)));
    SetPhase(s', c, if i + 1 < |cast.targets| then Sending(k, i + 1) else Answering(cast.event.id, None, Some(k)))
  }

  function DoAnswer(s: Sys, c: string): Sys
    requires c in s.conns && PhaseOf(s, c).Answering?
  {
    var p := PhaseOf(s, c);
    Finish(Post(s, c, Sent(OkMsg(p.id, p.why), Reply)), c, Answered(p.id, p.why, p.cast))
  }

  function DoComplain(s: Sys, c: string): Sys
    requires c in s.conns && PhaseOf(s, c).Complaining?
  {
    var p := PhaseOf(s, c);
    Finish(Post(s, c, Sent(NoticeMsg(p.complaint), Reply)), c, Complained(p.complaint))
  }

  function DoCount(env: Env, s: Sys, c: string): Sys
    requires c in s.conns && PhaseOf(s, c).Counting?
  {
    var p := PhaseOf(s, c);
    SetPhase(s, c, if |SubsOf(s.subs, c)| >= env.maxSubscriptions then Complaining(TooManySubscriptions)
                   else Adding(p.sub, p.filters))
  }

  function DoAdd(s: Sys, c: string): Sys
    requires c in s.conns && PhaseOf(s, c).Adding?
  {
    var p := PhaseOf(s, c);
    var r := |s.regs|;
    SetPhase(s, c, Querying(r, [])).(
      subs := AddSub(s.subs, c, p.sub, p.filters),
      regs := s.regs + [Reg(c, p.sub, p.filters, |s.casts|)],
      live := s.live[(c, p.sub) := r])
  }

  /** What a query saw, and its answer: a failed query counts as an empty one. */
  function RecordOf(s: Sys, f: Filter, answer: Option<seq<Row>>): QueryRec {
    QueryRec(f, answer.Some?, s.pipe.table, Acked(s.pipe.stream), match answer case Some(rows) => rows case None => [])
  }

  function DoQuery(s: Sys, c: string, answer: Option<seq<Row>>): Sys
    requires c in s.conns && PhaseOf(s, c).Querying? && PhaseOf(s, c).reg < |s.regs|
    requires |PhaseOf(s, c).queries| < |s.regs[PhaseOf(s, c).reg].filters|
  {
    var p := PhaseOf(s, c);
    var f := s.regs[p.reg].filters[|p.queries|];
    var q := RecordOf(s, f, answer);
    var queries := p.queries + [q];
    SetPhase(s, c, if q.rows == [] then Querying(p.reg, queries) else Replaying(p.reg, queries, 0))
  }

  function DoReplay(s: Sys, c: string): Sys
    requires c in s.conns && PhaseOf(s, c).Replaying? && PhaseOf(s, c).reg < |s.regs|
    requires PhaseOf(s, c).next < |LastRows(PhaseOf(s, c).queries)|
  {
    var p := PhaseOf(s, c);
    var rows := LastRows(p.queries);
    var s' := Post(s, c, Sent(EventMsg(s.regs[p.reg].sub, FromRow(rows[p.next])), Reply));
    SetPhase(s', c, if p.next + 1 < |rows| then Replaying(p.reg, p.queries, p.next + 1) else Querying(p.reg, p.queries))
  }

  function DoEose(s: Sys, c: string): Sys
    requires c in s.conns && PhaseOf(s, c).Querying? && PhaseOf(s, c).reg < |s.regs|
  {
    var p := PhaseOf(s, c);
    var sub := s.regs[p.reg].sub;
    Finish(Post(s, c, Sent(EoseMsg(sub), Reply)), c, Subscribed(p.reg, sub, p.queries))
  }

  function DoCloseSub(s: Sys, c: string): Sys
    requires c in s.conns && PhaseOf(s, c).Closing?
  {
    var sub := PhaseOf(s, c).sub;
    Finish(s, c, Unsubscribed(sub)).(subs := RemoveSub(s.subs, c, sub), live := s.live - {(c, sub)})
  }

  function LiveOf(live: map<Pair, nat>, c: string): set<Pair> {
    set p | p in live && p.0 == c
  }

  function DoDeregister(s: Sys, c: string): Sys
    requires c in s.conns
  {
    SetPhase(s, c, Leaving).(clients := s.clients - {c})
  }

  function DoForget(s: Sys, c: string): Sys
    requires c in s.conns
  {
    SetPhase(s, c, Gone).(subs := RemoveClient(s.subs, c), live := s.live - LiveOf(s.live, c))
  }

  function Apply(env: Env, s: Sys, st: Step): Sys
    requires Enabled(env, s, st)
  {
    match st
    case Work(a) => s.(pipe := P.Apply(env, s.pipe, a))
    case Connect(clock) => DoConnect(s, clock)
    case Receive(c, frame) => SetPhase(s, c, OnFrame(env, frame))
    case Check(c, fails) => DoCheck(s, c, fails)
    case Route(c, fault) => DoRoute(s, c, fault)
    case Snapshot(c, targets) => DoSnapshot(s, c, targets)
    case Send(c) => DoSend(s, c)
    case Answer(c) => DoAnswer(s, c)
    case Complain(c) => DoComplain(s, c)
    case Count(c) => DoCount(env, s, c)
    case Add(c) => DoAdd(s, c)
    case Query(c, answer) => DoQuery(s, c, answer)
    case Replay(c) => DoReplay(s, c)
    case Eose(c) => DoEose(s, c)
    case CloseSub(c) => DoCloseSub(s, c)
    case Deregister(c) => DoDeregister(s, c)
    case Forget(c) => DoForget(s, c)
  }

  /** `steps` leads from `s` to `t`. */
  ghost predicate Runs(env: Env, s: Sys, steps: seq<Step>, t: Sys)
    decreases |steps|
  {
    if steps == [] then t == s
    else Enabled(env, s, steps[0]) && Runs(env, Apply(env, s, steps[0]), steps[1..], t)
  }
}
