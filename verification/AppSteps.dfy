/** Runs of the relay machine built up one step at a time, for code that follows it. */
module AppSteps {
  import opened Base
  import opened Events
  import opened Filters
  import opened Subscriptions
  import opened Table
  import opened Streams
  import opened Protocol
  import opened Relay
  import opened RelayInv
  import RelaySteps
  import Sql

  /** Some run leads from `s` to `t`. */
  ghost predicate Leads(env: Env, s: Sys, t: Sys) {
    exists steps :: Runs(env, s, steps, t)
  }

  lemma LeadsNowhere(env: Env, s: Sys)
    ensures Leads(env, s, s)
  {
    assert Runs(env, s, [], s);
  }

  lemma {:induction false} RunsAppend(env: Env, s: Sys, steps: seq<Step>, t: Sys, st: Step)
    requires Runs(env, s, steps, t) && Enabled(env, t, st)
    ensures Runs(env, s, steps + [st], Apply(env, t, st))
    decreases |steps|
  {
    hide Enabled, Apply;
    var u := Apply(env, t, st);
    if steps == [] {
      assert [] + [st] == [st] && [st][1..] == [];
      assert Runs(env, u, [], u);
    } else {
      RunsAppend(env, Apply(env, s, steps[0]), steps[1..], t, st);
      assert (steps + [st])[1..] == steps[1..] + [st];
    }
  }

  /** One more step keeps the invariants. */
  lemma Taken(env: Env, s: Sys, t: Sys, st: Step)
    requires NoCollision(env) && Leads(env, s, t) && SysInv(env, t) && Enabled(env, t, st)
    ensures Leads(env, s, Apply(env, t, st)) && SysInv(env, Apply(env, t, st))
  {
    hide Enabled, Apply, SysInv, NoCollision, Runs;
    var steps :| Runs(env, s, steps, t);
    RunsAppend(env, s, steps, t, st);
    RelaySteps.StepKept(env, t, st);
  }

  ghost predicate Good(env: Env, s: Sys, t: Sys) {
    NoCollision(env) && Leads(env, s, t) && SysInv(env, t)
  }

  lemma {:induction false} RunsConcat(env: Env, s: Sys, a: seq<Step>, m: Sys, b: seq<Step>, t: Sys)
    requires Runs(env, s, a, m) && Runs(env, m, b, t)
    ensures Runs(env, s, a + b, t)
    decreases |a|
  {
    hide Enabled, Apply;
    if a == [] {
      assert a + b == b;
    } else {
      RunsConcat(env, Apply(env, s, a[0]), a[1..], m, b, t);
      assert (a + b)[1..] == a[1..] + b;
    }
  }

  lemma LeadsOn(env: Env, s: Sys, m: Sys, t: Sys)
    requires Leads(env, s, m) && Leads(env, m, t)
    ensures Leads(env, s, t)
  {
    hide Runs;
    var a :| Runs(env, s, a, m);
    var b :| Runs(env, m, b, t);
    RunsConcat(env, s, a, m, b, t);
  }

  lemma TakeConnect(env: Env, s: Sys, clock: U64)
    requires NoCollision(env) && SysInv(env, s) && s.issued < TWO_64 && NoReaders(s)
    ensures Good(env, s, DoConnect(s, clock))
  {
    hide SysInv, Leads, NoCollision, NoReaders, DoConnect;
    LeadsNowhere(env, s);
    Taken(env, s, s, Connect(clock));
  }

  // ---- one handler at work ----

  /** A run from `s` to `t` in which only the handler of `c` moved; its log is now `log`. */
  ghost predicate Follows(env: Env, s: Sys, t: Sys, c: string, log: seq<Outcome>) {
    Good(env, s, t) && OnlyConn(s, t, c) && t.conns[c].log == log
  }

  ghost predicate OnlyConn(s: Sys, t: Sys, c: string) {
    c in s.conns && c in t.conns && t.conns == s.conns[c := t.conns[c]] && t.issued == s.issued
  }

  lemma FollowsStart(env: Env, s: Sys, c: string)
    requires NoCollision(env) && SysInv(env, s) && c in s.conns
    ensures Follows(env, s, s, c, s.conns[c].log)
  {
    hide NoCollision, SysInv, Leads;
    LeadsNowhere(env, s);
  }

  lemma FollowsParts(env: Env, s: Sys, t: Sys, c: string, log: seq<Outcome>)
    requires Follows(env, s, t, c, log)
    ensures NoCollision(env) && Leads(env, s, t) && SysInv(env, t)
    ensures c in s.conns && c in t.conns && t.conns == s.conns[c := t.conns[c]] && t.issued == s.issued
    ensures t.conns[c].log == log
  {
  }

  lemma FollowsOn(env: Env, s: Sys, m: Sys, t: Sys, c: string, log: seq<Outcome>, log': seq<Outcome>)
    requires Follows(env, s, m, c, log) && Follows(env, m, t, c, log')
    ensures Follows(env, s, t, c, log')
  {
    hide NoCollision, SysInv, Leads;
    LeadsOn(env, s, m, t);
  }

  /** One more step, by which the handler comes to `p` and its log to `log'`. */
  lemma Followed(env: Env, s: Sys, t: Sys, c: string, log: seq<Outcome>, st: Step, u: Sys, p: Phase, log': seq<Outcome>)
    requires Follows(env, s, t, c, log) && Enabled(env, t, st) && u == Apply(env, t, st)
    requires u.conns == t.conns[c := Conn(p, log')] && u.issued == t.issued
    ensures Follows(env, s, u, c, log') && PhaseOf(u, c) == p
  {
    hide Enabled, Apply, SysInv, Leads, NoCollision;
    Taken(env, s, t, st);
  }

  /** The handler of `c` stands at `p`. */
  predicate Stands(t: Sys, c: string, p: Phase) {
    c in t.conns && PhaseOf(t, c) == p
  }

  lemma TakeReceive(env: Env, s: Sys, t: Sys, c: string, log: seq<Outcome>, frame: Frame)
    requires Follows(env, s, t, c, log) && Stands(t, c, Idle) && FrameSent(env, frame)
    ensures var u := SetPhase(t, c, OnFrame(env, frame));
      Follows(env, s, u, c, log) && Stands(u, c, OnFrame(env, frame)) && u == t.(conns := u.conns)
  {
    hide Good, OnFrame, FrameSent;
    Followed(env, s, t, c, log, Receive(c, frame), SetPhase(t, c, OnFrame(env, frame)), OnFrame(env, frame), log);
  }

  /** Where the duplicate check leaves the handler of an event. */
  function Checked(e: NostrEvent, fails: bool, known: bool): Phase {
    if fails then Answering(e.id, Some(DatabaseError), None)
    else if known then Answering(e.id, Some(Duplicate), None)
    else Routing(e)
  }

  lemma TakeCheck(env: Env, s: Sys, t: Sys, c: string, log: seq<Outcome>, e: NostrEvent, fails: bool)
    requires Follows(env, s, t, c, log) && Stands(t, c, Checking(e))
    ensures var u, p := DoCheck(t, c, fails), Checked(e, fails, HasId(t.pipe.table, e.id));
      Follows(env, s, u, c, log) && Stands(u, c, p) && u == t.(conns := u.conns)
  {
    hide Good, HasId;
    Followed(env, s, t, c, log, Check(c, fails), DoCheck(t, c, fails), Checked(e, fails, HasId(t.pipe.table, e.id)),
      log);
  }

  /** Where the XADD leaves it; ephemeral events make none. */
  function Routed(e: NostrEvent, n: nat, fault: Fault): Phase {
    if IsEphemeral(e) then Snapshotting(e, None)
    else if fault.Works? then Snapshotting(e, Some(n))
    else Answering(e.id, Some(EnqueueError), None)
  }

  function AfterRoute(stream: Stream, e: NostrEvent, fault: Fault): Stream {
    if IsEphemeral(e) || fault.Fails? then stream else Xadd(stream, EventJson(e))
  }

  lemma TakeRoute(env: Env, s: Sys, t: Sys, c: string, log: seq<Outcome>, e: NostrEvent, fault: Fault)
    requires Follows(env, s, t, c, log) && Stands(t, c, Routing(e))
    ensures var u, p := DoRoute(t, c, fault), Routed(e, |t.pipe.stream.entries|, fault);
      && Follows(env, s, u, c, log) && Stands(u, c, p)
      && u == t.(conns := u.conns, pipe := t.pipe.(stream := AfterRoute(t.pipe.stream, e, fault)))
  {
    hide Good, IsEphemeral, Xadd;
    Followed(env, s, t, c, log, Route(c, fault), DoRoute(t, c, fault), Routed(e, |t.pipe.stream.entries|, fault), log);
  }

  /** Where a broadcast stands when `i` of its targets are served. */
  function CastPhase(no: nat, i: nat, targets: seq<Pair>, e: NostrEvent): Phase {
    if i < |targets| then Sending(no, i) else Answering(e.id, None, Some(no))
  }

  lemma TakeSnapshot(
      env: Env, s: Sys, t: Sys, c: string, log: seq<Outcome>, e: NostrEvent, entry: Option<nat>, targets: seq<Pair>)
    requires Follows(env, s, t, c, log) && Stands(t, c, Snapshotting(e, entry)) && Distinct(targets)
    requires forall p :: p in targets <==> MatchesPair(t.subs, p, e)
    ensures var u := DoSnapshot(t, c, targets);
      && Follows(env, s, u, c, log) && Stands(u, c, CastPhase(|t.casts|, 0, targets, e))
      && u == t.(conns := u.conns, casts := t.casts + [Cast(e, entry, targets, t.subs)])
  {
    hide Good, MatchesPair, Distinct;
    Followed(env, s, t, c, log, Snapshot(c, targets), DoSnapshot(t, c, targets), CastPhase(|t.casts|, 0, targets, e),
      log);
  }

  /** A send on the channel of `c`, as `Post` makes it. */
  function PostTo(out: map<string, seq<Sent>>, clients: set<string>, c: string, m: Sent): map<string, seq<Sent>> {
    if c in clients && c in out then out[c := out[c] + [m]] else out
  }

  lemma TakeSend(env: Env, s: Sys, t: Sys, c: string, log: seq<Outcome>, k: nat, i: nat)
    requires Follows(env, s, t, c, log) && Stands(t, c, Sending(k, i)) && k < |t.casts| && i < |t.casts[k].targets|
    ensures var u, cast := DoSend(t, c), t.casts[k];
      var m := Sent(EventMsg(cast.targets[i].1, cast.event), Live(k));
      && Follows(env, s, u, c, log) && Stands(u, c, CastPhase(k, i + 1, cast.targets, cast.event))
      && u == t.(conns := u.conns, outbox := PostTo(t.outbox, t.clients, cast.targets[i].0, m))
  {
    hide Good;
    var cast := t.casts[k];
    Followed(env, s, t, c, log, Send(c), DoSend(t, c), CastPhase(k, i + 1, cast.targets, cast.event), log);
  }

  lemma TakeAnswer(
      env: Env, s: Sys, t: Sys, c: string, log: seq<Outcome>, id: string, why: Option<Refusal>, cast: Option<nat>)
    requires Follows(env, s, t, c, log) && Stands(t, c, Answering(id, why, cast))
    ensures var u := DoAnswer(t, c);
      && Follows(env, s, u, c, log + [Answered(id, why, cast)]) && Stands(u, c, Idle)
      && u == t.(conns := u.conns, outbox := PostTo(t.outbox, t.clients, c, Sent(OkMsg(id, why), Reply)))
  {
    hide Good;
    Followed(env, s, t, c, log, Answer(c), DoAnswer(t, c), Idle, log + [Answered(id, why, cast)]);
  }

  lemma TakeComplain(env: Env, s: Sys, t: Sys, c: string, log: seq<Outcome>, complaint: Complaint)
    requires Follows(env, s, t, c, log) && Stands(t, c, Complaining(complaint))
    ensures var u := DoComplain(t, c);
      && Follows(env, s, u, c, log + [Complained(complaint)]) && Stands(u, c, Idle)
      && u == t.(conns := u.conns, outbox := PostTo(t.outbox, t.clients, c, Sent(NoticeMsg(complaint), Reply)))
  {
    hide Good;
    Followed(env, s, t, c, log, Complain(c), DoComplain(t, c), Idle, log + [Complained(complaint)]);
  }

  lemma TakeCount(env: Env, s: Sys, t: Sys, c: string, log: seq<Outcome>, sub: string, filters: seq<Filter>)
    requires Follows(env, s, t, c, log) && Stands(t, c, Counting(sub, filters))
    ensures var u := DoCount(env, t, c);
      var p := if |SubsOf(t.subs, c)| >= env.maxSubscriptions then Complaining(TooManySubscriptions)
        else Adding(sub, filters);
      Follows(env, s, u, c, log) && Stands(u, c, p) && u == t.(conns := u.conns)
  {
    hide Good;
    var p := if |SubsOf(t.subs, c)| >= env.maxSubscriptions then Complaining(TooManySubscriptions)
      else Adding(sub, filters);
    Followed(env, s, t, c, log, Count(c), DoCount(env, t, c), p, log);
  }

  lemma TakeAdd(env: Env, s: Sys, t: Sys, c: string, log: seq<Outcome>, sub: string, filters: seq<Filter>)
    requires Follows(env, s, t, c, log) && Stands(t, c, Adding(sub, filters))
    ensures var u, r := DoAdd(t, c), |t.regs|;
      && Follows(env, s, u, c, log) && Stands(u, c, Querying(r, []))
      && u == t.(conns := u.conns, subs := AddSub(t.subs, c, sub, filters),
                 regs := t.regs + [Reg(c, sub, filters, |t.casts|)], live := u.live)
  {
    hide Good, AddSub;
    Followed(env, s, t, c, log, Step.Add(c), DoAdd(t, c), Querying(|t.regs|, []), log);
  }

  /** Where a query leaves the handler of a REQ. */
  function Queried(r: nat, queries: seq<QueryRec>): Phase {
    if LastRows(queries) == [] then Querying(r, queries) else Replaying(r, queries, 0)
  }

  lemma TakeQuery(
      env: Env, s: Sys, t: Sys, c: string, log: seq<Outcome>, r: nat, queries: seq<QueryRec>, answer: Option<seq<Row>>)
    requires Follows(env, s, t, c, log) && Stands(t, c, Querying(r, queries)) && r < |t.regs|
    requires |queries| < |t.regs[r].filters|
    requires answer.Some? ==>
      var f := t.regs[r].filters[|queries|];
      HistoryLimit(env, f) < TWO_63 && Sql.IsAnswer(t.pipe.table, Asked(f), HistoryLimit(env, f), answer.value)
    ensures var u, q := DoQuery(t, c, answer), RecordOf(t, t.regs[r].filters[|queries|], answer);
      Follows(env, s, u, c, log) && Stands(u, c, Queried(r, queries + [q])) && u == t.(conns := u.conns)
  {
    hide Good, HistoryLimit, Sql.IsAnswer, Asked, Acked;
    var q := RecordOf(t, t.regs[r].filters[|queries|], answer);
    Followed(env, s, t, c, log, Query(c, answer), DoQuery(t, c, answer), Queried(r, queries + [q]), log);
  }

  /** Where the handler stands when `i` of the rows are sent. */
  function ReplayPhase(r: nat, queries: seq<QueryRec>, i: nat): Phase {
    if i < |LastRows(queries)| then Replaying(r, queries, i) else Querying(r, queries)
  }

  lemma TakeReplay(env: Env, s: Sys, t: Sys, c: string, log: seq<Outcome>, r: nat, queries: seq<QueryRec>, i: nat)
    requires Follows(env, s, t, c, log) && Stands(t, c, Replaying(r, queries, i)) && r < |t.regs|
    requires i < |LastRows(queries)|
    ensures var u := DoReplay(t, c);
      var m := Sent(EventMsg(t.regs[r].sub, FromRow(LastRows(queries)[i])), Reply);
      && Follows(env, s, u, c, log) && Stands(u, c, ReplayPhase(r, queries, i + 1))
      && u == t.(conns := u.conns, outbox := PostTo(t.outbox, t.clients, c, m))
  {
    hide Good, FromRow;
    Followed(env, s, t, c, log, Step.Replay(c), DoReplay(t, c), ReplayPhase(r, queries, i + 1), log);
  }

  lemma TakeEose(env: Env, s: Sys, t: Sys, c: string, log: seq<Outcome>, r: nat, queries: seq<QueryRec>)
    requires Follows(env, s, t, c, log) && Stands(t, c, Querying(r, queries)) && r < |t.regs|
    requires |queries| == |t.regs[r].filters|
    ensures var u, sub := DoEose(t, c), t.regs[r].sub;
      && Follows(env, s, u, c, log + [Subscribed(r, sub, queries)]) && Stands(u, c, Idle)
      && u == t.(conns := u.conns, outbox := PostTo(t.outbox, t.clients, c, Sent(EoseMsg(sub), Reply)))
  {
    hide Good;
    Followed(env, s, t, c, log, Eose(c), DoEose(t, c), Idle, log + [Subscribed(r, t.regs[r].sub, queries)]);
  }

  lemma TakeClose(env: Env, s: Sys, t: Sys, c: string, log: seq<Outcome>, sub: string)
    requires Follows(env, s, t, c, log) && Stands(t, c, Closing(sub))
    ensures var u := DoCloseSub(t, c);
      && Follows(env, s, u, c, log + [Unsubscribed(sub)]) && Stands(u, c, Idle)
      && u == t.(conns := u.conns, subs := RemoveSub(t.subs, c, sub), live := u.live)
  {
    hide Good, RemoveSub;
    Followed(env, s, t, c, log, CloseSub(c), DoCloseSub(t, c), Idle, log + [Unsubscribed(sub)]);
  }

  lemma TakeDeregister(env: Env, s: Sys, t: Sys, c: string, log: seq<Outcome>)
    requires Follows(env, s, t, c, log) && Stands(t, c, Departing) && NoReaders(t)
    ensures var u := DoDeregister(t, c);
      Follows(env, s, u, c, log) && Stands(u, c, Leaving) && u == t.(conns := u.conns, clients := t.clients - {c})
  {
    hide Good, NoReaders;
    Followed(env, s, t, c, log, Deregister(c), DoDeregister(t, c), Leaving, log);
  }

  lemma TakeForget(env: Env, s: Sys, t: Sys, c: string, log: seq<Outcome>)
    requires Follows(env, s, t, c, log) && Stands(t, c, Leaving)
    ensures var u := DoForget(t, c);
      && Follows(env, s, u, c, log) && Stands(u, c, Gone)
      && u == t.(conns := u.conns, subs := RemoveClient(t.subs, c), live := u.live)
  {
    hide Good, RemoveClient;
    Followed(env, s, t, c, log, Forget(c), DoForget(t, c), Gone, log);
  }
}
