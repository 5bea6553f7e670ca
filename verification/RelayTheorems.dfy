/** What the relay promises over every run, whatever the interleaving of connections and workers. */
module RelayTheorems {
  import opened Base
  import opened Events
  import opened Filters
  import opened Subscriptions
  import opened Table
  import opened Streams
  import opened Protocol
  import opened Relay
  import opened RelayInv
  import RelaySteps
  import P = Pipeline
  import PR = PipelineRuns
  import Sql

  /** What earlier runs of the relay may have left, before any worker starts. */
  ghost predicate Inherited(env: Env, pipe: P.Pipe) {
    P.Inv(env, pipe) && pipe.tasks == map[]
  }

  /** `t` is a state some run reaches, from an empty table and stream or from what earlier runs left. */
  ghost predicate Reached(env: Env, steps: seq<Step>, t: Sys) {
    NoCollision(env) && exists pipe :: Inherited(env, pipe) && Runs(env, Started(pipe), steps, t)
  }

  /** Whatever a run reaches from nothing at all is reached: all that follows holds of it. */
  lemma ReachedFromNothing(env: Env, steps: seq<Step>, t: Sys)
    requires NoCollision(env) && Runs(env, EMPTY_SYS, steps, t)
    ensures Reached(env, steps, t)
  {
    hide NoCollision, Runs;
    assert Inherited(env, P.EMPTY_PIPE) && Started(P.EMPTY_PIPE) == EMPTY_SYS;
  }

  lemma ReachedInv(env: Env, steps: seq<Step>, t: Sys)
    requires Reached(env, steps, t)
    ensures SysInv(env, t)
  {
    hide P.Inv;
    var pipe :| Inherited(env, pipe) && Runs(env, Started(pipe), steps, t);
    RelaySteps.StartedInv(env, pipe);
    RelaySteps.RunKept(env, Started(pipe), steps, t);
  }

  // ---- limits and cleanup ----

  /** Every client always holds at most the allowed number of subscriptions, each within the
      allowed number of filters, although the check and the registration take separate locks. */
  lemma LimitsHold(env: Env, steps: seq<Step>, t: Sys, c: string)
    requires Reached(env, steps, t)
    ensures |SubsOf(t.subs, c)| <= env.maxSubscriptions
    ensures forall sub :: sub in SubsOf(t.subs, c) ==> |SubsOf(t.subs, c)[sub].filters| <= env.maxFilters
  {
    ReachedInv(env, steps, t);
    if c in t.subs {
      assert SubsWithin(env, t.subs[c]);
    }
  }

  /** Once a connection's cleanup is over it stays over: no run gives its id a subscription again. */
  lemma {:induction false} GoneForEver(env: Env, s: Sys, steps: seq<Step>, t: Sys, c: string)
    requires NoCollision(env) && SysInv(env, s) && Runs(env, s, steps, t)
    requires c in s.conns && PhaseOf(s, c).Gone?
    ensures c in t.conns && PhaseOf(t, c).Gone? && c !in t.subs && c !in t.clients
    decreases |steps|
  {
    if steps != [] {
      RelaySteps.StepKept(env, s, steps[0]);
      GoneStep(env, s, steps[0], c);
      GoneForEver(env, Apply(env, s, steps[0]), steps[1..], t, c);
    }
  }

  /** A step moves at most the connection that takes it, and a gone one takes none. */
  lemma GoneStep(env: Env, s: Sys, st: Step, c: string)
    requires Enabled(env, s, st) && IdsInv(s) && c in s.conns && PhaseOf(s, c).Gone?
    ensures var t := Apply(env, s, st); c in t.conns && PhaseOf(t, c).Gone?
  {
    hide Enabled, IdsInv;
    if st.Connect? {
      GoneConnect(env, s, st, c);
    } else if RelaySteps.OnEventPath(st) {
      GoneEventStep(env, s, st, c);
    } else {
      GoneOtherStep(env, s, st, c);
    }
  }

  lemma GoneConnect(env: Env, s: Sys, st: Step, c: string)
    requires Enabled(env, s, st) && st.Connect? && IdsInv(s) && c in s.conns && PhaseOf(s, c).Gone?
    ensures var t := Apply(env, s, st); c in t.conns && PhaseOf(t, c).Gone?
  {
    hide IdsInv, DoConnect;
    ConnectLeaves(s, st.clock, c);
  }

  lemma GoneEventStep(env: Env, s: Sys, st: Step, c: string)
    requires Enabled(env, s, st) && RelaySteps.OnEventPath(st) && c in s.conns && PhaseOf(s, c).Gone?
    ensures var t := Apply(env, s, st); c in t.conns && PhaseOf(t, c).Gone?
  {
    hide Enabled;
    if st.Receive? || st.Check? || st.Route? {
      GoneDeciding(env, s, st, c);
    } else {
      GoneSending(env, s, st, c);
    }
  }

  lemma GoneDeciding(env: Env, s: Sys, st: Step, c: string)
    requires Enabled(env, s, st) && (st.Receive? || st.Check? || st.Route?) && c in s.conns && PhaseOf(s, c).Gone?
    ensures var t := Apply(env, s, st); c in t.conns && PhaseOf(t, c).Gone?
  {
    hide OnFrame, DoRoute, DoCheck;
    hide P.Enabled, P.Apply, Sql.IsAnswer, MatchesPair, NoReaders, AddSub, RemoveSub, RemoveClient, HasId;
    assert st.c != c;
    if st.Route? {
      RouteLeaves(s, st.c, st.fault, c);
    } else if st.Check? {
      CheckLeaves(s, st.c, st.fails, c);
    }
  }

  lemma RouteLeaves(s: Sys, d: string, fault: Fault, c: string)
    requires d in s.conns && PhaseOf(s, d).Routing? && c in s.conns && c != d
    ensures c in DoRoute(s, d, fault).conns && DoRoute(s, d, fault).conns[c] == s.conns[c]
  {
    hide IsEphemeral, Xadd;
  }

  lemma CheckLeaves(s: Sys, d: string, fails: bool, c: string)
    requires d in s.conns && PhaseOf(s, d).Checking? && c in s.conns && c != d
    ensures c in DoCheck(s, d, fails).conns && DoCheck(s, d, fails).conns[c] == s.conns[c]
  {
    hide HasId;
  }

  lemma GoneSending(env: Env, s: Sys, st: Step, c: string)
    requires Enabled(env, s, st) && (st.Snapshot? || st.Send? || st.Answer? || st.Complain?)
    requires c in s.conns && PhaseOf(s, c).Gone?
    ensures var t := Apply(env, s, st); c in t.conns && PhaseOf(t, c).Gone?
  {
    hide IsEphemeral, ToRow, OnFrame;
    hide P.Enabled, P.Apply, Sql.IsAnswer, MatchesPair, NoReaders, AddSub, RemoveSub, RemoveClient, HasId;
  }

  lemma GoneOtherStep(env: Env, s: Sys, st: Step, c: string)
    requires Enabled(env, s, st) && !RelaySteps.OnEventPath(st) && !st.Connect?
    requires c in s.conns && PhaseOf(s, c).Gone?
    ensures var t := Apply(env, s, st); c in t.conns && PhaseOf(t, c).Gone?
  {
    hide P.Enabled, P.Apply, Sql.IsAnswer, MatchesPair, NoReaders, AddSub, RemoveSub, RemoveClient, HasId;
  }

  lemma ConnectLeaves(s: Sys, clock: U64, c: string)
    requires IdsInv(s) && s.issued < TWO_64 && c in s.conns
    ensures c in DoConnect(s, clock).conns && DoConnect(s, clock).conns[c] == s.conns[c]
  {
    RelaySteps.FreshId(s, clock);
  }

  // ---- the pipeline inside the relay ----

  /** Every run of the relay is, for the table and the stream, a run of the pipeline machine: all that
      is proved of that machine holds here. */
  lemma {:induction false} RunProjects(env: Env, s: Sys, steps: seq<Step>, t: Sys) returns (acts: seq<P.Action>)
    requires NoCollision(env) && SysInv(env, s) && Runs(env, s, steps, t)
    ensures PR.Runs(env, s.pipe, acts, t.pipe)
    decreases |steps|
  {
    if steps == [] {
      acts := [];
    } else {
      var m := Apply(env, s, steps[0]);
      RelaySteps.StepKept(env, s, steps[0]);
      var rest := RunProjects(env, m, steps[1..], t);
      acts := rest;
      assert forall c :: c in s.conns ==> ConnOk(env, s, c);
      var a := StepProjects(env, s, steps[0]);
      if a.Some? {
        acts := [a.value] + rest;
        assert acts[1..] == rest;
      }
    }
  }

  lemma StepProjects(env: Env, s: Sys, st: Step) returns (a: Option<P.Action>)
    requires Enabled(env, s, st)
    requires forall c :: c in s.conns ==> PhaseOk(env, s, c, PhaseOf(s, c))
    ensures a.None? ==> Apply(env, s, st).pipe == s.pipe
    ensures a.Some? ==> P.Enabled(env, s.pipe, a.value) && Apply(env, s, st).pipe == P.Apply(env, s.pipe, a.value)
  {
    a := None;
    match st
    case Work(b) => a := Some(b);
    case Route(c, fault) =>
      RouteQueues(env, s, c, fault);
      if !IsEphemeral(PhaseOf(s, c).e) && !fault.Fails? {
        a := Some(P.Enqueue(PhaseOf(s, c).e));
      }
    case _ => FrontOnly(env, s, st);
  }

  lemma RouteQueues(env: Env, s: Sys, c: string, fault: Fault)
    requires c in s.conns && PhaseOf(s, c).Routing? && PhaseOk(env, s, c, PhaseOf(s, c))
    ensures var e, t := PhaseOf(s, c).e, DoRoute(s, c, fault);
      if IsEphemeral(e) || fault.Fails? then t.pipe == s.pipe
      else P.Enabled(env, s.pipe, P.Enqueue(e)) && t.pipe == P.Apply(env, s.pipe, P.Enqueue(e))
  {
    hide Known;
  }

  lemma FrontOnly(env: Env, s: Sys, st: Step)
    requires Enabled(env, s, st) && !st.Work? && !st.Route?
    ensures Apply(env, s, st).pipe == s.pipe
  {
    hide OnFrame, LiveOf, Acked;
    hide P.Enabled, P.Apply, Sql.IsAnswer, MatchesPair, NoReaders, AddSub, RemoveSub, RemoveClient, HasId;
  }

  /** No acknowledged write is lost, in the whole relay. */
  lemma AckedWritesKept(env: Env, steps: seq<Step>, t: Sys, n: nat)
    requires Reached(env, steps, t) && n in Acked(t.pipe.stream)
    ensures n < |t.pipe.stream.entries| && t.pipe.stream.entries[n].EventJson?
    ensures var e := t.pipe.stream.entries[n].event;
      && (HasId(t.pipe.table, e.id) || P.Displaced(t.pipe.table, t.pipe.stream, e))
      && (CategoryOf(e.kind) == Regular ==> HasId(t.pipe.table, e.id))
  {
    hide P.Inv, NoCollision;
    var pipe :| Inherited(env, pipe) && Runs(env, Started(pipe), steps, t);
    RelaySteps.StartedInv(env, pipe);
    var acts := RunProjects(env, Started(pipe), steps, t);
    PR.NoAckedWriteLost(env, pipe, acts, t.pipe, n);
  }

  // ---- gating ----

  /** Everything in the stream, the table or a live message passed the limits and `validate`; ephemeral
      events reach neither stream nor table; other events are in the stream before they are broadcast. */
  lemma EverythingGated(env: Env, steps: seq<Step>, t: Sys)
    requires Reached(env, steps, t)
    ensures forall e :: P.Queued(t.pipe.stream, e) ==> Admitted(env, e) && !IsEphemeral(e)
    ensures forall r :: r in t.pipe.table ==> exists e :: P.Queued(t.pipe.stream, e) && r == ToRow(e)
    ensures forall c, m :: c in t.outbox && m in t.outbox[c] && m.origin.Live? ==>
              m.msg.EventMsg? && Admitted(env, m.msg.event)
    ensures forall k :: 0 <= k < |t.casts| && !IsEphemeral(t.casts[k].event) ==>
      P.Queued(t.pipe.stream, t.casts[k].event)
  {
    ReachedInv(env, steps, t);
    forall c, m | c in t.outbox && m in t.outbox[c] && m.origin.Live?
      ensures m.msg.EventMsg? && Admitted(env, m.msg.event)
    {
      assert LiveMsgOk(t.casts, c, m);
      assert CastOk(env, t.pipe.stream, t.casts[m.origin.cast]);
    }
    forall k | 0 <= k < |t.casts| && !IsEphemeral(t.casts[k].event)
      ensures P.Queued(t.pipe.stream, t.casts[k].event)
    {
      assert CastOk(env, t.pipe.stream, t.casts[k]);
    }
  }

  predicate Refusing(p: Phase) {
    p.Complaining? || (p.Answering? && p.why.Some?)
  }

  /** The stream after a step of a refused frame: as it was, or with the event of an XADD whose reply was lost. */
  function RefusedStream(s: Sys, c: string, st: Step): Stream {
    if st.Route? && st.fault.ReplyLost? && c in s.conns && PhaseOf(s, c).Routing?
    then Xadd(s.pipe.stream, EventJson(PhaseOf(s, c).e)) else s.pipe.stream
  }

  /** The step of `c` changed nothing but its own connection and outbox, and the stream only by that entry. */
  ghost predicate Unmoved(s: Sys, t: Sys, c: string, st: Step) {
    && t.pipe.table == s.pipe.table && t.pipe.tasks == s.pipe.tasks
    && t.subs == s.subs && t.clients == s.clients && t.casts == s.casts && t.regs == s.regs
    && (forall d :: d in s.outbox && d != c ==> d in t.outbox && t.outbox[d] == s.outbox[d])
    && t.pipe.stream == RefusedStream(s, c, st)
  }

  /** The steps next to a refusal change nothing but the state and the outbox of its own connection, unless
      it refuses an event whose XADD took effect and only the reply was lost. */
  lemma RefusalChangesNothing(env: Env, s: Sys, st: Step, c: string)
    requires Enabled(env, s, st) && c in s.conns && RelaySteps.ActorOf(st) == Some(c)
    requires Refusing(PhaseOf(s, c)) || (c in Apply(env, s, st).conns && Refusing(PhaseOf(Apply(env, s, st), c)))
    ensures Unmoved(s, Apply(env, s, st), c, st)
  {
    hide P.Enabled, P.Apply, Sql.IsAnswer, MatchesPair, NoReaders, AddSub, RemoveSub, RemoveClient, HasId, OnFrame,
      DoRoute, DoCheck, DoCount, FrameSent;
    if st.Answer? || st.Complain? {
    } else if st.Receive? || st.Check? || st.Route? || st.Count? {
      RefusalDecided(env, s, st, c);
    } else {
      NotARefusal(env, s, st, c);
    }
  }

  lemma RefusalDecided(env: Env, s: Sys, st: Step, c: string)
    requires Enabled(env, s, st) && c in s.conns && RelaySteps.ActorOf(st) == Some(c)
    requires st.Receive? || st.Check? || st.Route? || st.Count?
    requires st.Route? ==>
      c in Apply(env, s, st).conns && (Refusing(PhaseOf(s, c)) || Refusing(PhaseOf(Apply(env, s, st), c)))
    ensures var t := Apply(env, s, st);
      t == s.(conns := t.conns, pipe := s.pipe.(stream := RefusedStream(s, c, st)))
  {
    hide OnFrame, FrameSent, DoRoute, Refusing;
    hide P.Enabled, P.Apply, Sql.IsAnswer, MatchesPair, NoReaders, AddSub, RemoveSub, RemoveClient, HasId;
    if st.Route? {
      RouteRefused(s, c, st.fault);
    }
  }

  lemma RouteRefused(s: Sys, c: string, fault: Fault)
    requires c in s.conns && PhaseOf(s, c).Routing?
    ensures var t := DoRoute(s, c, fault);
      && c in t.conns && t == s.(conns := t.conns, pipe := s.pipe.(stream := t.pipe.stream)) && !Refusing(PhaseOf(s, c))
      && (Refusing(PhaseOf(t, c)) ==> t.pipe.stream == RefusedStream(s, c, Route(c, fault)))
  {
    hide IsEphemeral, Xadd;
  }

  lemma NotARefusal(env: Env, s: Sys, st: Step, c: string)
    requires Enabled(env, s, st) && c in s.conns && RelaySteps.ActorOf(st) == Some(c)
    requires !st.Receive? && !st.Check? && !st.Route? && !st.Answer? && !st.Complain? && !st.Count?
    ensures !Refusing(PhaseOf(s, c)) && (c in Apply(env, s, st).conns ==> !Refusing(PhaseOf(Apply(env, s, st), c)))
  {
    hide OnFrame;
    hide P.Enabled, P.Apply, Sql.IsAnswer, MatchesPair, NoReaders, AddSub, RemoveSub, RemoveClient, HasId;
  }

  // ---- replies ----

  lemma {:induction false} HistoryBound(
      env: Env, stream: Stream, sub: string, filters: seq<Filter>, queries: seq<QueryRec>)
    requires QueriesOk(env, stream, filters, queries)
    ensures |History(sub, queries)| <= |queries| * (env.maxSubscriptions * 50)
  {
    if queries != [] {
      var before := queries[..|queries| - 1];
      HistoryBound(env, stream, sub, filters, before);
      assert |queries[|queries| - 1].rows| <= env.maxSubscriptions * 50;
      assert |queries| * (env.maxSubscriptions * 50)
          == (|queries| - 1) * (env.maxSubscriptions * 50) + env.maxSubscriptions * 50;
    }
  }

  /** Reply discipline: live events left out, a client's outbox is, frame after frame in order, exactly one
      OK or NOTICE for an event, one NOTICE for a refused REQ, the stored events and one EOSE for a REQ, and
      then what was sent so far for the frame at hand. */
  lemma RepliesInOrder(env: Env, steps: seq<Step>, t: Sys, c: string)
    requires Reached(env, steps, t) && c in t.conns && c in t.outbox
    ensures Replies(t.outbox[c]) == Transcript(t.conns[c].log) + Partial(t.regs, PhaseOf(t, c))
    ensures forall o :: o in t.conns[c].log && o.Subscribed? ==>
      && o.reg < |t.regs| && t.regs[o.reg].client == c && t.regs[o.reg].sub == o.sub
      && |o.queries| == |t.regs[o.reg].filters|
      && |History(o.sub, o.queries)| <= |o.queries| * (env.maxSubscriptions * 50)
      && forall q :: q in o.queries && !q.ok ==> q.rows == []
  {
    hide SysInv, Reached, PhaseOk, OutcomeOk, Replies, Transcript, Partial, History;
    ReachedInv(env, steps, t);
    ConnPart(env, t, c);
    forall o | o in t.conns[c].log && o.Subscribed?
      ensures o.reg < |t.regs| && t.regs[o.reg].client == c && t.regs[o.reg].sub == o.sub
      ensures |o.queries| == |t.regs[o.reg].filters|
      ensures |History(o.sub, o.queries)| <= |o.queries| * (env.maxSubscriptions * 50)
      ensures forall q :: q in o.queries && !q.ok ==> q.rows == []
    {
      SubscribedMeans(env, t, c, o);
    }
  }

  lemma ConnPart(env: Env, t: Sys, c: string)
    requires SysInv(env, t) && c in t.conns
    ensures c in t.outbox && ConnOk(env, t, c)
  {
    hide P.Inv, LiveInv, CastsInv, SoundInv, LimitInv, IdsInv, ConnOk;
  }

  lemma SubscribedMeans(env: Env, t: Sys, c: string, o: Outcome)
    requires OutcomeOk(env, t, c, o) && o.Subscribed?
    ensures o.reg < |t.regs| && t.regs[o.reg].client == c && t.regs[o.reg].sub == o.sub
    ensures |o.queries| == |t.regs[o.reg].filters|
    ensures |History(o.sub, o.queries)| <= |o.queries| * (env.maxSubscriptions * 50)
    ensures forall q :: q in o.queries && !q.ok ==> q.rows == []
  {
    hide History, Sql.IsAnswer, QuerySaw;
    HistoryBound(env, t.pipe.stream, o.sub, t.regs[o.reg].filters, o.queries);
  }

  // ---- delivery ----

  /** Delivery soundness: a live event in an outbox comes from a broadcast in whose snapshot that
      client had that subscription with a filter matching the event. */
  lemma DeliverySound(env: Env, steps: seq<Step>, t: Sys, c: string, m: Sent)
    requires Reached(env, steps, t) && c in t.outbox && m in t.outbox[c] && m.origin.Live?
    ensures m.origin.cast < |t.casts| && m.msg.EventMsg? && m.msg.event == t.casts[m.origin.cast].event
    ensures MatchesPair(t.casts[m.origin.cast].subs, (c, m.msg.sub), m.msg.event)
  {
    ReachedInv(env, steps, t);
    assert LiveMsgOk(t.casts, c, m);
    assert CastOk(env, t.pipe.stream, t.casts[m.origin.cast]);
  }

  /** The client was sent an event with this id on this subscription. */
  ghost predicate Received(out: seq<Sent>, sub: string, id: string) {
    exists m :: m in out && m.msg.EventMsg? && m.msg.sub == sub && m.msg.event.id == id
  }

  /** Some connection was told that the event of this broadcast is accepted. */
  ghost predicate AcceptedCast(t: Sys, k: nat)
    requires k < |t.casts|
  {
    exists d, o :: d in t.conns && o in t.conns[d].log && o == Answered(t.casts[k].event.id, None, Some(k))
  }

  /** The filter asks for nothing the history query cannot express. */
  predicate QueryExactFilter(f: Filter) {
    && Sql.QueryExpressible(f)
    && (f.authors.Some? ==> forall a :: a in f.authors.value ==> |a| == 64)
  }

  /** Why a query can miss an event. Its row was in the table and the limit cut it; or its row was not in the
      table, because the event is ephemeral, not yet acknowledged, or superseded by another queued event. */
  ghost predicate MissExcused(env: Env, stream: Stream, cast: Cast, q: QueryRec) {
    if HasId(q.db, cast.event.id) then
      exists r :: r in q.db && r.id == cast.event.id && Sql.Cut(q.rows, HistoryLimit(env, q.filter), r)
    else
      cast.entry.None? || cast.entry.value !in q.acked || P.Displaced(q.db, stream, cast.event)
  }

  /** No matching event is missed: a client still connected, with the subscription still open since a REQ
      that ended in EOSE, has every accepted event that a query-exact filter of it matches, unless the event
      was broadcast before the registration and the query that followed is excused. */
  lemma NothingMissed(
      env: Env, steps: seq<Step>, t: Sys, c: string, sub: string, queries: seq<QueryRec>, k: nat, i: nat)
    requires Reached(env, steps, t)
    requires c in t.clients && (c, sub) in t.live && c in t.conns && c in t.outbox
    requires Subscribed(t.live[(c, sub)], sub, queries) in t.conns[c].log
    requires k < |t.casts| && AcceptedCast(t, k)
    requires i < |queries| && queries[i].ok && QueryExactFilter(queries[i].filter)
    requires Matches(queries[i].filter, t.casts[k].event)
    ensures t.live[(c, sub)] < |t.regs|
    ensures Received(t.outbox[c], sub, t.casts[k].event.id)
         || (k < t.regs[t.live[(c, sub)]].castsBefore && MissExcused(env, t.pipe.stream, t.casts[k], queries[i]))
  {
    ReachedInv(env, steps, t);
    var r := t.live[(c, sub)];
    assert LivePairOk(t, (c, sub));
    assert ConnOk(env, t, c);
    assert OutcomeOk(env, t, c, Subscribed(r, sub, queries));
    assert QueriesOk(env, t.pipe.stream, t.regs[r].filters, queries);
    if k >= t.regs[r].castsBefore {
      assert t.regs[r].filters[i] == queries[i].filter;
      assert MatchesAny(t.regs[r].filters, t.casts[k].event);
      LiveReceived(env, t, c, sub, k);
    } else if !MissExcused(env, t.pipe.stream, t.casts[k], queries[i]) {
      assert CastOk(env, t.pipe.stream, t.casts[k]);
      UnexcusedStored(env, t.pipe.stream, t.casts[k], queries[i]);
      var row := StoredRow(env, t.pipe.stream, t.casts[k].event, queries[i]);
      HistoryHas(sub, queries, i, row);
      TranscriptHas(t.conns[c].log, Subscribed(r, sub, queries), EventMsg(sub, FromRow(row)));
      RepliesHas(t.outbox[c], EventMsg(sub, FromRow(row)));
    }
  }

  /** The live half: a target of an accepted broadcast has the event. */
  lemma LiveReceived(env: Env, t: Sys, c: string, sub: string, k: nat)
    requires SysInv(env, t) && c in t.clients && c in t.outbox && k < |t.casts|
    requires AcceptedCast(t, k) && (c, sub) in t.casts[k].targets
    ensures Received(t.outbox[c], sub, t.casts[k].event.id)
  {
    var d, o :| d in t.conns && o in t.conns[d].log && o == Answered(t.casts[k].event.id, None, Some(k));
    assert ConnOk(env, t, d);
    assert OutcomeOk(env, t, d, o);
    var j :| 0 <= j < |t.casts[k].targets| && t.casts[k].targets[j] == (c, sub);
    assert Delivered(t, k, t.casts[k].targets[j]);
  }

  /** A miss that is not excused is of an event whose row was there. */
  lemma UnexcusedStored(env: Env, stream: Stream, cast: Cast, q: QueryRec)
    requires CastOk(env, stream, cast) && QuerySaw(stream, q) && !MissExcused(env, stream, cast, q)
    ensures HasId(q.db, cast.event.id)
  {
    hide P.Displaced, HasId;
    assert cast.entry.Some? && cast.entry.value in q.acked ==> P.Settled(q.db, stream, cast.event);
  }

  /** The stored half: an event whose row was there when the query ran, and was not cut, is in its answer. */
  lemma StoredRow(env: Env, stream: Stream, e: NostrEvent, q: QueryRec) returns (row: Row)
    requires NoCollision(env) && P.QueueGated(env, stream) && Known(env, e)
    requires QueryOk(env, stream, q) && q.ok && QueryExactFilter(q.filter) && Matches(q.filter, e) && HasId(q.db, e.id)
    requires !exists r :: r in q.db && r.id == e.id && Sql.Cut(q.rows, HistoryLimit(env, q.filter), r)
    ensures row in q.rows && row.id == e.id
  {
    row :| row in q.db && row.id == e.id;
    var d :| P.Queued(stream, d) && row == ToRow(d);
    IdFixesBody(env, d, e);
    AdmittedMeans(env, e);
    Sql.QueryExact(q.filter, e);
    assert Asked(q.filter)(row);
  }

  lemma {:induction false} HistoryHas(sub: string, queries: seq<QueryRec>, i: nat, row: Row)
    requires i < |queries| && row in queries[i].rows
    ensures EventMsg(sub, FromRow(row)) in History(sub, queries)
  {
    if i == |queries| - 1 {
      var j :| 0 <= j < |queries[i].rows| && queries[i].rows[j] == row;
      assert RowMsgs(sub, queries[i].rows)[j] == EventMsg(sub, FromRow(row));
    } else {
      HistoryHas(sub, queries[..|queries| - 1], i, row);
    }
  }

  lemma {:induction false} TranscriptHas(log: seq<Outcome>, o: Outcome, m: Msg)
    requires o in log && m in Render(o)
    ensures m in Transcript(log)
  {
    if o != log[|log| - 1] {
      TranscriptHas(log[..|log| - 1], o, m);
    }
  }

  lemma {:induction false} RepliesHas(out: seq<Sent>, m: Msg)
    requires m in Replies(out)
    ensures exists x :: x in out && x.msg == m
  {
    if m in Replies(out[..|out| - 1]) {
      RepliesHas(out[..|out| - 1], m);
    } else {
      assert out[|out| - 1] in out;
    }
  }
}
