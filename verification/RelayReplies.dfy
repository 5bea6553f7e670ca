/** Under any interleaving the text frames of a connection are answered one for one, in order
    (src/websocket/mod.rs). */
module RelayReplies {
  import opened Base
  import opened Events
  import opened Subscriptions
  import opened Table
  import opened Streams
  import opened Protocol
  import opened Relay
  import opened RelayInv
  import opened RelayTheorems
  import RelaySteps
  import ClientIds
  import P = Pipeline
  import Sql

  /** An outcome a text frame may have: an event one OK, a REQ its history or one NOTICE, and so on. */
  ghost predicate AnswersTo(env: Env, request: Request, o: Outcome) {
    match request
    case BadRequest => o == Complained(BadMessage)
    case EventRequest(e) => o.Answered? && o.id == e.id && (!Admitted(env, e) ==> o.why == Gate(env, e))
    case ReqRequest(sub, filters) =>
      if |filters| > env.maxFilters then o == Complained(TooManyFilters)
      else o == Complained(TooManySubscriptions) || (o.Subscribed? && o.sub == sub && |o.queries| == |filters|)
    case CloseRequest(sub) => o == Unsubscribed(sub)
  }

  ghost predicate AllAnswered(env: Env, texts: seq<Body>, log: seq<Outcome>) {
    |log| == |texts| && forall k :: 0 <= k < |log| ==> AnswersTo(env, Parse(texts[k]), log[k])
  }

  lemma OneMoreAnswered(env: Env, texts: seq<Body>, log: seq<Outcome>, body: Body, o: Outcome)
    requires AllAnswered(env, texts, log) && AnswersTo(env, Parse(body), o)
    ensures AllAnswered(env, texts + [body], log + [o])
  {
    hide AnswersTo, Parse;
  }

  function HeardIn(st: Step, c: string): seq<Body> {
    if st.Receive? && st.c == c && st.frame.TextFrame? then [st.frame.body] else []
  }

  /** The text frames that a run receives from `c`. */
  function Heard(steps: seq<Step>, c: string): seq<Body> {
    if steps == [] then [] else HeardIn(steps[0], c) + Heard(steps[1..], c)
  }

  /** No frame is at hand. */
  predicate Resting(p: Phase) {
    p.Idle? || p.Departing? || p.Leaving? || p.Gone?
  }

  /** The handler at `p` is at work on that request. */
  ghost predicate WorksOn(env: Env, s: Sys, request: Request, p: Phase) {
    match p
    case Checking(e) => request == EventRequest(e) && Admitted(env, e)
    case Routing(e) => request == EventRequest(e) && Admitted(env, e)
    case Snapshotting(e, _) => request == EventRequest(e) && Admitted(env, e)
    case Sending(k, _) => k < |s.casts| && request == EventRequest(s.casts[k].event) && Admitted(env, s.casts[k].event)
    case Answering(id, why, cast) => AnswersTo(env, request, Answered(id, why, cast))
    case Complaining(complaint) => AnswersTo(env, request, Complained(complaint))
    case Counting(sub, filters) => request == ReqRequest(sub, filters) && |filters| <= env.maxFilters
    case Adding(sub, filters) => request == ReqRequest(sub, filters) && |filters| <= env.maxFilters
    case Querying(r, _) => OfReg(env, s, request, r)
    case Replaying(r, _, _) => OfReg(env, s, request, r)
    case Closing(sub) => request == CloseRequest(sub)
    case _ => false
  }

  ghost predicate OfReg(env: Env, s: Sys, request: Request, r: nat) {
    r < |s.regs| && request == ReqRequest(s.regs[r].sub, s.regs[r].filters) && |s.regs[r].filters| <= env.maxFilters
  }

  /** Of the frames got so far all are answered but the one at hand. */
  ghost predicate UpToDate(env: Env, s: Sys, c: string, got: seq<Body>) {
    if c !in s.conns then got == []
    else if Resting(PhaseOf(s, c)) then AllAnswered(env, got, s.conns[c].log)
    else
      && got != [] && AllAnswered(env, got[..|got| - 1], s.conns[c].log)
      && WorksOn(env, s, Parse(got[|got| - 1]), PhaseOf(s, c))
  }

  // ---- steps of others ----

  lemma BystanderUpToDate(env: Env, s: Sys, t: Sys, c: string, got: seq<Body>)
    requires UpToDate(env, s, c, got) && s.casts <= t.casts && s.regs <= t.regs
    requires c in s.conns <==> c in t.conns
    requires c in s.conns ==> t.conns[c] == s.conns[c]
    ensures UpToDate(env, t, c, got)
  {
    hide AllAnswered, Admitted, Parse;
  }

  lemma OthersStep(env: Env, s: Sys, st: Step, c: string, got: seq<Body>)
    requires Enabled(env, s, st) && UpToDate(env, s, c, got) && RelaySteps.ActorOf(st).Some? && st.c != c
    ensures UpToDate(env, Apply(env, s, st), c, got)
  {
    hide UpToDate, Enabled;
    if RelaySteps.OnEventPath(st) {
      OthersEventStep(env, s, st, c);
    } else {
      OthersOtherStep(env, s, st, c);
    }
    BystanderUpToDate(env, s, Apply(env, s, st), c, got);
  }

  lemma OthersEventStep(env: Env, s: Sys, st: Step, c: string)
    requires Enabled(env, s, st) && RelaySteps.OnEventPath(st) && st.c != c
    ensures var t := Apply(env, s, st);
      && s.casts <= t.casts && s.regs <= t.regs && (c in s.conns <==> c in t.conns)
      && (c in s.conns ==> t.conns[c] == s.conns[c])
  {
    hide OnFrame, HasId, IsEphemeral, Xadd, P.Enabled, P.Apply, Sql.IsAnswer, MatchesPair, NoReaders, AddSub, RemoveSub,
      RemoveClient, LiveOf;
    if st.Route? {
      hide DoRoute;
      RouteElsewhere(s, st.c, st.fault, c);
    }
  }

  lemma RouteElsewhere(s: Sys, d: string, fault: Fault, c: string)
    requires d in s.conns && PhaseOf(s, d).Routing? && d != c
    ensures var t := DoRoute(s, d, fault);
      && t.casts == s.casts && t.regs == s.regs && (c in s.conns <==> c in t.conns)
      && (c in s.conns ==> t.conns[c] == s.conns[c])
  {
    hide IsEphemeral, Xadd;
  }

  lemma OthersOtherStep(env: Env, s: Sys, st: Step, c: string)
    requires Enabled(env, s, st) && !RelaySteps.OnEventPath(st) && RelaySteps.ActorOf(st).Some? && st.c != c
    ensures var t := Apply(env, s, st);
      && s.casts <= t.casts && s.regs <= t.regs && (c in s.conns <==> c in t.conns)
      && (c in s.conns ==> t.conns[c] == s.conns[c])
  {
    hide P.Enabled, P.Apply, Sql.IsAnswer, MatchesPair, NoReaders, AddSub, RemoveSub, RemoveClient, LiveOf, SubsOf,
      FromRow;
  }

  lemma SharedStep(env: Env, s: Sys, st: Step, c: string, got: seq<Body>)
    requires Enabled(env, s, st) && UpToDate(env, s, c, got) && IdsInv(s) && (st.Work? || st.Connect?)
    ensures UpToDate(env, Apply(env, s, st), c, got)
  {
    hide P.Enabled, P.Apply, NoReaders, IdsInv, ClientIds.IdText, Parse, WorksOn;
    if st.Work? {
      hide UpToDate;
      BystanderUpToDate(env, s, Apply(env, s, st), c, got);
    } else {
      RelaySteps.FreshId(s, st.clock);
      if c != ClientIds.IdText(st.clock, s.issued % TWO_64) {
        hide UpToDate;
        BystanderUpToDate(env, s, Apply(env, s, st), c, got);
      }
    }
  }

  // ---- steps of the connection itself ----

  /** The handler moves on with the frame at hand. */
  lemma StillAtWork(env: Env, s: Sys, t: Sys, c: string, got: seq<Body>)
    requires UpToDate(env, s, c, got) && c in s.conns && c in t.conns && !Resting(PhaseOf(s, c)) &&
      !Resting(PhaseOf(t, c))
    requires t.conns[c].log == s.conns[c].log
    requires got != [] ==> WorksOn(env, t, Parse(got[|got| - 1]), PhaseOf(t, c))
    ensures UpToDate(env, t, c, got)
  {
    hide AllAnswered, Parse, WorksOn;
  }

  /** The frame at hand is answered. */
  lemma NowAnswered(env: Env, s: Sys, t: Sys, c: string, got: seq<Body>, o: Outcome)
    requires UpToDate(env, s, c, got) && c in s.conns && c in t.conns && !Resting(PhaseOf(s, c)) &&
      PhaseOf(t, c) == Idle
    requires t.conns[c].log == s.conns[c].log + [o]
    requires got != [] ==> AnswersTo(env, Parse(got[|got| - 1]), o)
    ensures UpToDate(env, t, c, got)
  {
    hide AllAnswered, Parse, WorksOn, AnswersTo;
    OneMoreAnswered(env, got[..|got| - 1], s.conns[c].log, got[|got| - 1], o);
    assert got[..|got| - 1] + [got[|got| - 1]] == got;
  }

  lemma AtHand(env: Env, s: Sys, c: string, got: seq<Body>)
    requires UpToDate(env, s, c, got) && c in s.conns && !Resting(PhaseOf(s, c))
    ensures got != [] && WorksOn(env, s, Parse(got[|got| - 1]), PhaseOf(s, c))
  {
  }

  /** A text frame comes in. */
  lemma FrameStarts(env: Env, s: Sys, body: Body)
    ensures var p := OnFrame(env, TextFrame(body)); !Resting(p) && WorksOn(env, s, Parse(body), p)
  {
    hide Parse;
  }

  lemma ReceiveStep(env: Env, s: Sys, c: string, frame: Frame, got: seq<Body>)
    requires UpToDate(env, s, c, got) && c in s.conns && PhaseOf(s, c).Idle?
    ensures UpToDate(env, SetPhase(s, c, OnFrame(env, frame)), c, got + HeardIn(Receive(c, frame), c))
  {
    hide AllAnswered, Parse, WorksOn;
    if frame.TextFrame? {
      FrameStarts(env, SetPhase(s, c, OnFrame(env, frame)), frame.body);
      assert (got + [frame.body])[..|got|] == got;
    } else {
      assert got + [] == got;
    }
  }

  lemma OwnCheckStep(env: Env, s: Sys, st: Step, c: string, got: seq<Body>)
    requires Enabled(env, s, st) && UpToDate(env, s, c, got) && RelaySteps.ActorOf(st) == Some(c) && st.Check?
    ensures UpToDate(env, Apply(env, s, st), c, got)
  {
    hide UpToDate, Parse, Admitted, Gate, HasId, P.Enabled, P.Apply, Sql.IsAnswer, MatchesPair, NoReaders, AddSub,
      RemoveSub, RemoveClient, LiveOf, OnFrame, Xadd, DoSend, DoSnapshot, DoRoute, IsEphemeral, FrameSent;
    AtHand(env, s, c, got);
    StillAtWork(env, s, Apply(env, s, st), c, got);
  }

  lemma OwnRouteStep(env: Env, s: Sys, st: Step, c: string, got: seq<Body>)
    requires Enabled(env, s, st) && UpToDate(env, s, c, got) && RelaySteps.ActorOf(st) == Some(c) && st.Route?
    ensures UpToDate(env, Apply(env, s, st), c, got)
  {
    hide UpToDate, Parse, Admitted, Gate, HasId, P.Enabled, P.Apply, Sql.IsAnswer, MatchesPair, NoReaders, AddSub,
      RemoveSub, RemoveClient, LiveOf, OnFrame, Xadd, DoSend, DoSnapshot, DoCheck, IsEphemeral, FrameSent;
    AtHand(env, s, c, got);
    StillAtWork(env, s, Apply(env, s, st), c, got);
  }

  lemma OwnCastStep(env: Env, s: Sys, st: Step, c: string, got: seq<Body>)
    requires Enabled(env, s, st) && UpToDate(env, s, c, got) && RelaySteps.ActorOf(st) == Some(c)
    requires st.Snapshot? || st.Send?
    requires c in s.conns && PhaseOf(s, c).Sending? ==> PhaseOf(s, c).no < |s.casts|
    ensures UpToDate(env, Apply(env, s, st), c, got)
  {
    hide UpToDate, Parse, Admitted, Gate, P.Enabled, P.Apply, Sql.IsAnswer, MatchesPair, NoReaders, AddSub, RemoveSub,
      RemoveClient, LiveOf, OnFrame, DoRoute, DoCheck, Post, Distinct;
    AtHand(env, s, c, got);
    PostConns(s);
    StillAtWork(env, s, Apply(env, s, st), c, got);
  }

  /** A send changes outboxes only. */
  lemma PostConns(s: Sys)
    ensures forall d, m :: Post(s, d, m) == s.(outbox := Post(s, d, m).outbox)
  {
  }

  lemma OwnAddStep(env: Env, s: Sys, st: Step, c: string, got: seq<Body>)
    requires Enabled(env, s, st) && UpToDate(env, s, c, got) && RelaySteps.ActorOf(st) == Some(c)
    requires st.Count? || st.Add?
    ensures UpToDate(env, Apply(env, s, st), c, got)
  {
    hide UpToDate, Parse, Admitted, Gate, HasId, P.Enabled, P.Apply, Sql.IsAnswer, MatchesPair, NoReaders, AddSub,
      RemoveSub, RemoveClient, LiveOf, OnFrame, SubsOf, FromRow, DoRoute, DoSend, DoSnapshot, DoQuery, DoReplay,
      FrameSent;
    AtHand(env, s, c, got);
    StillAtWork(env, s, Apply(env, s, st), c, got);
  }

  lemma OwnReqStep(env: Env, s: Sys, st: Step, c: string, got: seq<Body>)
    requires Enabled(env, s, st) && UpToDate(env, s, c, got) && RelaySteps.ActorOf(st) == Some(c)
    requires st.Query? || st.Replay?
    ensures UpToDate(env, Apply(env, s, st), c, got)
  {
    hide UpToDate, Parse, Admitted, Gate, HasId, P.Enabled, P.Apply, Sql.IsAnswer, MatchesPair, NoReaders, AddSub,
      RemoveSub, RemoveClient, LiveOf, OnFrame, SubsOf, FromRow, DoRoute, DoSend, DoSnapshot, DoAdd, DoCount, Acked,
      FrameSent;
    AtHand(env, s, c, got);
    StillAtWork(env, s, Apply(env, s, st), c, got);
  }

  lemma OwnLastStep(env: Env, s: Sys, st: Step, c: string, got: seq<Body>)
    requires Enabled(env, s, st) && UpToDate(env, s, c, got) && RelaySteps.ActorOf(st) == Some(c)
    requires st.Answer? || st.Complain? || st.Eose? || st.CloseSub?
    ensures UpToDate(env, Apply(env, s, st), c, got)
  {
    hide UpToDate, Parse, Admitted, Gate, P.Enabled, P.Apply, Sql.IsAnswer, MatchesPair, NoReaders, AddSub, RemoveSub,
      RemoveClient, LiveOf, OnFrame, DoRoute, DoSend, DoSnapshot, DoCheck, DoQuery, DoReplay, DoAdd;
    AtHand(env, s, c, got);
    var p := PhaseOf(s, c);
    var o := (match p
      case Answering(id, why, cast) => Answered(id, why, cast)
      case Complaining(complaint) => Complained(complaint)
      case Querying(r, queries) => Subscribed(r, s.regs[r].sub, queries)
      case Closing(sub) => Unsubscribed(sub));
    NowAnswered(env, s, Apply(env, s, st), c, got, o);
  }

  lemma OwnCleanupStep(env: Env, s: Sys, st: Step, c: string, got: seq<Body>)
    requires Enabled(env, s, st) && UpToDate(env, s, c, got) && RelaySteps.ActorOf(st) == Some(c)
    requires st.Deregister? || st.Forget?
    ensures UpToDate(env, Apply(env, s, st), c, got)
  {
    hide AllAnswered, Parse, WorksOn, P.Enabled, P.Apply, NoReaders, RemoveClient, LiveOf;
  }

  lemma OwnStep(env: Env, s: Sys, st: Step, c: string, got: seq<Body>)
    requires Enabled(env, s, st) && UpToDate(env, s, c, got) && RelaySteps.ActorOf(st) == Some(c)
    requires c in s.conns && PhaseOf(s, c).Sending? ==> PhaseOf(s, c).no < |s.casts|
    ensures UpToDate(env, Apply(env, s, st), c, got + HeardIn(st, c))
  {
    hide UpToDate;
    if st.Receive? {
      hide OnFrame;
      ReceiveStep(env, s, c, st.frame, got);
    } else {
      hide Enabled, Apply;
      assert got + HeardIn(st, c) == got;
      if st.Check? {
        OwnCheckStep(env, s, st, c, got);
      } else if st.Route? {
        OwnRouteStep(env, s, st, c, got);
      } else if st.Snapshot? || st.Send? {
        OwnCastStep(env, s, st, c, got);
      } else if st.Count? || st.Add? {
        OwnAddStep(env, s, st, c, got);
      } else if st.Query? || st.Replay? {
        OwnReqStep(env, s, st, c, got);
      } else if st.Answer? || st.Complain? || st.Eose? || st.CloseSub? {
        OwnLastStep(env, s, st, c, got);
      } else {
        OwnCleanupStep(env, s, st, c, got);
      }
    }
  }

  // ---- every run ----

  lemma SenderInRange(env: Env, s: Sys, c: string)
    requires SysInv(env, s)
    ensures IdsInv(s)
    ensures c in s.conns && PhaseOf(s, c).Sending? ==> PhaseOf(s, c).no < |s.casts|
  {
    hide P.Inv, IdsInv, LimitInv, LiveInv, CastsInv, SoundInv, OutcomeOk, Replies, Transcript, Partial;
    if c in s.conns {
      assert ConnOk(env, s, c);
    }
  }

  lemma StepUpToDate(env: Env, s: Sys, st: Step, c: string, got: seq<Body>)
    requires SysInv(env, s) && Enabled(env, s, st) && UpToDate(env, s, c, got)
    ensures UpToDate(env, Apply(env, s, st), c, got + HeardIn(st, c))
  {
    hide SysInv, Enabled, Apply, UpToDate, IdsInv;
    SenderInRange(env, s, c);
    if RelaySteps.ActorOf(st) == Some(c) {
      OwnStep(env, s, st, c, got);
    } else {
      assert got + HeardIn(st, c) == got;
      if RelaySteps.ActorOf(st).Some? {
        OthersStep(env, s, st, c, got);
      } else {
        SharedStep(env, s, st, c, got);
      }
    }
  }

  lemma {:induction false} RunUpToDate(env: Env, s: Sys, steps: seq<Step>, t: Sys, c: string, got: seq<Body>)
    requires NoCollision(env) && SysInv(env, s) && Runs(env, s, steps, t) && UpToDate(env, s, c, got)
    ensures UpToDate(env, t, c, got + Heard(steps, c))
    decreases |steps|
  {
    hide SysInv, Enabled, Apply, UpToDate, NoCollision, HeardIn;
    if steps == [] {
      assert got + Heard(steps, c) == got;
    } else {
      var m := Apply(env, s, steps[0]);
      StepUpToDate(env, s, steps[0], c, got);
      RelaySteps.StepKept(env, s, steps[0]);
      RunUpToDate(env, m, steps[1..], t, c, got + HeardIn(steps[0], c));
      assert got + HeardIn(steps[0], c) + Heard(steps[1..], c) == got + Heard(steps, c);
    }
  }

  /** In every reachable state the text frames received from a connection are answered in order, one for
      one, but for the one at hand: an EVENT with one OK or NOTICE, a REQ with its history and one EOSE or
      with one NOTICE, a CLOSE with nothing. */
  lemma FramesAnswered(env: Env, steps: seq<Step>, t: Sys, c: string)
    requires Reached(env, steps, t) && c in t.conns
    ensures var got, log := Heard(steps, c), t.conns[c].log;
      && |log| <= |got| <= |log| + 1 && AllAnswered(env, got[..|log|], log)
      && (PhaseOf(t, c).Idle? || PhaseOf(t, c).Gone? ==> |got| == |log|)
  {
    hide SysInv, FrontInv, Parse, AnswersTo, WorksOn;
    hide P.Inv;
    var pipe :| Inherited(env, pipe) && Runs(env, Started(pipe), steps, t);
    RelaySteps.StartedInv(env, pipe);
    RunUpToDate(env, Started(pipe), steps, t, c, []);
    assert [] + Heard(steps, c) == Heard(steps, c);
    assert Heard(steps, c)[..|Heard(steps, c)|] == Heard(steps, c);
  }
}
