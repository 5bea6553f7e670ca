/** A refused frame changes nothing, from its receipt to its reply, under any interleaving
    (src/service/mod.rs, src/websocket/mod.rs). */
module RelayRefusals {
  import opened Base
  import opened Events
  import opened Subscriptions
  import opened Table
  import opened Streams
  import opened Protocol
  import opened Relay
  import opened RelayInv
  import opened RelayTheorems
  import RelayReplies
  import RelaySteps
  import P = Pipeline
  import Sql

  /** The states a run goes through. */
  ghost predicate Trace(env: Env, steps: seq<Step>, states: seq<Sys>) {
    && |states| == |steps| + 1
    && forall k :: 0 <= k < |steps| ==>
         Enabled(env, states[k], steps[k]) && states[k + 1] == Apply(env, states[k], steps[k])
  }

  lemma {:induction false} TraceInv(env: Env, steps: seq<Step>, states: seq<Sys>, k: nat)
    requires NoCollision(env) && Trace(env, steps, states) && k <= |steps| && SysInv(env, states[0])
    ensures SysInv(env, states[k])
    decreases k
  {
    hide SysInv, Enabled, Apply, NoCollision;
    if k > 0 {
      TraceInv(env, steps, states, k - 1);
      RelaySteps.StepKept(env, states[k - 1], steps[k - 1]);
    }
  }

  /** The frame at hand is refused, or may still be. */
  predicate Open(p: Phase) {
    p.Checking? || p.Routing? || p.Counting? || Refusing(p)
  }

  /** Once a handler is past refusing its frame it stays so until the next frame. */
  lemma PastRefusing(env: Env, s: Sys, st: Step, c: string)
    requires Enabled(env, s, st) && RelaySteps.ActorOf(st) == Some(c) && !st.Receive?
    requires c in s.conns && !Open(PhaseOf(s, c))
    ensures c in Apply(env, s, st).conns && !Open(PhaseOf(Apply(env, s, st), c))
  {
    hide P.Enabled, P.Apply, Sql.IsAnswer, MatchesPair, NoReaders, AddSub, RemoveSub, RemoveClient, HasId, OnFrame,
      DoRoute, DoCheck, DoCount, LiveOf, FrameSent, FromRow, Acked;
  }

  /** A step of another leaves the connection where it is. */
  lemma OthersLeave(env: Env, s: Sys, st: Step, c: string)
    requires SysInv(env, s) && Enabled(env, s, st) && RelaySteps.ActorOf(st) != Some(c) && c in s.conns
    ensures c in Apply(env, s, st).conns && Apply(env, s, st).conns[c] == s.conns[c]
  {
    hide SysInv, Enabled, Apply;
    RelayReplies.SenderInRange(env, s, c);
    if RelaySteps.ActorOf(st).Some? {
      if RelaySteps.OnEventPath(st) {
        RelayReplies.OthersEventStep(env, s, st, c);
      } else {
        RelayReplies.OthersOtherStep(env, s, st, c);
      }
    } else {
      SharedLeave(env, s, st, c);
    }
  }

  lemma SharedLeave(env: Env, s: Sys, st: Step, c: string)
    requires IdsInv(s) && Enabled(env, s, st) && (st.Work? || st.Connect?) && c in s.conns
    ensures c in Apply(env, s, st).conns && Apply(env, s, st).conns[c] == s.conns[c]
  {
    hide IdsInv, P.Enabled, P.Apply, NoReaders, DoConnect;
    if st.Connect? {
      ConnectLeaves(s, st.clock, c);
    }
  }

  /** Only the first step of the run is a frame of `c`. */
  ghost predicate OneFrame(steps: seq<Step>, c: string) {
    && steps != [] && steps[0].Receive? && steps[0].c == c
    && forall k :: 0 < k < |steps| && RelaySteps.ActorOf(steps[k]) == Some(c) ==> !steps[k].Receive?
  }

  /** If the handler refuses at the end, it was open to refusing ever since the frame came. */
  lemma {:induction false} OpenThroughout(env: Env, steps: seq<Step>, states: seq<Sys>, c: string, k: nat, last: nat)
    requires NoCollision(env) && Trace(env, steps, states) && SysInv(env, states[0]) && OneFrame(steps, c)
    requires 0 < k <= last <= |steps| && c in states[k].conns && c in states[last].conns &&
      Open(PhaseOf(states[last], c))
    ensures Open(PhaseOf(states[k], c))
    decreases last - k
  {
    hide SysInv, Enabled, Apply, NoCollision, Open;
    if k < last {
      TraceInv(env, steps, states, k);
      if RelaySteps.ActorOf(steps[k]) == Some(c) {
        if !Open(PhaseOf(states[k], c)) {
          PastRefusing(env, states[k], steps[k], c);
          OpenThroughout(env, steps, states, c, k + 1, last);
          assert false;
        }
      } else {
        OthersLeave(env, states[k], steps[k], c);
        OpenThroughout(env, steps, states, c, k + 1, last);
      }
    }
  }

  lemma {:induction false} StaysConnected(env: Env, steps: seq<Step>, states: seq<Sys>, c: string, k: nat)
    requires NoCollision(env) && Trace(env, steps, states) && SysInv(env, states[0]) && c in states[0].conns &&
      k <= |steps|
    ensures c in states[k].conns
    decreases k
  {
    hide SysInv, Enabled, Apply, NoCollision;
    if k > 0 {
      StaysConnected(env, steps, states, c, k - 1);
      TraceInv(env, steps, states, k - 1);
      if RelaySteps.ActorOf(steps[k - 1]) == Some(c) {
        OwnStays(env, states[k - 1], steps[k - 1], c);
      } else {
        OthersLeave(env, states[k - 1], steps[k - 1], c);
      }
    }
  }

  lemma OwnStays(env: Env, s: Sys, st: Step, c: string)
    requires Enabled(env, s, st) && RelaySteps.ActorOf(st) == Some(c) && c in s.conns
    ensures c in Apply(env, s, st).conns
  {
    hide P.Enabled, P.Apply, Sql.IsAnswer, MatchesPair, NoReaders, AddSub, RemoveSub, RemoveClient, HasId, OnFrame,
      LiveOf, FrameSent, FromRow, Acked, DoRoute, DoCheck, DoQuery, DoCount;
    if st.Route? {
      RouteRefused(s, c, st.fault);
    } else if st.Check? || st.Query? || st.Count? {
      PhaseSet(env, s, st, c);
    }
  }

  lemma PhaseSet(env: Env, s: Sys, st: Step, c: string)
    requires Enabled(env, s, st) && RelaySteps.ActorOf(st) == Some(c) && (st.Check? || st.Query? || st.Count?)
    ensures c in Apply(env, s, st).conns
  {
    hide P.Enabled, P.Apply, Sql.IsAnswer, MatchesPair, NoReaders, HasId, OnFrame, FrameSent, Acked, SubsOf;
  }

  /** A step between two states in which the frame may still be refused changes nothing. */
  lemma OpenStepUnmoved(env: Env, s: Sys, st: Step, c: string)
    requires Enabled(env, s, st) && RelaySteps.ActorOf(st) == Some(c) && c in s.conns
    requires st.Receive? || Open(PhaseOf(s, c))
    requires st.Answer? || st.Complain? || (c in Apply(env, s, st).conns && Open(PhaseOf(Apply(env, s, st), c)))
    ensures Unmoved(s, Apply(env, s, st), c, st)
  {
    hide Enabled, Apply, Unmoved, Open;
    StepFits(env, s, st, c);
    if st.Answer? || st.Complain? || st.Route? {
      RouteRefuses(env, s, st, c);
      RefusalChangesNothing(env, s, st, c);
    } else {
      RefusalDecided(env, s, st, c);
      DecidedUnmoved(s, Apply(env, s, st), c, st);
    }
  }

  lemma DecidedUnmoved(s: Sys, t: Sys, c: string, st: Step)
    requires t == s.(conns := t.conns, pipe := s.pipe.(stream := s.pipe.stream)) && !st.Route?
    ensures Unmoved(s, t, c, st)
  {
  }

  lemma StepFits(env: Env, s: Sys, st: Step, c: string)
    requires Enabled(env, s, st) && RelaySteps.ActorOf(st) == Some(c) && (st.Receive? || Open(PhaseOf(s, c)))
    ensures st.Receive? || st.Check? || st.Route? || st.Count? || st.Answer? || st.Complain?
  {
    hide P.Enabled, Sql.IsAnswer, MatchesPair, NoReaders, FrameSent, HistoryLimit;
  }

  lemma RouteRefuses(env: Env, s: Sys, st: Step, c: string)
    requires Enabled(env, s, st) && RelaySteps.ActorOf(st) == Some(c) && c in s.conns
    requires st.Answer? || st.Complain? || st.Route?
    requires Open(PhaseOf(s, c))
    requires st.Route? ==> c in Apply(env, s, st).conns && Open(PhaseOf(Apply(env, s, st), c))
    ensures Refusing(PhaseOf(s, c)) || (c in Apply(env, s, st).conns && Refusing(PhaseOf(Apply(env, s, st), c)))
  {
    hide P.Enabled, P.Apply, IsEphemeral, Xadd;
  }

  /** From the receipt of a frame to the OK or NOTICE that refuses it, whatever others do meanwhile, the
      handler's own steps change nothing shared: no row, worker, subscription, client, broadcast or other
      outbox, and no stream entry unless only the reply of its XADD was lost. */
  lemma RefusedFrameChangesNothing(env: Env, steps: seq<Step>, states: seq<Sys>, c: string, k: nat)
    requires NoCollision(env) && Trace(env, steps, states) && SysInv(env, states[0]) && OneFrame(steps, c)
    requires var last := |steps| - 1;
      RelaySteps.ActorOf(steps[last]) == Some(c) && c in states[last].conns && Refusing(PhaseOf(states[last], c))
    requires k < |steps| && RelaySteps.ActorOf(steps[k]) == Some(c)
    ensures Unmoved(states[k], states[k + 1], c, steps[k])
    ensures c in states[|steps|].conns && PhaseOf(states[|steps|], c) == Idle
  {
    hide SysInv, Enabled, Apply, NoCollision, Unmoved, Refusing;
    var last := |steps| - 1;
    ReceiverConnected(env, states[0], steps[0], c);
    StaysConnected(env, steps, states, c, k);
    StaysConnected(env, steps, states, c, k + 1);
    LastIsReply(env, states[last], steps[last], c);
    if k > 0 {
      OpenThroughout(env, steps, states, c, k, last);
    }
    if k < last {
      OpenThroughout(env, steps, states, c, k + 1, last);
    }
    OpenStepUnmoved(env, states[k], steps[k], c);
  }

  lemma ReceiverConnected(env: Env, s: Sys, st: Step, c: string)
    requires Enabled(env, s, st) && st.Receive? && st.c == c
    ensures c in s.conns && !Refusing(PhaseOf(s, c))
  {
    hide P.Enabled, Sql.IsAnswer, MatchesPair, NoReaders, FrameSent;
  }

  lemma LastIsReply(env: Env, s: Sys, st: Step, c: string)
    requires Enabled(env, s, st) && RelaySteps.ActorOf(st) == Some(c) && c in s.conns && Refusing(PhaseOf(s, c))
    ensures (st.Answer? || st.Complain?) && c in Apply(env, s, st).conns && PhaseOf(Apply(env, s, st), c) == Idle
  {
    hide P.Enabled, P.Apply, Sql.IsAnswer, MatchesPair, NoReaders, AddSub, RemoveSub, RemoveClient, HasId, OnFrame,
      DoRoute, DoCheck, DoCount, LiveOf, FrameSent, FromRow, Acked, DoSend, DoSnapshot, DoQuery, DoReplay;
  }
}
