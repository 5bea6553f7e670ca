/** Under any interleaving a broadcast reaches a subscription at most once (src/relay/mod.rs). */
module RelayOnce {
  import opened Base
  import opened Events
  import opened Subscriptions
  import opened Table
  import opened Streams
  import opened Protocol
  import opened Relay
  import opened RelayInv
  import opened RelayTheorems
  import RelaySteps
  import P = Pipeline
  import Sql

  /** No live message occurs twice. */
  ghost predicate LiveDistinct(out: seq<Sent>) {
    forall i, j :: 0 <= i < j < |out| && out[i].origin.Live? ==> out[i] != out[j]
  }

  /** The pair was served before the handler at `p` came to where it is, if it serves broadcast `no` at all. */
  predicate ServedBefore(casts: seq<Cast>, p: Phase, no: nat, pair: Pair) {
    p.Sending? && p.no == no ==> no < |casts| && p.next <= |casts[no].targets| && pair in casts[no].targets[..p.next]
  }

  predicate SameCast(p: Phase, q: Phase) {
    p.Sending? && q.Sending? && p.no == q.no
  }

  /** Each broadcast has one sender, and only targets before its position have the message. */
  ghost predicate OnceInv(s: Sys) {
    && (forall c, d :: c in s.conns && d in s.conns && SameCast(PhaseOf(s, c), PhaseOf(s, d)) ==> c == d)
    && (forall c, m, d :: c in s.outbox && m in s.outbox[c] && m.origin.Live? && m.msg.EventMsg? && d in s.conns ==>
          ServedBefore(s.casts, PhaseOf(s, d), m.origin.cast, (c, m.msg.sub)))
    && (forall c :: c in s.outbox ==> LiveDistinct(s.outbox[c]))
  }

  /** A step that broadcasts nothing: no handler comes to send, and no outbox gets a live message. */
  ghost predicate Plain(s: Sys, t: Sys) {
    && t.casts == s.casts
    && (forall d :: d in t.conns && PhaseOf(t, d).Sending? ==> d in s.conns && PhaseOf(s, d) == PhaseOf(t, d))
    && (forall c :: c in t.outbox ==> PlainOutbox(s, c, t.outbox[c]))
  }

  ghost predicate PlainOutbox(s: Sys, c: string, out: seq<Sent>) {
    out == [] || (c in s.outbox && (out == s.outbox[c] || exists m: Sent ::
      m.origin.Reply? && out == s.outbox[c] + [m]))
  }

  lemma PlainKept(s: Sys, t: Sys)
    requires OnceInv(s) && Plain(s, t)
    ensures OnceInv(t)
  {
    hide ServedBefore;
    forall c, m, d | c in t.outbox && m in t.outbox[c] && m.origin.Live? && m.msg.EventMsg? && d in t.conns
      ensures ServedBefore(t.casts, PhaseOf(t, d), m.origin.cast, (c, m.msg.sub))
    {
      assert PlainOutbox(s, c, t.outbox[c]);
      assert c in s.outbox && m in s.outbox[c];
      NotSending(t.casts, PhaseOf(t, d), m.origin.cast, (c, m.msg.sub));
    }
    forall c | c in t.outbox ensures LiveDistinct(t.outbox[c]) {
      assert PlainOutbox(s, c, t.outbox[c]);
      if t.outbox[c] != [] && t.outbox[c] != s.outbox[c] {
        var m: Sent :| m.origin.Reply? && t.outbox[c] == s.outbox[c] + [m];
      }
    }
  }

  lemma NotSending(casts: seq<Cast>, p: Phase, no: nat, pair: Pair)
    ensures !p.Sending? ==> ServedBefore(casts, p, no, pair)
  {
  }

  /** A move of one handler to a phase that sends nothing live, and perhaps a reply. */
  lemma MovePlain(s: Sys, t: Sys, c: string, m: Sent)
    requires c in s.conns && c in t.conns && t.conns == s.conns[c := t.conns[c]] && !PhaseOf(t, c).Sending?
    requires t.casts == s.casts && m.origin.Reply? && (t.outbox == s.outbox || t.outbox == Post(s, c, m).outbox)
    ensures Plain(s, t)
  {
    forall d | d in t.outbox ensures PlainOutbox(s, d, t.outbox[d]) {
    }
  }

  lemma FrameNoSend(env: Env, frame: Frame)
    ensures !OnFrame(env, frame).Sending?
  {
    hide Gate, Parse, IsEphemeral;
  }

  lemma EventStepPlain(env: Env, s: Sys, st: Step)
    requires Enabled(env, s, st) && (st.Receive? || st.Check? || st.Route?)
    ensures Plain(s, Apply(env, s, st))
  {
    hide Plain, OnFrame, HasId, IsEphemeral, P.Enabled, P.Apply, Sql.IsAnswer, MatchesPair, NoReaders, AddSub,
      RemoveSub, RemoveClient, LiveOf, DoSend, DoSnapshot, Post, Xadd, ToRow;
    if st.Receive? {
      FrameNoSend(env, st.frame);
    }
    MovePlain(s, Apply(env, s, st), st.c, Sent(NoticeMsg(BadMessage), Reply));
  }

  lemma AnswerStepPlain(env: Env, s: Sys, st: Step)
    requires Enabled(env, s, st) && (st.Answer? || st.Complain?)
    ensures Plain(s, Apply(env, s, st))
  {
    hide Plain, OnFrame, P.Enabled, P.Apply, Sql.IsAnswer, MatchesPair, NoReaders, AddSub, RemoveSub, RemoveClient,
      LiveOf, DoSend, DoSnapshot, DoRoute, DoCheck;
    var p := PhaseOf(s, st.c);
    var m := Sent(if st.Answer? then OkMsg(p.id, p.why) else NoticeMsg(p.complaint), Reply);
    MovePlain(s, Apply(env, s, st), st.c, m);
  }

  lemma ReqStepPlain(env: Env, s: Sys, st: Step)
    requires Enabled(env, s, st) && (st.Count? || st.Add? || st.Query? || st.Replay? || st.Eose?)
    ensures Plain(s, Apply(env, s, st))
  {
    hide Plain, OnFrame, P.Enabled, P.Apply, Sql.IsAnswer, MatchesPair, NoReaders, AddSub, RemoveSub, RemoveClient,
      LiveOf, DoSend, DoSnapshot, DoRoute, DoCheck, SubsOf, FromRow, HistoryLimit;
    var c := st.c;
    var t := Apply(env, s, st);
    var p := PhaseOf(s, c);
    var m := if st.Replay? then Sent(EventMsg(s.regs[p.reg].sub, FromRow(LastRows(p.queries)[p.next])), Reply)
             else if st.Eose? then Sent(EoseMsg(s.regs[p.reg].sub), Reply)
             else Sent(NoticeMsg(BadMessage), Reply);
    MovePlain(s, t, c, m);
  }

  lemma EndStepPlain(env: Env, s: Sys, st: Step)
    requires Enabled(env, s, st) && (st.CloseSub? || st.Deregister? || st.Forget?)
    ensures Plain(s, Apply(env, s, st))
  {
    hide Plain, OnFrame, P.Enabled, P.Apply, Sql.IsAnswer, MatchesPair, NoReaders, AddSub, RemoveSub, RemoveClient,
      LiveOf, DoSend, DoSnapshot, DoRoute, DoCheck;
    MovePlain(s, Apply(env, s, st), st.c, Sent(NoticeMsg(BadMessage), Reply));
  }

  lemma OtherStepPlain(env: Env, s: Sys, st: Step)
    requires Enabled(env, s, st) && (st.Work? || st.Connect?)
    ensures Plain(s, Apply(env, s, st))
  {
    hide P.Enabled, P.Apply, NoReaders;
  }

  // ---- the two steps of a broadcast ----

  lemma SnapshotOnce(env: Env, s: Sys, c: string, targets: seq<Pair>)
    requires OnceInv(s) && SoundInv(s) && c in s.conns && PhaseOf(s, c).Snapshotting?
    requires forall d :: d in s.conns && PhaseOf(s, d).Sending? ==> PhaseOf(s, d).no < |s.casts|
    ensures OnceInv(DoSnapshot(s, c, targets))
  {
    var t := DoSnapshot(s, c, targets);
    forall b, m, d | b in t.outbox && m in t.outbox[b] && m.origin.Live? && m.msg.EventMsg? && d in t.conns
      ensures ServedBefore(t.casts, PhaseOf(t, d), m.origin.cast, (b, m.msg.sub))
    {
      assert LiveMsgOk(s.casts, b, m);
      if d != c {
        assert ServedBefore(s.casts, PhaseOf(s, d), m.origin.cast, (b, m.msg.sub));
      }
    }
  }

  lemma SendOnce(env: Env, s: Sys, c: string)
    requires OnceInv(s) && SoundInv(s) && c in s.conns && PhaseOf(s, c).Sending? && PhaseOf(s, c).no < |s.casts|
    requires PhaseOf(s, c).next < |s.casts[PhaseOf(s, c).no].targets|
    requires Distinct(s.casts[PhaseOf(s, c).no].targets)
    ensures OnceInv(DoSend(s, c))
  {
    hide SoundInv, OnceInv;
    var k, i := PhaseOf(s, c).no, PhaseOf(s, c).next;
    var target := s.casts[k].targets[i];
    var m := Sent(EventMsg(target.1, s.casts[k].event), Live(k));
    var t := DoSend(s, c);
    FreshTarget(s, c, k, i);
    SentOnce(s, t, c, k, i, m);
  }

  /** The next target has not had the message. */
  lemma FreshTarget(s: Sys, c: string, k: nat, i: nat)
    requires OnceInv(s) && SoundInv(s) && c in s.conns && PhaseOf(s, c) == Sending(k, i) && k < |s.casts|
    requires i < |s.casts[k].targets| && Distinct(s.casts[k].targets)
    ensures var p := s.casts[k].targets[i];
      p.0 in s.outbox ==> Sent(EventMsg(p.1, s.casts[k].event), Live(k)) !in s.outbox[p.0]
  {
    var p := s.casts[k].targets[i];
    var m := Sent(EventMsg(p.1, s.casts[k].event), Live(k));
    assert p == (p.0, p.1) && p !in s.casts[k].targets[..i];
    assert p.0 in s.outbox && m in s.outbox[p.0] ==> ServedBefore(s.casts, PhaseOf(s, c), k, (p.0, m.msg.sub));
  }

  lemma SentOnce(s: Sys, t: Sys, c: string, k: nat, i: nat, m: Sent)
    requires OnceInv(s) && c in s.conns && PhaseOf(s, c) == Sending(k, i) && k < |s.casts| && i < |s.casts[k].targets|
    requires m == Sent(EventMsg(s.casts[k].targets[i].1, s.casts[k].event), Live(k))
    requires t.casts == s.casts && t.outbox == Post(s, s.casts[k].targets[i].0, m).outbox
    requires c in t.conns && t.conns == s.conns[c := t.conns[c]]
    requires PhaseOf(t, c).Sending? ==> PhaseOf(t, c) == Sending(k, i + 1) && i + 1 < |s.casts[k].targets|
    requires s.casts[k].targets[i].0 in s.outbox ==> m !in s.outbox[s.casts[k].targets[i].0]
    ensures OnceInv(t)
  {
    hide ServedBefore, LiveDistinct;
    var target := s.casts[k].targets[i];
    forall b, x, d | b in t.outbox && x in t.outbox[b] && x.origin.Live? && x.msg.EventMsg? && d in t.conns
      ensures ServedBefore(t.casts, PhaseOf(t, d), x.origin.cast, (b, x.msg.sub))
    {
      if x in s.outbox[b] {
        assert ServedBefore(s.casts, PhaseOf(s, d), x.origin.cast, (b, x.msg.sub));
        if d == c {
          ServedNext(s.casts, PhaseOf(t, c), k, i, x.origin.cast, (b, x.msg.sub));
        }
      } else {
        assert x == m && b == target.0;
        NewlyServed(s, t, c, k, i, d);
      }
    }
    forall b | b in t.outbox ensures LiveDistinct(t.outbox[b]) {
      assert LiveDistinct(s.outbox[b]);
      if t.outbox[b] != s.outbox[b] {
        AppendDistinct(s.outbox[b], m);
      }
    }
  }

  lemma NewlyServed(s: Sys, t: Sys, c: string, k: nat, i: nat, d: string)
    requires OnceInv(s) && c in s.conns && PhaseOf(s, c) == Sending(k, i) && k < |s.casts| && i < |s.casts[k].targets|
    requires c in t.conns && t.conns == s.conns[c := t.conns[c]] && d in t.conns
    requires PhaseOf(t, c).Sending? ==> PhaseOf(t, c) == Sending(k, i + 1)
    ensures ServedBefore(s.casts, PhaseOf(t, d), k, (s.casts[k].targets[i].0, s.casts[k].targets[i].1))
  {
    hide ServedBefore, LiveDistinct;
    if d == c {
      ServedNow(s.casts, PhaseOf(t, c), k, i);
    } else {
      assert !SameCast(PhaseOf(s, c), PhaseOf(s, d));
      NotSender(s.casts, PhaseOf(s, d), k, (s.casts[k].targets[i].0, s.casts[k].targets[i].1));
    }
  }

  lemma AppendDistinct(out: seq<Sent>, m: Sent)
    requires LiveDistinct(out) && m !in out
    ensures LiveDistinct(out + [m])
  {
  }

  lemma ServedNext(casts: seq<Cast>, p: Phase, k: nat, i: nat, no: nat, pair: Pair)
    requires k < |casts| && i < |casts[k].targets| && ServedBefore(casts, Sending(k, i), no, pair)
    requires p.Sending? ==> p == Sending(k, i + 1)
    ensures ServedBefore(casts, p, no, pair)
  {
    assert casts[k].targets[..i] <= casts[k].targets[..i + 1];
  }

  lemma ServedNow(casts: seq<Cast>, p: Phase, k: nat, i: nat)
    requires k < |casts| && i < |casts[k].targets| && (p.Sending? ==> p == Sending(k, i + 1))
    ensures ServedBefore(casts, p, k, (casts[k].targets[i].0, casts[k].targets[i].1))
  {
    assert casts[k].targets[i] == (casts[k].targets[i].0, casts[k].targets[i].1);
    assert casts[k].targets[..i + 1][i] == casts[k].targets[i];
  }

  lemma NotSender(casts: seq<Cast>, p: Phase, k: nat, pair: Pair)
    requires p.Sending? ==> p.no != k
    ensures ServedBefore(casts, p, k, pair)
  {
  }

  // ---- every run ----

  lemma SendersKnown(env: Env, s: Sys)
    requires FrontInv(env, s)
    ensures SoundInv(s)
    ensures forall d :: d in s.conns && PhaseOf(s, d).Sending? ==>
      PhaseOf(s, d).no < |s.casts| && Distinct(s.casts[PhaseOf(s, d).no].targets)
  {
    hide IdsInv, LimitInv, LiveInv, SoundInv, OutcomeOk, Replies, Transcript, Partial, Distinct;
    forall d | d in s.conns && PhaseOf(s, d).Sending?
      ensures PhaseOf(s, d).no < |s.casts| && Distinct(s.casts[PhaseOf(s, d).no].targets)
    {
      assert ConnOk(env, s, d);
      assert CastOk(env, s.pipe.stream, s.casts[PhaseOf(s, d).no]);
    }
  }

  lemma StepOnce(env: Env, s: Sys, st: Step)
    requires Enabled(env, s, st) && FrontInv(env, s) && OnceInv(s)
    ensures OnceInv(Apply(env, s, st))
  {
    hide FrontInv, OnceInv, SoundInv, Plain, DoSend, DoSnapshot, OnFrame, P.Enabled, P.Apply, Sql.IsAnswer, MatchesPair,
      NoReaders, AddSub, RemoveSub, RemoveClient, LiveOf, DoRoute, DoCheck, HasId, Distinct;
    SendersKnown(env, s);
    if st.Snapshot? {
      SnapshotOnce(env, s, st.c, st.targets);
    } else if st.Send? {
      SendOnce(env, s, st.c);
    } else {
      StepPlain(env, s, st);
      PlainKept(s, Apply(env, s, st));
    }
  }

  lemma StepPlain(env: Env, s: Sys, st: Step)
    requires Enabled(env, s, st) && !st.Snapshot? && !st.Send?
    ensures Plain(s, Apply(env, s, st))
  {
    hide Enabled, Apply, Plain;
    if st.Receive? || st.Check? || st.Route? {
      EventStepPlain(env, s, st);
    } else if st.Answer? || st.Complain? {
      AnswerStepPlain(env, s, st);
    } else if st.Count? || st.Add? || st.Query? || st.Replay? || st.Eose? {
      ReqStepPlain(env, s, st);
    } else if st.CloseSub? || st.Deregister? || st.Forget? {
      EndStepPlain(env, s, st);
    } else {
      OtherStepPlain(env, s, st);
    }
  }

  lemma {:induction false} RunOnce(env: Env, s: Sys, steps: seq<Step>, t: Sys)
    requires NoCollision(env) && Runs(env, s, steps, t) && SysInv(env, s) && OnceInv(s)
    ensures OnceInv(t)
    decreases |steps|
  {
    hide Enabled, Apply, OnceInv, FrontInv, P.Inv;
    if steps == [] {
    } else {
      StepOnce(env, s, steps[0]);
      RelaySteps.StepKept(env, s, steps[0]);
      RunOnce(env, Apply(env, s, steps[0]), steps[1..], t);
    }
  }

  /** In every reachable state no broadcast has sent a subscription its event twice. */
  lemma LiveAtMostOnce(env: Env, steps: seq<Step>, t: Sys, c: string, i: nat, j: nat)
    requires Reached(env, steps, t) && c in t.outbox && i < j < |t.outbox[c]|
    requires t.outbox[c][i].origin.Live? && t.outbox[c][i].msg.EventMsg? && t.outbox[c][j].msg.EventMsg?
    ensures t.outbox[c][i].msg.sub == t.outbox[c][j].msg.sub ==> t.outbox[c][i].origin != t.outbox[c][j].origin
  {
    hide P.Inv, FrontInv;
    var pipe :| Inherited(env, pipe) && Runs(env, Started(pipe), steps, t);
    RelaySteps.StartedInv(env, pipe);
    RunOnce(env, Started(pipe), steps, t);
    ReachedInv(env, steps, t);
    SendersKnown(env, t);
    var x, y := t.outbox[c][i], t.outbox[c][j];
    assert LiveDistinct(t.outbox[c]);
    assert LiveMsgOk(t.casts, c, x) && LiveMsgOk(t.casts, c, y);
  }
}
