/** Every step of the relay machine keeps its invariants. */
module RelaySteps {
  import opened Base
  import opened Events
  import opened Filters
  import opened Subscriptions
  import opened Table
  import opened Streams
  import opened Protocol
  import opened Relay
  import opened RelayInv
  import ClientIds
  import P = Pipeline
  import Sql

  /** The connection whose handler takes the step. */
  function ActorOf(st: Step): Option<string> {
    if st.Work? || st.Connect? then None else Some(st.c)
  }

  /** A connection's part of the invariant. */
  lemma ConnOf(env: Env, s: Sys, c: string)
    requires FrontInv(env, s) && c in s.conns
    ensures c in s.outbox && ConnOk(env, s, c)
  {
    hide IdsInv, LimitInv, LiveInv, CastsInv, SoundInv, ConnOk;
  }

  lemma FrontParts(env: Env, s: Sys)
    requires FrontInv(env, s)
    ensures IdsInv(s) && KeysInv(s) && LimitInv(env, s) && LiveInv(s) && CastsInv(env, s) && SoundInv(s)
  {
    hide IdsInv, KeysInv, LimitInv, LiveInv, CastsInv, SoundInv, ConnOk;
  }

  /** Phases that claim nothing. */
  lemma PlainPhase(env: Env, s: Sys, c: string, p: Phase)
    requires p.Idle? || p.Complaining? || p.Closing? || p.Departing? || p.Leaving? || p.Gone?
    ensures PhaseOk(env, s, c, p) && Partial(s.regs, p) == []
  {
  }

  // ---- steps within one connection ----

  /** Only the handler state of `c`, outboxes and the pipeline change. */
  ghost predicate Local(s: Sys, t: Sys, c: string) {
    && c in s.conns && c in t.conns
    && t == s.(conns := s.conns[c := t.conns[c]], outbox := t.outbox, pipe := t.pipe)
    && t.outbox.Keys == s.outbox.Keys
    && (forall d :: d in s.outbox ==> s.outbox[d] <= t.outbox[d])
    && s.pipe.stream.entries <= t.pipe.stream.entries
    && Registered(PhaseOf(s, c)) && Registered(PhaseOf(t, c))
  }

  lemma CastsKept(env: Env, s: Sys, stream: Stream)
    requires CastsInv(env, s) && s.pipe.stream.entries <= stream.entries
    ensures forall k :: 0 <= k < |s.casts| ==> CastOk(env, stream, s.casts[k])
  {
    forall k | 0 <= k < |s.casts| ensures CastOk(env, stream, s.casts[k]) {
      assert CastOk(env, s.pipe.stream, s.casts[k]);
    }
  }

  lemma LiveUnchanged(s: Sys, t: Sys)
    requires LiveInv(s) && t.live == s.live && t.subs == s.subs && t.regs == s.regs && t.casts == s.casts
    ensures LiveInv(t)
  {
    hide MatchesAny;
    forall p | p in t.live ensures LivePairOk(t, p) {
      assert LivePairOk(s, p);
    }
  }

  lemma LocalKeys(s: Sys, t: Sys, c: string)
    requires KeysInv(s) && IdsInv(s) && LiveInv(s) && Local(s, t, c)
    ensures KeysInv(t) && IdsInv(t) && LiveInv(t)
  {
    hide LiveInv, IssuedId;
    LiveUnchanged(s, t);
  }

  lemma LocalKept(env: Env, s: Sys, t: Sys, c: string)
    requires FrontInv(env, s) && Local(s, t, c) && SoundInv(t)
    requires forall d :: d in s.outbox && d != c ==> Replies(t.outbox[d]) == Replies(s.outbox[d])
    requires PhaseOk(env, t, c, PhaseOf(t, c))
    requires t.conns[c].log == s.conns[c].log || exists o ::
      t.conns[c].log == s.conns[c].log + [o] && OutcomeOk(env, t, c, o)
    requires Replies(t.outbox[c]) == Transcript(t.conns[c].log) + Partial(t.regs, PhaseOf(t, c))
    ensures FrontInv(env, t)
  {
    hide IssuedId, SubsWithin, LivePairOk, CastOk, LiveMsgOk, ConnOk, PhaseOk, OutcomeOk, Partial, Transcript, Replies;
    LocalKeys(s, t, c);
    CastsKept(env, s, t.pipe.stream);
    forall d | d in t.conns ensures ConnOk(env, t, d) {
      ConnOf(env, s, d);
      if d == c {
        ActorKept(env, s, t, c);
      } else {
        BystanderKept(env, s, t, d);
      }
    }
  }

  /** A step that sends nothing and only moves the phase of `c`, perhaps queueing an event. */
  lemma QuietKept(env: Env, s: Sys, c: string, p: Phase, pipe: P.Pipe)
    requires FrontInv(env, s) && c in s.conns && Registered(PhaseOf(s, c)) && Registered(p)
    requires s.pipe.stream.entries <= pipe.stream.entries
    requires PhaseOk(env, SetPhase(s, c, p).(pipe := pipe), c, p)
    requires Partial(s.regs, p) == Partial(s.regs, PhaseOf(s, c))
    ensures FrontInv(env, SetPhase(s, c, p).(pipe := pipe))
  {
    hide IssuedId, SubsWithin, LivePairOk, CastOk, LiveMsgOk;
    hide PhaseOk, OutcomeOk, Partial, Transcript;
    LocalKept(env, s, SetPhase(s, c, p).(pipe := pipe), c);
  }

  /** The state after a reply to `c` that leaves its connection as `conn`. */
  function Replied(s: Sys, c: string, m: Msg, conn: Conn): Sys
    requires c in s.conns
  {
    Post(s, c, Sent(m, Reply)).(conns := s.conns[c := conn])
  }

  ghost predicate LogGrows(env: Env, s: Sys, c: string, log: seq<Outcome>)
    requires c in s.conns
  {
    log == s.conns[c].log || exists o :: log == s.conns[c].log + [o] && OutcomeOk(env, s, c, o)
  }

  lemma ReplyEffect(env: Env, s: Sys, c: string, m: Msg, conn: Conn)
    requires c in s.conns && KeysInv(s) && Registered(PhaseOf(s, c)) && Registered(conn.phase)
    ensures var t := Replied(s, c, m, conn);
      && t.outbox == s.outbox[c := s.outbox[c] + [Sent(m, Reply)]]
      && Local(s, t, c) && Grows(s, t) && t.pipe == s.pipe
      && (forall d :: d in s.outbox && d != c ==> Replies(t.outbox[d]) == Replies(s.outbox[d]))
      && Replies(t.outbox[c]) == Replies(s.outbox[c]) + [m]
  {
    RepliesAppend(s.outbox[c], Sent(m, Reply));
  }

  /** A step that sends one reply. */
  lemma ReplyKept(env: Env, s: Sys, c: string, m: Msg, conn: Conn)
    requires c in s.conns && Registered(PhaseOf(s, c)) && Registered(conn.phase)
    requires PhaseOk(env, s, c, conn.phase) && LogGrows(env, s, c, conn.log)
    requires Transcript(conn.log) + Partial(s.regs, conn.phase)
          == Transcript(s.conns[c].log) + Partial(s.regs, PhaseOf(s, c)) + [m]
    requires FrontInv(env, s)
    ensures FrontInv(env, Replied(s, c, m, conn))
  {
    hide IssuedId, SubsWithin, LivePairOk, CastOk, LiveMsgOk;
    hide PhaseOk, OutcomeOk, Partial, Transcript, Replies;
    var t := Replied(s, c, m, conn);
    ConnOf(env, s, c);
    ReplyEffect(env, s, c, m, conn);
    PhaseKept(env, s, t, c, conn.phase);
    LogGrowsKept(env, s, t, c, conn.log);
    SoundAfterReply(s, t, c, Sent(m, Reply));
    LocalKept(env, s, t, c);
  }

  lemma LogGrowsKept(env: Env, s: Sys, t: Sys, c: string, log: seq<Outcome>)
    requires c in s.conns && KeysInv(s) && Grows(s, t) && LogGrows(env, s, c, log)
    ensures log == s.conns[c].log || exists o :: log == s.conns[c].log + [o] && OutcomeOk(env, t, c, o)
  {
    if o :| log == s.conns[c].log + [o] && OutcomeOk(env, s, c, o) {
      OutcomeKept(env, s, t, c, o);
    }
  }

  lemma SoundAfterReply(s: Sys, t: Sys, c: string, m: Sent)
    requires SoundInv(s) && c in s.outbox && m.origin.Reply?
    requires t.outbox == s.outbox[c := s.outbox[c] + [m]] && t.casts == s.casts
    ensures SoundInv(t)
  {
    forall d, x | d in t.outbox && x in t.outbox[d] ensures LiveMsgOk(t.casts, d, x) {
      if x != m {
        assert x in s.outbox[d];
      }
    }
  }

  /** The phases a frame can lead to claim nothing about the shared state. */
  lemma OnRequestOk(env: Env, s: Sys, c: string, request: Request)
    requires request.EventRequest? ==> env.sent(request.event)
    ensures var p := OnRequest(env, request); PhaseOk(env, s, c, p) && Registered(p) && Partial(s.regs, p) == []
  {
    match request
    case EventRequest(e) => assert Gate(env, e).None? ==> Known(env, e);
    case _ =>
  }

  lemma ReceiveKept(env: Env, s: Sys, c: string, frame: Frame)
    requires c in s.conns && PhaseOf(s, c).Idle? && FrameSent(env, frame)
    requires FrontInv(env, s)
    ensures FrontInv(env, SetPhase(s, c, OnFrame(env, frame)))
  {
    var p := OnFrame(env, frame);
    FrameOk(env, SetPhase(s, c, p), c, frame);
    FrameOk(env, s, c, frame);
    assert SetPhase(s, c, p) == SetPhase(s, c, p).(pipe := s.pipe);
    QuietKept(env, s, c, p, s.pipe);
  }

  lemma FrameOk(env: Env, s: Sys, c: string, frame: Frame)
    requires FrameSent(env, frame)
    ensures var p := OnFrame(env, frame); PhaseOk(env, s, c, p) && Registered(p) && Partial(s.regs, p) == []
  {
    match frame
    case TextFrame(body) => OnRequestOk(env, s, c, Parse(body));
    case _ =>
  }

  lemma CheckKept(env: Env, s: Sys, c: string, fails: bool)
    requires c in s.conns && PhaseOf(s, c).Checking?
    requires FrontInv(env, s)
    ensures FrontInv(env, DoCheck(s, c, fails))
  {
    hide FrontInv, P.Inv;
    var p := PhaseOf(DoCheck(s, c, fails), c);
    ConnOf(env, s, c);
    CheckPhase(env, s, c, fails, PhaseOf(s, c).e);
    assert DoCheck(s, c, fails) == SetPhase(s, c, p).(pipe := s.pipe);
    QuietKept(env, s, c, p, s.pipe);
  }

  lemma CheckPhase(env: Env, s: Sys, c: string, fails: bool, e: NostrEvent)
    requires c in s.conns && PhaseOf(s, c) == Checking(e) && Known(env, e)
    ensures var t := DoCheck(s, c, fails); var p := PhaseOf(t, c);
      t == SetPhase(s, c, p) && PhaseOk(env, t, c, p) && Registered(p) && Partial(s.regs, p) == []
  {
  }

  lemma RoutePhase(env: Env, s: Sys, c: string, fault: Fault)
    requires c in s.conns && PhaseOf(s, c).Routing? && Known(env, PhaseOf(s, c).e)
    ensures var t := DoRoute(s, c, fault);
      var p := PhaseOf(t, c);
      && t == SetPhase(s, c, p).(pipe := t.pipe) && s.pipe.stream.entries <= t.pipe.stream.entries
      && (t.pipe == s.pipe ||
          (!IsEphemeral(PhaseOf(s, c).e) &&
           t.pipe == s.pipe.(stream := Xadd(s.pipe.stream, EventJson(PhaseOf(s, c).e)))))
      && PhaseOk(env, t, c, p) && Registered(p) && Partial(s.regs, p) == []
  {
    hide Known;
  }

  lemma RouteKept(env: Env, s: Sys, c: string, fault: Fault)
    requires c in s.conns && PhaseOf(s, c).Routing?
    requires SysInv(env, s)
    ensures SysInv(env, DoRoute(s, c, fault))
  {
    hide FrontInv, P.Inv, Known, EntryOk;
    var e, t := PhaseOf(s, c).e, DoRoute(s, c, fault);
    ConnOf(env, s, c);
    if !IsEphemeral(e) {
      P.AppendStep(env, s.pipe, EventJson(e));
    }
    RoutePhase(env, s, c, fault);
    QuietKept(env, s, c, PhaseOf(t, c), t.pipe);
  }

  lemma CountPhase(env: Env, s: Sys, c: string)
    requires c in s.conns && PhaseOf(s, c).Counting? && PhaseOk(env, s, c, PhaseOf(s, c))
    ensures var p := PhaseOf(DoCount(env, s, c), c);
      PhaseOk(env, DoCount(env, s, c), c, p) && Registered(p) && Partial(s.regs, p) == Partial(s.regs, PhaseOf(s, c))
  {
  }

  lemma CountKept(env: Env, s: Sys, c: string)
    requires FrontInv(env, s) && c in s.conns && PhaseOf(s, c).Counting?
    ensures FrontInv(env, DoCount(env, s, c))
  {
    hide FrontInv, P.Inv;
    var t := DoCount(env, s, c);
    ConnOf(env, s, c);
    CountPhase(env, s, c);
    assert t == SetPhase(s, c, PhaseOf(t, c)).(pipe := s.pipe);
    QuietKept(env, s, c, PhaseOf(t, c), s.pipe);
  }

  /** Replies that are a whole outcome. */
  lemma OutcomeSent(env: Env, s: Sys, c: string, m: Msg, o: Outcome)
    requires c in s.conns && Registered(PhaseOf(s, c)) && Partial(s.regs, PhaseOf(s, c)) == []
    requires Render(o) == [m] && OutcomeOk(env, s, c, o)
    requires FrontInv(env, s)
    ensures FrontInv(env, Replied(s, c, m, Conn(Idle, s.conns[c].log + [o])))
  {
    hide FrontInv, PhaseOk, OutcomeOk, Transcript, Partial, LogGrows;
    OutcomeTranscript(env, s, c, m, o);
    PlainPhase(env, s, c, Idle);
    assert Transcript(s.conns[c].log + [o]) + Partial(s.regs, Idle) == Transcript(s.conns[c].log + [o]);
    ReplyKept(env, s, c, m, Conn(Idle, s.conns[c].log + [o]));
  }

  lemma OutcomeTranscript(env: Env, s: Sys, c: string, m: Msg, o: Outcome)
    requires c in s.conns && Partial(s.regs, PhaseOf(s, c)) == [] && Render(o) == [m] && OutcomeOk(env, s, c, o)
    ensures var log := s.conns[c].log;
      && LogGrows(env, s, c, log + [o])
      && Transcript(log + [o]) == Transcript(log) + Partial(s.regs, PhaseOf(s, c)) + [m]
  {
    TranscriptAppend(s.conns[c].log, o);
  }

  lemma AnswerOutcome(env: Env, s: Sys, c: string)
    requires c in s.conns && PhaseOf(s, c).Answering? && PhaseOk(env, s, c, PhaseOf(s, c))
    ensures var p := PhaseOf(s, c);
      Registered(p) && Partial(s.regs, p) == [] && OutcomeOk(env, s, c, Answered(p.id, p.why, p.cast))
  {
  }

  lemma AnswerKept(env: Env, s: Sys, c: string)
    requires c in s.conns && PhaseOf(s, c).Answering?
    requires FrontInv(env, s)
    ensures FrontInv(env, DoAnswer(s, c))
  {
    hide FrontInv, P.Inv;
    var p := PhaseOf(s, c);
    var o := Answered(p.id, p.why, p.cast);
    ConnOf(env, s, c);
    AnswerOutcome(env, s, c);
    assert DoAnswer(s, c) == Replied(s, c, OkMsg(p.id, p.why), Conn(Idle, s.conns[c].log + [o]));
    OutcomeSent(env, s, c, OkMsg(p.id, p.why), o);
  }

  lemma ComplainKept(env: Env, s: Sys, c: string)
    requires c in s.conns && PhaseOf(s, c).Complaining?
    requires FrontInv(env, s)
    ensures FrontInv(env, DoComplain(s, c))
  {
    hide FrontInv, P.Inv;
    var p := PhaseOf(s, c);
    var o := Complained(p.complaint);
    assert DoComplain(s, c) == Replied(s, c, NoticeMsg(p.complaint), Conn(Idle, s.conns[c].log + [o]));
    OutcomeSent(env, s, c, NoticeMsg(p.complaint), o);
  }

  lemma EoseKept(env: Env, s: Sys, c: string)
    requires c in s.conns && PhaseOf(s, c).Querying? && PhaseOf(s, c).reg < |s.regs|
    requires |PhaseOf(s, c).queries| == |s.regs[PhaseOf(s, c).reg].filters|
    requires FrontInv(env, s)
    ensures FrontInv(env, DoEose(s, c))
  {
    hide FrontInv, P.Inv;
    var p, log := PhaseOf(s, c), s.conns[c].log;
    var sub := s.regs[p.reg].sub;
    var conn := Conn(Idle, log + [Subscribed(p.reg, sub, p.queries)]);
    ConnOf(env, s, c);
    EoseEffect(env, s, c, p.reg, p.queries);
    ReplyKept(env, s, c, EoseMsg(sub), conn);
    assert DoEose(s, c) == Replied(s, c, EoseMsg(sub), conn);
  }

  lemma EoseEffect(env: Env, s: Sys, c: string, r: nat, queries: seq<QueryRec>)
    requires c in s.conns && RegOk(env, s, c, r, queries) && |queries| == |s.regs[r].filters|
    ensures var log, sub := s.conns[c].log, s.regs[r].sub;
      var o := Subscribed(r, sub, queries);
      && LogGrows(env, s, c, log + [o])
      && Transcript(log + [o]) == Transcript(log) + History(sub, queries) + [EoseMsg(sub)]
  {
    var log, sub := s.conns[c].log, s.regs[r].sub;
    var o := Subscribed(r, sub, queries);
    TranscriptAppend(log, o);
    assert OutcomeOk(env, s, c, o);
    assert Transcript(log) + (History(sub, queries) + [EoseMsg(sub)])
        == Transcript(log) + History(sub, queries) + [EoseMsg(sub)];
  }

  lemma ReplayPhase(env: Env, s: Sys, c: string, r: nat, queries: seq<QueryRec>, next: nat)
    requires RegOk(env, s, c, r, queries) && next < |LastRows(queries)|
    ensures PhaseOk(env, s, c,
      if next + 1 < |LastRows(queries)| then Replaying(r, queries, next + 1) else Querying(r, queries))
  {
  }

  lemma ReplayKept(env: Env, s: Sys, c: string)
    requires c in s.conns && PhaseOf(s, c).Replaying? && PhaseOf(s, c).reg < |s.regs|
    requires PhaseOf(s, c).next < |LastRows(PhaseOf(s, c).queries)|
    requires FrontInv(env, s)
    ensures FrontInv(env, DoReplay(s, c))
  {
    hide FrontInv, P.Inv;
    var p, log := PhaseOf(s, c), s.conns[c].log;
    var m := EventMsg(s.regs[p.reg].sub, FromRow(LastRows(p.queries)[p.next]));
    var p' := PhaseOf(DoReplay(s, c), c);
    ConnOf(env, s, c);
    PartialAdvances(s.regs, p, p', m);
    ReplayPhase(env, s, c, p.reg, p.queries, p.next);
    AppendAssociates(Transcript(log), Partial(s.regs, p), m);
    assert DoReplay(s, c) == Replied(s, c, m, Conn(p', log));
    ReplyKept(env, s, c, m, Conn(p', log));
  }

  lemma AppendAssociates(a: seq<Msg>, b: seq<Msg>, m: Msg)
    ensures a + (b + [m]) == a + b + [m]
  {
  }

  lemma PartialAdvances(regs: seq<Reg>, p: Phase, p': Phase, m: Msg)
    requires p.Replaying? && p.reg < |regs| && p.next < |LastRows(p.queries)|
    requires m == EventMsg(regs[p.reg].sub, FromRow(LastRows(p.queries)[p.next]))
    requires p' == if p.next + 1 < |LastRows(p.queries)| then Replaying(p.reg, p.queries, p.next + 1)
                   else Querying(p.reg, p.queries)
    ensures Partial(regs, p') == Partial(regs, p) + [m]
  {
    var sub, rows := regs[p.reg].sub, LastRows(p.queries);
    var before := History(sub, p.queries[..|p.queries| - 1]);
    assert RowMsgs(sub, rows[..p.next + 1]) == RowMsgs(sub, rows[..p.next]) + [m];
    assert rows[..|rows|] == rows;
    assert before + (RowMsgs(sub, rows[..p.next]) + [m]) == before + RowMsgs(sub, rows[..p.next]) + [m];
  }

  lemma PipeParts(env: Env, s: Sys)
    requires P.Inv(env, s.pipe)
    ensures P.TableGated(s.pipe) && P.AckedSettled(s.pipe)
  {
  }

  lemma QueryKept(env: Env, s: Sys, c: string, answer: Option<seq<Row>>)
    requires c in s.conns && PhaseOf(s, c).Querying? && PhaseOf(s, c).reg < |s.regs|
    requires |PhaseOf(s, c).queries| < |s.regs[PhaseOf(s, c).reg].filters|
    requires var f := s.regs[PhaseOf(s, c).reg].filters[|PhaseOf(s, c).queries|];
      answer.Some? ==> Sql.IsAnswer(s.pipe.table, Asked(f), HistoryLimit(env, f), answer.value)
    requires SysInv(env, s)
    ensures SysInv(env, DoQuery(s, c, answer))
  {
    hide FrontInv, P.Inv;
    var p, t := PhaseOf(s, c), DoQuery(s, c, answer);
    var f := s.regs[p.reg].filters[|p.queries|];
    ConnOf(env, s, c);
    PipeParts(env, s);
    RecordOk(env, s, f, answer);
    QueryPhase(env, s, c, p.reg, p.queries, RecordOf(s, f, answer));
    assert t == SetPhase(s, c, PhaseOf(t, c)).(pipe := s.pipe);
    PhaseUnderMove(env, s, t, c, PhaseOf(t, c));
    QuietKept(env, s, c, PhaseOf(t, c), s.pipe);
  }

  lemma PhaseUnderMove(env: Env, s: Sys, t: Sys, c: string, p: Phase)
    requires c in s.conns && t == SetPhase(s, c, p) && PhaseOk(env, s, c, p)
    ensures PhaseOk(env, t, c, p)
  {
  }

  /** What a query sees of the pipeline is what the pipeline's invariant says of every moment. */
  lemma RecordOk(env: Env, s: Sys, f: Filter, answer: Option<seq<Row>>)
    requires P.TableGated(s.pipe) && P.AckedSettled(s.pipe)
    requires answer.Some? ==> Sql.IsAnswer(s.pipe.table, Asked(f), HistoryLimit(env, f), answer.value)
    ensures QueryOk(env, s.pipe.stream, RecordOf(s, f, answer))
  {
  }

  lemma QueryPhase(env: Env, s: Sys, c: string, r: nat, queries: seq<QueryRec>, q: QueryRec)
    requires RegOk(env, s, c, r, queries) && |queries| < |s.regs[r].filters|
    requires q.filter == s.regs[r].filters[|queries|] && QueryOk(env, s.pipe.stream, q)
    ensures var p := if q.rows == [] then Querying(r, queries + [q]) else Replaying(r, queries + [q], 0);
      && PhaseOk(env, s, c, p)
      && Partial(s.regs, p) == Partial(s.regs, Querying(r, queries))
  {
    var sub := s.regs[r].sub;
    HistoryAppend(sub, queries, q);
    assert (queries + [q])[..|queries|] == queries;
    assert RowMsgs(sub, q.rows[..0]) == [];
    assert q.rows == [] ==> RowMsgs(sub, q.rows) == [];
  }

  lemma SendKept(env: Env, s: Sys, c: string)
    requires c in s.conns && PhaseOf(s, c).Sending? && PhaseOf(s, c).no < |s.casts|
    requires PhaseOf(s, c).next < |s.casts[PhaseOf(s, c).no].targets|
    requires FrontInv(env, s)
    ensures FrontInv(env, DoSend(s, c))
  {
    hide FrontInv, SoundInv, CastsInv, LiveInv, LimitInv, IdsInv, Replies, Transcript, OutcomeOk;
    var k, i := PhaseOf(s, c).no, PhaseOf(s, c).next;
    ConnOf(env, s, c);
    FrontParts(env, s);
    assert s.casts[k].targets[i] in s.casts[k].targets && s.casts[k].targets[i].0 in s.conns;
    var p := if i + 1 < |s.casts[k].targets| then Sending(k, i + 1) else Answering(s.casts[k].event.id, None, Some(k));
    assert DoSend(s, c) == SetPhase(Post(s, s.casts[k].targets[i].0, TargetMsg(s, k, i)), c, p);
    SentKept(env, s, c, k, i, p);
  }

  function TargetMsg(s: Sys, k: nat, i: nat): Sent
    requires k < |s.casts| && i < |s.casts[k].targets|
  {
    Sent(EventMsg(s.casts[k].targets[i].1, s.casts[k].event), Live(k))
  }

  lemma SentKept(env: Env, s: Sys, c: string, k: nat, i: nat, p: Phase)
    requires c in s.conns && PhaseOf(s, c) == Sending(k, i) && k < |s.casts| && i < |s.casts[k].targets|
    requires FrontInv(env, s) && KeysInv(s) && SoundInv(s) && DeliveredUpTo(s, k, i)
    requires s.casts[k].targets[i] in s.casts[k].targets && s.casts[k].targets[i].0 in s.conns
    requires p == if i + 1 < |s.casts[k].targets| then Sending(k, i + 1)
      else Answering(s.casts[k].event.id, None, Some(k))
    requires c in s.outbox && Replies(s.outbox[c]) == Transcript(s.conns[c].log) + Partial(s.regs, PhaseOf(s, c))
    ensures FrontInv(env, SetPhase(Post(s, s.casts[k].targets[i].0, TargetMsg(s, k, i)), c, p))
  {
    hide FrontInv, SoundInv, DeliveredUpTo, Delivered, PhaseOk, Transcript, Replies;
    var target := s.casts[k].targets[i];
    var t := SetPhase(Post(s, target.0, TargetMsg(s, k, i)), c, p);
    SendOutbox(s, t, c, k, target);
    SendPhase(env, s, t, c, k, i);
    SoundAfterSend(s, t, target, k);
    assert Partial(t.regs, p) == [] && Partial(s.regs, PhaseOf(s, c)) == [];
    LocalKept(env, s, t, c);
  }

  lemma SendPhase(env: Env, s: Sys, t: Sys, c: string, k: nat, i: nat)
    requires c in t.conns && k < |s.casts| && i < |s.casts[k].targets| && t.casts == s.casts
    requires KeysInv(s) && Grows(s, t) && DeliveredUpTo(s, k, i) && Delivered(t, k, s.casts[k].targets[i])
    requires PhaseOf(t, c) == if i + 1 < |s.casts[k].targets| then Sending(k, i + 1)
                              else Answering(s.casts[k].event.id, None, Some(k))
    ensures PhaseOk(env, t, c, PhaseOf(t, c)) && Registered(PhaseOf(t, c))
  {
    DeliveredKept(s, t, k, i);
    assert DeliveredUpTo(t, k, i + 1);
  }

  lemma SendOutbox(s: Sys, t: Sys, c: string, k: nat, target: Pair)
    requires c in s.conns && c in t.conns && k < |s.casts| && KeysInv(s) && target.0 in s.conns
    requires t ==
      Post(s, target.0, Sent(EventMsg(target.1, s.casts[k].event), Live(k))).(conns := s.conns[c := t.conns[c]])
    ensures Grows(s, t) && t.outbox.Keys == s.outbox.Keys && Delivered(t, k, target)
    ensures forall d :: d in s.outbox ==> Replies(t.outbox[d]) == Replies(s.outbox[d])
  {
    var m := Sent(EventMsg(target.1, s.casts[k].event), Live(k));
    RepliesAppend(s.outbox[target.0], m);
    if target.0 in s.clients {
      assert t.outbox[target.0][|s.outbox[target.0]|] == m;
    }
  }

  lemma SoundAfterSend(s: Sys, t: Sys, target: Pair, k: nat)
    requires SoundInv(s) && k < |s.casts| && target in s.casts[k].targets && target.0 in s.outbox
    requires t.casts == s.casts
    requires t.outbox == s.outbox || t.outbox ==
      s.outbox[target.0 := s.outbox[target.0] + [Sent(EventMsg(target.1, s.casts[k].event), Live(k))]]
    ensures SoundInv(t)
  {
    var m := Sent(EventMsg(target.1, s.casts[k].event), Live(k));
    assert target == (target.0, target.1);
    forall d, x | d in t.outbox && x in t.outbox[d] ensures LiveMsgOk(t.casts, d, x) {
      if x !in s.outbox[d] {
        assert d == target.0 && x == m;
      }
    }
  }

  // ---- steps that change the shared maps ----

  /** The connections other than `c` see nothing but growth. */
  ghost predicate OthersUntouched(s: Sys, t: Sys, c: string) {
    && (forall d :: d in s.conns ==> d in t.conns)
    && (forall d :: d in t.conns && d != c ==>
          && d in s.conns && t.conns[d] == s.conns[d] && SubsOf(t.subs, d) == SubsOf(s.subs, d)
          && d in s.outbox && d in t.outbox && t.outbox[d] == s.outbox[d])
  }

  lemma SharedKept(env: Env, s: Sys, t: Sys, c: string)
    requires IdsInv(t) && KeysInv(t) && LimitInv(env, t) && LiveInv(t)
    requires CastsInv(env, t) && SoundInv(t)
    requires FrontInv(env, s) && Grows(s, t) && OthersUntouched(s, t, c)
    requires c in t.conns ==> ConnOk(env, t, c)
    ensures FrontInv(env, t)
  {
    hide IssuedId, SubsWithin, LivePairOk, CastOk, LiveMsgOk, ConnOk;
    forall d | d in t.conns ensures ConnOk(env, t, d) {
      if d != c {
        ConnOf(env, s, d);
        BystanderKept(env, s, t, d);
      }
    }
  }

  lemma WorkKept(env: Env, s: Sys, a: P.Action)
    requires NoCollision(env) && P.Enabled(env, s.pipe, a)
    requires SysInv(env, s)
    ensures SysInv(env, s.(pipe := P.Apply(env, s.pipe, a)))
  {
    P.StepKeepsInv(env, s.pipe, a);
    PipeKept(env, s, P.Apply(env, s.pipe, a));
  }

  lemma PipeKept(env: Env, s: Sys, pipe: P.Pipe)
    requires Advances(s.pipe.stream, pipe.stream)
    requires FrontInv(env, s)
    ensures FrontInv(env, s.(pipe := pipe))
  {
    hide IssuedId, SubsWithin, LivePairOk, CastOk, LiveMsgOk, ConnOk;
    var t := s.(pipe := pipe);
    CastsKept(env, s, pipe.stream);
    LiveUnchanged(s, t);
    forall d | d in t.conns ensures ConnOk(env, t, d) {
      ConnOf(env, s, d);
      BystanderKept(env, s, t, d);
    }
  }

  lemma NotIssued(issued: nat, clock: U64)
    ensures !IssuedId(issued, ClientIds.IdText(clock, issued))
  {
    forall clock': U64, n: nat | n < issued
      ensures ClientIds.IdText(clock', n) != ClientIds.IdText(clock, issued)
    {
      ClientIds.IdTextInjective(clock, issued, clock', n);
    }
  }

  lemma IssuedGrows(m: nat, n: nat, c: string)
    requires IssuedId(m, c) && m <= n
    ensures IssuedId(n, c)
  {
  }

  /** A new connection's id is one no connection ever had, whatever the clock reads. */
  lemma FreshId(s: Sys, clock: U64)
    requires IdsInv(s) && s.issued < TWO_64
    ensures ClientIds.IdText(clock, s.issued % TWO_64) !in s.conns
  {
    hide ClientIds.IdText;
    NotIssued(s.issued, clock);
  }

  lemma IdsAfterConnect(s: Sys, clock: U64)
    requires IdsInv(s) && s.issued < TWO_64
    ensures IdsInv(DoConnect(s, clock))
  {
    hide ClientIds.IdText, IssuedId;
    var t := DoConnect(s, clock);
    forall c | c in t.conns ensures IssuedId(t.issued, c) {
      if c in s.conns {
        IssuedGrows(s.issued, t.issued, c);
      } else {
        JustIssued(clock, s.issued);
      }
    }
  }

  lemma JustIssued(clock: U64, n: nat)
    ensures IssuedId(n + 1, ClientIds.IdText(clock, n))
  {
  }

  lemma ConnectMaps(s: Sys, clock: U64)
    requires KeysInv(s) && LiveInv(s) && SoundInv(s)
    requires ClientIds.IdText(clock, s.issued % TWO_64) !in s.conns
    ensures var t := DoConnect(s, clock);
      KeysInv(t) && LiveInv(t) && SoundInv(t) && Grows(s, t)
      && OthersUntouched(s, t, ClientIds.IdText(clock, s.issued % TWO_64))
  {
    hide ClientIds.IdText, LiveMsgOk, LiveInv, LivePairOk;
    LiveUnchanged(s, DoConnect(s, clock));
  }

  lemma ConnectKept(env: Env, s: Sys, clock: U64)
    requires s.issued < TWO_64
    requires FrontInv(env, s)
    ensures FrontInv(env, DoConnect(s, clock))
  {
    hide IssuedId, SubsWithin, LivePairOk, CastOk, LiveMsgOk;
    hide ClientIds.IdText;
    var t := DoConnect(s, clock);
    var id := ClientIds.IdText(clock, s.issued % TWO_64);
    FreshId(s, clock);
    IdsAfterConnect(s, clock);
    ConnectMaps(s, clock);
    SharedKept(env, s, t, id);
  }

  lemma NewCastOk(env: Env, s: Sys, c: string, targets: seq<Pair>)
    requires c in s.conns && PhaseOf(s, c).Snapshotting? && Distinct(targets)
    requires forall p :: p in targets <==> MatchesPair(s.subs, p, PhaseOf(s, c).e)
    requires Known(env, PhaseOf(s, c).e) && EntryOk(s.pipe.stream, PhaseOf(s, c).e, PhaseOf(s, c).entry)
    ensures CastOk(env, s.pipe.stream, DoSnapshot(s, c, targets).casts[|s.casts|])
  {
    hide Known, EntryOk, MatchesPair;
  }

  lemma SnapshotLive(s: Sys, c: string, targets: seq<Pair>)
    requires c in s.conns && PhaseOf(s, c).Snapshotting?
    requires forall p :: p in targets <==> MatchesPair(s.subs, p, PhaseOf(s, c).e)
    requires LiveInv(s)
    ensures LiveInv(DoSnapshot(s, c, targets))
  {
    hide MatchesAny;
    var t := DoSnapshot(s, c, targets);
    forall p | p in t.live ensures LivePairOk(t, p) {
      assert LivePairOk(s, p);
    }
  }

  lemma SnapshotKeys(s: Sys, c: string, targets: seq<Pair>)
    requires c in s.conns && PhaseOf(s, c).Snapshotting? && KeysInv(s)
    requires forall p :: p in targets <==> MatchesPair(s.subs, p, PhaseOf(s, c).e)
    ensures var t := DoSnapshot(s, c, targets); KeysInv(t) && Grows(s, t) && OthersUntouched(s, t, c)
  {
    hide MatchesAny;
    var t := DoSnapshot(s, c, targets);
    forall k, p | 0 <= k < |t.casts| && p in t.casts[k].targets ensures p.0 in t.conns {
      if k == |s.casts| {
        assert MatchesPair(s.subs, p, PhaseOf(s, c).e);
      }
    }
  }

  lemma SoundUnderGrowth(s: Sys, t: Sys)
    requires SoundInv(s) && s.casts <= t.casts && t.outbox == s.outbox
    ensures SoundInv(t)
  {
    forall d, x | d in t.outbox && x in t.outbox[d] ensures LiveMsgOk(t.casts, d, x) {
      assert LiveMsgOk(s.casts, d, x);
    }
  }

  lemma CastsAppend(env: Env, s: Sys, t: Sys)
    requires CastsInv(env, s) && t.pipe == s.pipe && |t.casts| == |s.casts| + 1 && s.casts <= t.casts
    requires CastOk(env, s.pipe.stream, t.casts[|s.casts|])
    ensures CastsInv(env, t)
  {
    hide CastOk;
    forall k | 0 <= k < |t.casts| ensures CastOk(env, t.pipe.stream, t.casts[k]) {
      assert k < |s.casts| ==> CastOk(env, s.pipe.stream, s.casts[k]);
    }
  }

  lemma SnapshotCasts(env: Env, s: Sys, c: string, targets: seq<Pair>)
    requires c in s.conns && PhaseOf(s, c).Snapshotting? && Distinct(targets)
    requires forall p :: p in targets <==> MatchesPair(s.subs, p, PhaseOf(s, c).e)
    requires CastsInv(env, s) && PhaseOk(env, s, c, PhaseOf(s, c))
    ensures CastsInv(env, DoSnapshot(s, c, targets))
  {
    hide Known, EntryOk, MatchesPair, CastOk;
    NewCastOk(env, s, c, targets);
    CastsAppend(env, s, DoSnapshot(s, c, targets));
  }

  lemma SnapshotKept(env: Env, s: Sys, c: string, targets: seq<Pair>)
    requires c in s.conns && PhaseOf(s, c).Snapshotting? && Distinct(targets)
    requires forall p :: p in targets <==> MatchesPair(s.subs, p, PhaseOf(s, c).e)
    requires FrontInv(env, s)
    ensures FrontInv(env, DoSnapshot(s, c, targets))
  {
    hide IssuedId, SubsWithin, LivePairOk, CastOk, LiveMsgOk;
    hide MatchesPair, PhaseOk, Partial;
    var t := DoSnapshot(s, c, targets);
    ConnOf(env, s, c);
    SnapshotKeys(s, c, targets);
    SnapshotLive(s, c, targets);
    SnapshotCasts(env, s, c, targets);
    SoundUnderGrowth(s, t);
    SnapshotPhase(env, s, c, targets);
    MovedOk(env, s, t, c);
    SharedKept(env, s, t, c);
  }

  lemma SnapshotPhase(env: Env, s: Sys, c: string, targets: seq<Pair>)
    requires c in s.conns && PhaseOf(s, c).Snapshotting?
    ensures var t := DoSnapshot(s, c, targets);
      (PhaseOk(env, t, c, PhaseOf(t, c))
       && Partial(t.regs, PhaseOf(t, c)) == [] && Partial(s.regs, PhaseOf(s, c)) == []
       && t.conns[c].log == s.conns[c].log && t.outbox == s.outbox)
  {
  }

  /** The step's own connection, when nothing is sent to it. */
  lemma MovedOk(env: Env, s: Sys, t: Sys, c: string)
    requires KeysInv(s) && c in s.conns && c in t.conns && c in s.outbox && c in t.outbox
    requires Grows(s, t) && ConnOk(env, s, c) && t.outbox[c] == s.outbox[c] && t.conns[c].log == s.conns[c].log
    requires PhaseOk(env, t, c, PhaseOf(t, c)) && Partial(t.regs, PhaseOf(t, c)) == Partial(s.regs, PhaseOf(s, c))
    ensures ConnOk(env, t, c)
  {
    ActorKept(env, s, t, c);
  }

  lemma AddSize<V>(m: map<string, V>, k: string, v: V)
    ensures |m[k := v]| <= |m| + 1
  {
    assert m[k := v].Keys == m.Keys + {k};
    assert |m| == |m.Keys|;
    assert |m[k := v]| == |m[k := v].Keys|;
  }

  lemma RemoveSize<V>(m: map<string, V>, k: string)
    ensures |m - {k}| <= |m|
  {
    assert (m - {k}).Keys == m.Keys - {k};
    assert |m| == |m.Keys|;
    assert |m - {k}| == |(m - {k}).Keys|;
  }

  lemma AddLimits(env: Env, s: Sys, c: string)
    requires c in s.conns && PhaseOf(s, c).Adding? && LimitInv(env, s) && PhaseOk(env, s, c, PhaseOf(s, c))
    ensures LimitInv(env, DoAdd(s, c))
  {
    var p, t := PhaseOf(s, c), DoAdd(s, c);
    AddSize(SubsOf(s.subs, c), p.sub, Subscription(p.sub, p.filters));
    forall d | d in t.subs ensures SubsWithin(env, t.subs[d]) {
      if d in s.subs {
        assert SubsWithin(env, s.subs[d]);
      }
    }
  }

  lemma AddMaps(s: Sys, c: string)
    requires c in s.conns && PhaseOf(s, c).Adding? && KeysInv(s)
    ensures var t := DoAdd(s, c); KeysInv(t) && Grows(s, t) && OthersUntouched(s, t, c)
  {
    hide Grows, OthersUntouched;
    AddKeys(s, c);
    AddOthers(s, c);
  }

  lemma AddKeys(s: Sys, c: string)
    requires c in s.conns && PhaseOf(s, c).Adding? && KeysInv(s)
    ensures KeysInv(DoAdd(s, c)) && Grows(s, DoAdd(s, c))
  {
  }

  lemma AddOthers(s: Sys, c: string)
    requires c in s.conns && PhaseOf(s, c).Adding? && s.outbox.Keys == s.conns.Keys
    ensures OthersUntouched(s, DoAdd(s, c), c)
  {
  }

  lemma AddLive(s: Sys, c: string)
    requires c in s.conns && PhaseOf(s, c).Adding? && LiveInv(s)
    ensures LiveInv(DoAdd(s, c))
  {
    var t := DoAdd(s, c);
    forall p | p in t.live ensures LivePairOk(t, p) {
      if p != (c, PhaseOf(s, c).sub) {
        assert LivePairOk(s, p);
      }
    }
  }

  lemma AddRest(env: Env, s: Sys, c: string)
    requires c in s.conns && PhaseOf(s, c).Adding? && IdsInv(s) && CastsInv(env, s)
    ensures IdsInv(DoAdd(s, c)) && CastsInv(env, DoAdd(s, c))
  {
    hide IssuedId, CastOk;
  }

  lemma AddKept(env: Env, s: Sys, c: string)
    requires c in s.conns && PhaseOf(s, c).Adding?
    requires FrontInv(env, s)
    ensures FrontInv(env, DoAdd(s, c))
  {
    hide FrontInv, KeysInv, SoundInv, CastsInv, LiveInv, LimitInv, IdsInv, Partial, AddSub;
    var t := DoAdd(s, c);
    ConnOf(env, s, c);
    FrontParts(env, s);
    AddLimits(env, s, c);
    AddMaps(s, c);
    AddLive(s, c);
    AddRest(env, s, c);
    SoundUnderGrowth(s, t);
    AddPhase(env, s, c);
    MovedOk(env, s, t, c);
    SharedKept(env, s, t, c);
  }

  lemma AddPhase(env: Env, s: Sys, c: string)
    requires c in s.conns && PhaseOf(s, c).Adding?
    ensures var t := DoAdd(s, c);
      (PhaseOk(env, t, c, PhaseOf(t, c))
       && Partial(t.regs, PhaseOf(t, c)) == [] && Partial(s.regs, PhaseOf(s, c)) == [])
  {
  }

  lemma CloseMaps(s: Sys, c: string)
    requires c in s.conns && PhaseOf(s, c).Closing? && KeysInv(s)
    ensures var t := DoCloseSub(s, c); KeysInv(t) && Grows(s, t) && OthersUntouched(s, t, c)
  {
  }

  lemma CloseLive(s: Sys, c: string)
    requires c in s.conns && PhaseOf(s, c).Closing? && LiveInv(s)
    ensures LiveInv(DoCloseSub(s, c))
  {
    var t := DoCloseSub(s, c);
    forall p | p in t.live ensures LivePairOk(t, p) {
      assert LivePairOk(s, p);
    }
  }

  lemma CloseLimits(env: Env, s: Sys, c: string)
    requires c in s.conns && PhaseOf(s, c).Closing? && LimitInv(env, s)
    ensures LimitInv(env, DoCloseSub(s, c))
  {
    var t := DoCloseSub(s, c);
    forall d | d in t.subs ensures SubsWithin(env, t.subs[d]) {
      assert SubsWithin(env, s.subs[d]);
      RemoveSize(s.subs[d], PhaseOf(s, c).sub);
    }
  }

  lemma CloseConn(env: Env, s: Sys, c: string)
    requires c in s.conns && PhaseOf(s, c).Closing?
    requires KeysInv(s) && Grows(s, DoCloseSub(s, c)) && c in s.outbox && ConnOk(env, s, c)
    ensures ConnOk(env, DoCloseSub(s, c), c)
  {
    hide OutcomeOk, KeysInv, RemoveSub, Replies, EntryOk, AnswerOk, RegOk;
    var t := DoCloseSub(s, c);
    var o := Unsubscribed(PhaseOf(s, c).sub);
    TranscriptAppend(s.conns[c].log, o);
    assert OutcomeOk(env, t, c, o) by {
      PlainOutcome(env, t, c, o);
    }
    ActorKept(env, s, t, c);
  }

  lemma PlainOutcome(env: Env, s: Sys, c: string, o: Outcome)
    requires o.Unsubscribed? || o.Complained?
    ensures OutcomeOk(env, s, c, o)
  {
  }

  lemma CloseKept(env: Env, s: Sys, c: string)
    requires c in s.conns && PhaseOf(s, c).Closing?
    requires FrontInv(env, s)
    ensures FrontInv(env, DoCloseSub(s, c))
  {
    hide IssuedId, SubsWithin, LivePairOk, CastOk, LiveMsgOk, ConnOk;
    var t := DoCloseSub(s, c);
    ConnOf(env, s, c);
    CloseMaps(s, c);
    CloseLive(s, c);
    CloseLimits(env, s, c);
    SoundUnderGrowth(s, t);
    CloseConn(env, s, c);
    SharedKept(env, s, t, c);
  }

  lemma DeregisterMaps(env: Env, s: Sys, c: string)
    requires c in s.conns && PhaseOf(s, c).Departing?
    requires KeysInv(s) && LiveInv(s) && LimitInv(env, s)
    ensures var t := DoDeregister(s, c);
      KeysInv(t) && LiveInv(t) && LimitInv(env, t) && Grows(s, t) && OthersUntouched(s, t, c)
  {
    hide LiveInv, SubsWithin;
    LiveUnchanged(s, DoDeregister(s, c));
  }

  lemma DeregisterKept(env: Env, s: Sys, c: string)
    requires c in s.conns && PhaseOf(s, c).Departing?
    requires FrontInv(env, s)
    ensures FrontInv(env, DoDeregister(s, c))
  {
    hide IssuedId, SubsWithin, LivePairOk, CastOk, LiveMsgOk, ConnOk, PhaseOk, Partial;
    var t := DoDeregister(s, c);
    ConnOf(env, s, c);
    DeregisterMaps(env, s, c);
    SoundUnderGrowth(s, t);
    PlainPhase(env, s, c, PhaseOf(s, c));
    PlainPhase(env, t, c, PhaseOf(t, c));
    MovedOk(env, s, t, c);
    SharedKept(env, s, t, c);
  }

  lemma ForgetMaps(s: Sys, c: string)
    requires c in s.conns && PhaseOf(s, c).Leaving? && KeysInv(s)
    ensures var t := DoForget(s, c); KeysInv(t) && Grows(s, t) && OthersUntouched(s, t, c)
  {
  }

  lemma ForgetLive(s: Sys, c: string)
    requires c in s.conns && LiveInv(s)
    ensures LiveInv(DoForget(s, c))
  {
    var t := DoForget(s, c);
    forall p | p in t.live ensures LivePairOk(t, p) {
      assert LivePairOk(s, p);
    }
  }

  lemma ForgetKept(env: Env, s: Sys, c: string)
    requires c in s.conns && PhaseOf(s, c).Leaving?
    requires FrontInv(env, s)
    ensures FrontInv(env, DoForget(s, c))
  {
    hide IssuedId, SubsWithin, LivePairOk, CastOk, LiveMsgOk, ConnOk, PhaseOk, Partial;
    var t := DoForget(s, c);
    ConnOf(env, s, c);
    ForgetMaps(s, c);
    ForgetLive(s, c);
    SoundUnderGrowth(s, t);
    PlainPhase(env, s, c, PhaseOf(s, c));
    PlainPhase(env, t, c, PhaseOf(t, c));
    MovedOk(env, s, t, c);
    SharedKept(env, s, t, c);
  }

  // ---- all steps ----

  /** Whatever earlier runs left, the relay starts in a good state. */
  lemma StartedInv(env: Env, pipe: P.Pipe)
    requires P.Inv(env, pipe)
    ensures SysInv(env, Started(pipe))
  {
    hide P.Inv;
  }

  /** The steps of the EVENT path and the refusals. */
  predicate OnEventPath(st: Step) {
    st.Receive? || st.Check? || st.Route? || st.Snapshot? || st.Send? || st.Answer? || st.Complain?
  }

  lemma EventStepKept(env: Env, s: Sys, st: Step)
    requires OnEventPath(st) && Enabled(env, s, st)
    requires SysInv(env, s)
    ensures SysInv(env, Apply(env, s, st))
  {
    hide FrontInv, P.Inv, P.Enabled, P.Apply, Sql.IsAnswer, MatchesPair, NoReaders, OnFrame, DoRoute, DoQuery,
      FrameSent, AddSub, RemoveSub, RemoveClient, LiveOf, ClientIds.IdText, HasId;
    match st
    case Receive(c, frame) => ReceiveKept(env, s, c, frame);
    case Check(c, fails) => CheckKept(env, s, c, fails);
    case Route(c, fault) => RouteKept(env, s, c, fault);
    case Snapshot(c, targets) => SnapshotKept(env, s, c, targets);
    case Send(c) => SendKept(env, s, c);
    case Answer(c) => AnswerKept(env, s, c);
    case Complain(c) => ComplainKept(env, s, c);
  }

  lemma OtherStepKept(env: Env, s: Sys, st: Step)
    requires !OnEventPath(st) && NoCollision(env) && Enabled(env, s, st)
    requires SysInv(env, s)
    ensures SysInv(env, Apply(env, s, st))
  {
    hide FrontInv, P.Inv, P.Enabled, P.Apply, Sql.IsAnswer, MatchesPair, NoReaders, OnFrame, DoRoute, DoQuery,
      FrameSent, AddSub, RemoveSub, RemoveClient, LiveOf, ClientIds.IdText, HasId;
    match st
    case Work(a) => WorkKept(env, s, a);
    case Connect(clock) => ConnectKept(env, s, clock);
    case Count(c) => CountKept(env, s, c);
    case Add(c) => AddKept(env, s, c);
    case Query(c, answer) => QueryKept(env, s, c, answer);
    case Replay(c) => ReplayKept(env, s, c);
    case Eose(c) => EoseKept(env, s, c);
    case CloseSub(c) => CloseKept(env, s, c);
    case Deregister(c) => DeregisterKept(env, s, c);
    case Forget(c) => ForgetKept(env, s, c);
  }

  /** Every step of every connection and worker keeps all the invariants. */
  lemma StepKept(env: Env, s: Sys, st: Step)
    requires NoCollision(env) && Enabled(env, s, st)
    requires SysInv(env, s)
    ensures SysInv(env, Apply(env, s, st))
  {
    hide SysInv, Enabled, Apply;
    if OnEventPath(st) {
      EventStepKept(env, s, st);
    } else {
      OtherStepKept(env, s, st);
    }
  }

  /** So does every run. */
  lemma {:induction false} RunKept(env: Env, s: Sys, steps: seq<Step>, t: Sys)
    requires NoCollision(env) && Runs(env, s, steps, t)
    requires SysInv(env, s)
    ensures SysInv(env, t)
    decreases |steps|
  {
    if steps != [] {
      StepKept(env, s, steps[0]);
      RunKept(env, Apply(env, s, steps[0]), steps[1..], t);
    }
  }
}
