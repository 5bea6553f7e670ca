/** Invariants of the relay machine. */
module RelayInv {
  import opened Base
  import opened Events
  import opened Filters
  import opened Subscriptions
  import opened Table
  import opened Streams
  import opened Protocol
  import opened Relay
  import ClientIds
  import P = Pipeline
  import Sql

  // ---- transcripts ----

  /** The replies among what was sent, live events left out. */
  function Replies(out: seq<Sent>): seq<Msg> {
    if out == [] then []
    else Replies(out[..|out| - 1]) + (if out[|out| - 1].origin.Reply? then [out[|out| - 1].msg] else [])
  }

  function RowMsgs(sub: string, rows: seq<Row>): seq<Msg> {
    seq(|rows|, i requires 0 <= i < |rows| => EventMsg(sub, FromRow(rows[i])))
  }

  /** The stored events of each query in turn. */
  function History(sub: string, queries: seq<QueryRec>): seq<Msg> {
    if queries == [] then []
    else History(sub, queries[..|queries| - 1]) + RowMsgs(sub, queries[|queries| - 1].rows)
  }

  /** The replies a frame gets: one OK, one NOTICE, the history and one EOSE, or none. */
  function Render(o: Outcome): seq<Msg> {
    match o
    case Answered(id, why, _) => [OkMsg(id, why)]
    case Complained(complaint) => [NoticeMsg(complaint)]
    case Subscribed(_, sub, queries) => History(sub, queries) + [EoseMsg(sub)]
    case Unsubscribed(_) => []
  }

  function Transcript(log: seq<Outcome>): seq<Msg> {
    if log == [] then [] else Transcript(log[..|log| - 1]) + Render(log[|log| - 1])
  }

  /** The replies already sent for the frame at hand. */
  function Partial(regs: seq<Reg>, p: Phase): seq<Msg> {
    match p
    case Querying(r, queries) => if r < |regs| then History(regs[r].sub, queries) else []
    case Replaying(r, queries, next) =>
      if r < |regs| && queries != [] && next <= |LastRows(queries)|
      then History(regs[r].sub, queries[..|queries| - 1]) + RowMsgs(regs[r].sub, LastRows(queries)[..next])
      else []
    case _ => []
  }

  // ---- one connection ----

  ghost predicate EntryOk(stream: Stream, e: NostrEvent, entry: Option<nat>) {
    && (entry.None? <==> IsEphemeral(e))
    && (entry.Some? ==> entry.value < |stream.entries| && stream.entries[entry.value] == EventJson(e))
  }

  /** The target's client, while registered, has the event. */
  ghost predicate Delivered(s: Sys, k: nat, p: Pair)
    requires k < |s.casts|
  {
    p.0 in s.clients ==> p.0 in s.outbox && Sent(EventMsg(p.1, s.casts[k].event), Live(k)) in s.outbox[p.0]
  }

  ghost predicate DeliveredUpTo(s: Sys, k: nat, n: nat)
    requires k < |s.casts|
  {
    n <= |s.casts[k].targets| && forall j :: 0 <= j < n ==> Delivered(s, k, s.casts[k].targets[j])
  }

  /** Accepted means broadcast: every target was served. */
  ghost predicate AnswerOk(s: Sys, id: string, why: Option<Refusal>, cast: Option<nat>) {
    && (why.None? <==> cast.Some?)
    && (cast.Some? ==>
          && cast.value < |s.casts| && s.casts[cast.value].event.id == id
          && DeliveredUpTo(s, cast.value, |s.casts[cast.value].targets|))
  }

  /** What a query saw: rows of queued events, and of each acked event its row or a newer one. */
  ghost predicate QuerySaw(stream: Stream, q: QueryRec) {
    && (forall r :: r in q.db ==> exists e :: P.Queued(stream, e) && r == ToRow(e))
    && (forall n :: n in q.acked ==>
          n < |stream.entries| && stream.entries[n].EventJson? && P.Settled(q.db, stream, stream.entries[n].event))
  }

  ghost predicate QueryOk(env: Env, stream: Stream, q: QueryRec) {
    && |q.rows| <= HistoryLimit(env, q.filter)
    && (q.ok ==> Sql.IsAnswer(q.db, Asked(q.filter), HistoryLimit(env, q.filter), q.rows))
    && (!q.ok ==> q.rows == [])
    && QuerySaw(stream, q)
  }

  ghost predicate QueriesOk(env: Env, stream: Stream, filters: seq<Filter>, queries: seq<QueryRec>) {
    && |queries| <= |filters|
    && forall i :: 0 <= i < |queries| ==> queries[i].filter == filters[i] && QueryOk(env, stream, queries[i])
  }

  ghost predicate RegOk(env: Env, s: Sys, c: string, r: nat, queries: seq<QueryRec>) {
    r < |s.regs| && s.regs[r].client == c && QueriesOk(env, s.pipe.stream, s.regs[r].filters, queries)
  }

  ghost predicate PhaseOk(env: Env, s: Sys, c: string, p: Phase) {
    match p
    case Checking(e) => Known(env, e) && !IsEphemeral(e)
    case Routing(e) => Known(env, e)
    case Snapshotting(e, entry) => Known(env, e) && EntryOk(s.pipe.stream, e, entry)
    case Sending(k, i) => k < |s.casts| && i < |s.casts[k].targets| && DeliveredUpTo(s, k, i)
    case Answering(id, why, cast) => AnswerOk(s, id, why, cast)
    case Counting(_, filters) => |filters| <= env.maxFilters
    case Adding(_, filters) => |filters| <= env.maxFilters && |SubsOf(s.subs, c)| < env.maxSubscriptions
    case Querying(r, queries) => RegOk(env, s, c, r, queries)
    case Replaying(r, queries, next) => RegOk(env, s, c, r, queries) && next < |LastRows(queries)|
    case _ => true
  }

  ghost predicate OutcomeOk(env: Env, s: Sys, c: string, o: Outcome) {
    match o
    case Answered(id, why, cast) => AnswerOk(s, id, why, cast)
    case Subscribed(r, sub, queries) =>
      RegOk(env, s, c, r, queries) && s.regs[r].sub == sub && |queries| == |s.regs[r].filters|
    case _ => true
  }

  ghost predicate ConnOk(env: Env, s: Sys, c: string)
    requires c in s.conns && c in s.outbox
  {
    && PhaseOk(env, s, c, PhaseOf(s, c))
    && (forall o :: o in s.conns[c].log ==> OutcomeOk(env, s, c, o))
    && Replies(s.outbox[c]) == Transcript(s.conns[c].log) + Partial(s.regs, PhaseOf(s, c))
  }

  // ---- the whole relay ----

  ghost predicate IssuedId(issued: nat, c: string) {
    exists clock: U64, n: nat :: n < issued && c == ClientIds.IdText(clock, n)
  }

  /** Every connection's id was printed from a counter value already used. */
  ghost predicate IdsInv(s: Sys) {
    && s.issued <= TWO_64
    && forall c :: c in s.conns ==> IssuedId(s.issued, c)
  }

  predicate Registered(p: Phase) {
    !p.Leaving? && !p.Gone?
  }

  /** A client is registered until its cleanup starts, and has no subscriptions once it is over. */
  ghost predicate KeysInv(s: Sys) {
    && s.outbox.Keys == s.conns.Keys
    && (forall c :: c in s.clients <==> c in s.conns && Registered(PhaseOf(s, c)))
    && (forall c :: c in s.subs ==> c in s.conns && !PhaseOf(s, c).Gone?)
    && (forall k, p :: 0 <= k < |s.casts| && p in s.casts[k].targets ==> p.0 in s.conns)
  }

  ghost predicate SubsWithin(env: Env, m: map<string, Subscription>) {
    |m| <= env.maxSubscriptions && forall sub :: sub in m ==> |m[sub].filters| <= env.maxFilters
  }

  ghost predicate LimitInv(env: Env, s: Sys) {
    forall c :: c in s.subs ==> SubsWithin(env, s.subs[c])
  }

  ghost predicate LivePairOk(s: Sys, p: Pair)
    requires p in s.live && Has(s.subs, p)
  {
    var r := s.live[p];
    && r < |s.regs| && s.regs[r].client == p.0 && s.regs[r].sub == p.1
    && s.regs[r].filters == FiltersOf(s.subs, p)
    && (forall k :: s.regs[r].castsBefore <= k < |s.casts| && MatchesAny(s.regs[r].filters, s.casts[k].event)
          ==> p in s.casts[k].targets)
  }

  /** Each subscription has the registration that made it, and every broadcast snapshotted since
      then whose event it matches has it as a target. */
  ghost predicate LiveInv(s: Sys) {
    && (forall p :: p in s.live <==> Has(s.subs, p))
    && (forall p :: p in s.live ==> LivePairOk(s, p))
  }

  ghost predicate CastOk(env: Env, stream: Stream, cast: Cast) {
    && Known(env, cast.event)
    && EntryOk(stream, cast.event, cast.entry)
    && Distinct(cast.targets)
    && forall p :: p in cast.targets <==> MatchesPair(cast.subs, p, cast.event)
  }

  ghost predicate CastsInv(env: Env, s: Sys) {
    forall k :: 0 <= k < |s.casts| ==> CastOk(env, s.pipe.stream, s.casts[k])
  }

  /** A live message comes from a broadcast that had its subscription among the targets. */
  ghost predicate LiveMsgOk(casts: seq<Cast>, c: string, m: Sent) {
    m.origin.Live? ==>
      && m.origin.cast < |casts| && m.msg.EventMsg? && m.msg.event == casts[m.origin.cast].event
      && (c, m.msg.sub) in casts[m.origin.cast].targets
  }

  ghost predicate SoundInv(s: Sys) {
    forall c, m :: c in s.outbox && m in s.outbox[c] ==> LiveMsgOk(s.casts, c, m)
  }

  /** What the connections keep. */
  ghost predicate FrontInv(env: Env, s: Sys) {
    && IdsInv(s)
    && KeysInv(s)
    && LimitInv(env, s)
    && LiveInv(s)
    && CastsInv(env, s)
    && SoundInv(s)
    && forall c :: c in s.conns ==> ConnOk(env, s, c)
  }

  ghost predicate SysInv(env: Env, s: Sys) {
    P.Inv(env, s.pipe) && FrontInv(env, s)
  }

  // ---- growth ----

  /** What any step does to the shared state: everything recorded only grows, and no connection's
      id is registered anew. */
  ghost predicate Grows(s: Sys, t: Sys) {
    && s.pipe.stream.entries <= t.pipe.stream.entries
    && s.casts <= t.casts
    && s.regs <= t.regs
    && (forall c :: c in s.conns && c in t.clients ==> c in s.clients)
    && (forall c :: c in s.outbox ==> c in t.outbox && s.outbox[c] <= t.outbox[c])
  }

  lemma DeliveredKept(s: Sys, t: Sys, k: nat, n: nat)
    requires KeysInv(s) && Grows(s, t) && k < |s.casts| && DeliveredUpTo(s, k, n)
    ensures DeliveredUpTo(t, k, n)
  {
    forall j | 0 <= j < n ensures Delivered(t, k, t.casts[k].targets[j]) {
      var p := s.casts[k].targets[j];
      assert p in s.casts[k].targets && Delivered(s, k, p);
    }
  }

  lemma QueriesKept(env: Env, stream: Stream, stream': Stream, filters: seq<Filter>, queries: seq<QueryRec>)
    requires QueriesOk(env, stream, filters, queries) && stream.entries <= stream'.entries
    ensures QueriesOk(env, stream', filters, queries)
  {
    forall i | 0 <= i < |queries| ensures QuerySaw(stream', queries[i]) {
      QuerySawKept(stream, stream', queries[i]);
    }
  }

  lemma QuerySawKept(stream: Stream, stream': Stream, q: QueryRec)
    requires QuerySaw(stream, q) && stream.entries <= stream'.entries
    ensures QuerySaw(stream', q)
  {
    forall r | r in q.db ensures exists e :: P.Queued(stream', e) && r == ToRow(e) {
      var e :| P.Queued(stream, e) && r == ToRow(e);
      assert P.Queued(stream', e);
    }
    forall n | n in q.acked ensures P.Settled(q.db, stream', stream.entries[n].event) {
      P.SettledGrows(q.db, stream, stream', stream.entries[n].event);
    }
  }

  lemma PhaseKept(env: Env, s: Sys, t: Sys, c: string, p: Phase)
    requires KeysInv(s) && Grows(s, t) && SubsOf(t.subs, c) == SubsOf(s.subs, c) && PhaseOk(env, s, c, p)
    ensures PhaseOk(env, t, c, p)
    ensures Partial(t.regs, p) == Partial(s.regs, p)
  {
    match p
    case Sending(k, i) => DeliveredKept(s, t, k, i);
    case Answering(_, _, cast) =>
      if cast.Some? {
        DeliveredKept(s, t, cast.value, |s.casts[cast.value].targets|);
      }
    case Querying(r, queries) => QueriesKept(env, s.pipe.stream, t.pipe.stream, s.regs[r].filters, queries);
    case Replaying(r, queries, _) => QueriesKept(env, s.pipe.stream, t.pipe.stream, s.regs[r].filters, queries);
    case _ =>
  }

  lemma OutcomeKept(env: Env, s: Sys, t: Sys, c: string, o: Outcome)
    requires KeysInv(s) && Grows(s, t) && OutcomeOk(env, s, c, o)
    ensures OutcomeOk(env, t, c, o)
  {
    match o
    case Answered(_, _, cast) =>
      if cast.Some? {
        DeliveredKept(s, t, cast.value, |s.casts[cast.value].targets|);
      }
    case Subscribed(r, _, queries) => QueriesKept(env, s.pipe.stream, t.pipe.stream, s.regs[r].filters, queries);
    case _ =>
  }

  lemma LogKept(env: Env, s: Sys, t: Sys, c: string, log: seq<Outcome>)
    requires KeysInv(s) && Grows(s, t) && forall o :: o in log ==> OutcomeOk(env, s, c, o)
    ensures forall o :: o in log ==> OutcomeOk(env, t, c, o)
  {
    forall o | o in log ensures OutcomeOk(env, t, c, o) {
      OutcomeKept(env, s, t, c, o);
    }
  }

  /** A connection that the step leaves alone, but for live messages it may get. */
  lemma BystanderKept(env: Env, s: Sys, t: Sys, d: string)
    requires KeysInv(s) && d in s.conns && d in t.conns && d in s.outbox && d in t.outbox
    requires Grows(s, t) && ConnOk(env, s, d)
    requires t.conns[d] == s.conns[d] && SubsOf(t.subs, d) == SubsOf(s.subs, d)
    requires Replies(t.outbox[d]) == Replies(s.outbox[d])
    ensures ConnOk(env, t, d)
  {
    PhaseKept(env, s, t, d, PhaseOf(s, d));
    LogKept(env, s, t, d, s.conns[d].log);
  }

  /** The step's own connection, once its new phase, log and transcript are known to be right. */
  lemma ActorKept(env: Env, s: Sys, t: Sys, c: string)
    requires KeysInv(s) && c in s.conns && c in t.conns && c in s.outbox && c in t.outbox
    requires Grows(s, t) && ConnOk(env, s, c)
    requires PhaseOk(env, t, c, PhaseOf(t, c))
    requires t.conns[c].log == s.conns[c].log || exists o ::
      t.conns[c].log == s.conns[c].log + [o] && OutcomeOk(env, t, c, o)
    requires Replies(t.outbox[c]) == Transcript(t.conns[c].log) + Partial(t.regs, PhaseOf(t, c))
    ensures ConnOk(env, t, c)
  {
    LogKept(env, s, t, c, s.conns[c].log);
  }

  lemma RepliesAppend(out: seq<Sent>, m: Sent)
    ensures Replies(out + [m]) == Replies(out) + (if m.origin.Reply? then [m.msg] else [])
  {
    assert (out + [m])[..|out|] == out;
  }

  lemma TranscriptAppend(log: seq<Outcome>, o: Outcome)
    ensures Transcript(log + [o]) == Transcript(log) + Render(o)
  {
    assert (log + [o])[..|log|] == log;
  }

  lemma HistoryAppend(sub: string, queries: seq<QueryRec>, q: QueryRec)
    ensures History(sub, queries + [q]) == History(sub, queries) + RowMsgs(sub, q.rows)
  {
    assert (queries + [q])[..|queries|] == queries;
  }
}
