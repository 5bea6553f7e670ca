/** What the handlers over the shared state do, said of values: what a broadcast and a history put in
    the outboxes, which events are refused and why, and which answers a frame may get. */
module AppSpec {
  import opened Base
  import opened Events
  import opened Filters
  import opened Subscriptions
  import opened Table
  import opened Protocol
  import opened Relay
  import opened RelayInv
  import opened RelayReplies
  import opened Postgres
  import opened AppSteps
  import ClientIds
  import RelaySteps
  import P = Pipeline

  /** How the remote calls made for one frame end: the duplicate check, the XADD, and for each filter
      the order the database meets the rows in, `None` where the query fails. */
  datatype Io = Io(checkFails: bool, enqueue: Fault, scans: seq<Option<seq<Row>>>)

  ghost predicate ScansOf(t: seq<Row>, scans: seq<Option<seq<Row>>>) {
    forall j :: 0 <= j < |scans| && scans[j].Some? ==> IsScan(scans[j].value, t)
  }

  type Outboxes = map<string, seq<Sent>>

  // ---- broadcasts ----

  /** What a broadcast puts in the outboxes: for each pair served, if its client is registered, one
      message labelled with the broadcast's number, and nothing else anywhere. */
  ghost predicate Serves(
      before: Outboxes, after: Outboxes, clients: set<string>, served: Pair -> bool, e: NostrEvent, no: nat)
  {
    && after.Keys == before.Keys
    && forall c :: c in before ==> ServesOne(before[c], after[c], c, c in clients, served, e, no)
  }

  ghost predicate ServesOne(
      before: seq<Sent>, after: seq<Sent>, c: string, registered: bool, served: Pair -> bool, e: NostrEvent, no: nat)
  {
    && before <= after
    && Distinct(after[|before|..])
    && forall m :: m in after[|before|..] <==>
         registered && m.origin == Live(no) && m.msg.EventMsg? && m.msg.event == e && served((c, m.msg.sub))
  }

  function Among(pairs: seq<Pair>): Pair -> bool {
    p => p in pairs
  }

  /** The pairs whose subscription matches the event. */
  function Matching(subs: SubMap, e: NostrEvent): Pair -> bool {
    p => MatchesPair(subs, p, e)
  }

  lemma ServesNobody(out: Outboxes, clients: set<string>, e: NostrEvent, no: nat)
    ensures Serves(out, out, clients, Among([]), e, no)
  {
  }

  lemma ServesNext(
      before: Outboxes, mid: Outboxes, clients: set<string>, targets: seq<Pair>, i: nat, e: NostrEvent, no: nat)
    requires i < |targets| && Distinct(targets) && Serves(before, mid, clients, Among(targets[..i]), e, no)
    ensures Serves(before, PostTo(mid, clients, targets[i].0, Sent(EventMsg(targets[i].1, e), Live(no))),
                   clients, Among(targets[..i + 1]), e, no)
  {
    var p := targets[i];
    var m := Sent(EventMsg(p.1, e), Live(no));
    var after := PostTo(mid, clients, p.0, m);
    assert p == (p.0, p.1);
    assert forall q :: q in targets[..i + 1] <==> q in targets[..i] || q == p;
    assert p !in targets[..i];
    forall c | c in before
      ensures ServesOne(before[c], after[c], c, c in clients, Among(targets[..i + 1]), e, no)
    {
      assert ServesOne(before[c], mid[c], c, c in clients, Among(targets[..i]), e, no);
      if c == p.0 && c in clients {
        assert after[c][|before[c]|..] == mid[c][|before[c]|..] + [m];
      }
    }
  }

  lemma ServesSame(
      before: Outboxes, after: Outboxes, clients: set<string>, f: Pair -> bool, g: Pair -> bool, e: NostrEvent, no: nat)
    requires Serves(before, after, clients, f, e, no) && forall p :: f(p) == g(p)
    ensures Serves(before, after, clients, g, e, no)
  {
    forall c | c in before ensures ServesOne(before[c], after[c], c, c in clients, g, e, no) {
      assert ServesOne(before[c], after[c], c, c in clients, f, e, no);
    }
  }

  /** The broadcast made by `c` since `s` has served `i` of its targets. */
  ghost predicate Casting(
      env: Env, s: Sys, t: Sys, c: string, log: seq<Outcome>, targets: seq<Pair>, i: nat, e: NostrEvent)
  {
    var no := |s.casts|;
    && i <= |targets| && Distinct(targets) && (forall p :: p in targets <==> MatchesPair(s.subs, p, e))
    && Follows(env, s, t, c, log) && Stands(t, c, CastPhase(no, i, targets, e))
    && t == s.(conns := t.conns, outbox := t.outbox, casts := t.casts)
    && |t.casts| == no + 1 && t.casts[no].targets == targets && t.casts[no].event == e
    && Serves(s.outbox, t.outbox, s.clients, Among(targets[..i]), e, no)
  }

  lemma CastingStart(
      env: Env, s: Sys, c: string, log: seq<Outcome>, e: NostrEvent, entry: Option<nat>, targets: seq<Pair>)
    requires Follows(env, s, s, c, log) && Stands(s, c, Snapshotting(e, entry))
    requires Distinct(targets) && forall p :: p in targets <==> MatchesPair(s.subs, p, e)
    ensures var t := DoSnapshot(s, c, targets);
      && Casting(env, s, t, c, log, targets, 0, e)
      && t == s.(conns := t.conns, casts := t.casts) && |t.casts| == |s.casts| + 1
  {
    hide Follows, MatchesPair, Serves, Distinct, DoSnapshot;
    TakeSnapshot(env, s, s, c, log, e, entry, targets);
    ServesNobody(s.outbox, s.clients, e, |s.casts|);
    assert targets[..0] == [];
  }

  lemma CastingNext(env: Env, s: Sys, t: Sys, c: string, log: seq<Outcome>, targets: seq<Pair>, i: nat, e: NostrEvent)
    requires Casting(env, s, t, c, log, targets, i, e) && i < |targets|
    ensures Stands(t, c, Sending(|s.casts|, i)) && |s.casts| < |t.casts| && i < |t.casts[|s.casts|].targets|
    ensures t.clients <= t.outbox.Keys
    ensures var u := DoSend(t, c);
      && Casting(env, s, u, c, log, targets, i + 1, e)
      && u == t.(conns := u.conns, outbox := PostTo(t.outbox, t.clients, targets[i].0,
         Sent(EventMsg(targets[i].1, e), Live(|s.casts|))))
  {
    hide Follows, MatchesPair, Serves, Distinct, DoSend, PostTo, Among;
    Registries(env, s, t, c, log);
    TakeSend(env, s, t, c, log, |s.casts|, i);
    ServesNext(s.outbox, t.outbox, s.clients, targets, i, e, |s.casts|);
  }

  lemma CastingEnd(env: Env, s: Sys, t: Sys, c: string, log: seq<Outcome>, targets: seq<Pair>, e: NostrEvent)
    requires Casting(env, s, t, c, log, targets, |targets|, e)
    ensures NoCollision(env) && SysInv(env, t)
    ensures Follows(env, s, t, c, log) && Stands(t, c, Answering(e.id, None, Some(|s.casts|))) &&
      |t.casts| == |s.casts| + 1
    ensures Serves(s.outbox, t.outbox, s.clients, Matching(s.subs, e), e, |s.casts|)
  {
    hide Follows, MatchesPair, Serves, Distinct;
    FollowsParts(env, s, t, c, log);
    assert targets[..|targets|] == targets;
    ServesSame(s.outbox, t.outbox, s.clients, Among(targets), Matching(s.subs, e), e, |s.casts|);
  }

  /** Registered clients have outboxes, and the connections of handlers at work are registered. */
  lemma Registries(env: Env, s: Sys, t: Sys, c: string, log: seq<Outcome>)
    requires Follows(env, s, t, c, log)
    ensures t.clients <= t.outbox.Keys && c in t.conns && c in t.outbox
    ensures Registered(PhaseOf(t, c)) ==> c in t.clients
  {
    hide P.Inv, IdsInv, LimitInv, LiveInv, CastsInv, SoundInv, ConnOk, NoCollision, Leads;
  }

  // ---- stored events ----

  function AsReplies(msgs: seq<Msg>): seq<Sent> {
    seq(|msgs|, i requires 0 <= i < |msgs| => Sent(msgs[i], Reply))
  }

  /** Replies sent to a client in order. */
  function Tell(out: Outboxes, clients: set<string>, c: string, msgs: seq<Msg>): Outboxes {
    if c in clients && c in out then out[c := out[c] + AsReplies(msgs)] else out
  }

  lemma TellMore(out: Outboxes, clients: set<string>, c: string, msgs: seq<Msg>, more: seq<Msg>)
    ensures Tell(Tell(out, clients, c, msgs), clients, c, more) == Tell(out, clients, c, msgs + more)
    ensures Tell(out, clients, c, []) == out
  {
    if c in clients && c in out {
      assert out[c] + AsReplies(msgs + more) == out[c] + AsReplies(msgs) + AsReplies(more);
      assert out[c] + AsReplies([]) == out[c];
    }
  }

  lemma TellOne(out: Outboxes, clients: set<string>, c: string, m: Msg)
    ensures PostTo(out, clients, c, Sent(m, Reply)) == Tell(out, clients, c, [m])
  {
    assert AsReplies([m]) == [Sent(m, Reply)];
  }

  /** The handler of `c` has sent `i` rows of its last query since `s`. */
  ghost predicate Telling(
      env: Env, s: Sys, t: Sys, c: string, log: seq<Outcome>, r: nat, queries: seq<QueryRec>, i: nat)
  {
    && i <= |LastRows(queries)| && r < |s.regs|
    && Follows(env, s, t, c, log) && Stands(t, c, ReplayPhase(r, queries, i))
    && t == s.(conns := t.conns, outbox := t.outbox)
    && t.outbox == Tell(s.outbox, s.clients, c, RowMsgs(s.regs[r].sub, LastRows(queries)[..i]))
  }

  lemma TellingStart(env: Env, s: Sys, t: Sys, c: string, log: seq<Outcome>, r: nat, queries: seq<QueryRec>)
    requires Follows(env, s, t, c, log) && Stands(t, c, Queried(r, queries)) && r < |s.regs| &&
      t == s.(conns := t.conns)
    ensures Telling(env, s, t, c, log, r, queries, 0)
  {
    hide Follows;
    TellMore(s.outbox, s.clients, c, [], []);
    assert RowMsgs(s.regs[r].sub, LastRows(queries)[..0]) == [];
  }

  lemma TellingNext(env: Env, s: Sys, t: Sys, c: string, log: seq<Outcome>, r: nat, queries: seq<QueryRec>, i: nat)
    requires Telling(env, s, t, c, log, r, queries, i) && i < |LastRows(queries)|
    ensures Stands(t, c, Replaying(r, queries, i)) && r < |t.regs| && t.clients <= t.outbox.Keys
    ensures var u := DoReplay(t, c);
      && Telling(env, s, u, c, log, r, queries, i + 1)
      && u == t.(conns := u.conns, outbox :=
           PostTo(t.outbox, t.clients, c, Sent(EventMsg(s.regs[r].sub, FromRow(LastRows(queries)[i])), Reply)))
  {
    hide Follows, DoReplay, PostTo, Tell, FromRow, LastRows;
    var rows, sub := LastRows(queries), s.regs[r].sub;
    Registries(env, s, t, c, log);
    TakeReplay(env, s, t, c, log, r, queries, i);
    TellOne(t.outbox, t.clients, c, EventMsg(sub, FromRow(rows[i])));
    TellMore(s.outbox, s.clients, c, RowMsgs(sub, rows[..i]), [EventMsg(sub, FromRow(rows[i]))]);
    assert RowMsgs(sub, rows[..i + 1]) == RowMsgs(sub, rows[..i]) + [EventMsg(sub, FromRow(rows[i]))];
  }

  // ---- verdicts on events ----

  /** Why an event is refused, if it is. */
  function Verdict(env: Env, t: seq<Row>, e: NostrEvent, io: Io): Option<Refusal> {
    if Gate(env, e).Some? then Gate(env, e)
    else if IsEphemeral(e) then None
    else if io.checkFails then Some(DatabaseError)
    else if HasId(t, e.id) then Some(Duplicate)
    else if !io.enqueue.Works? then Some(EnqueueError)
    else None
  }

  /** Where the handler of an event stands once it is refused or queued. */
  function Judged(e: NostrEvent, why: Option<Refusal>, n: nat): Phase {
    if why.Some? then Answering(e.id, why, None)
    else Snapshotting(e, if IsEphemeral(e) then None else Some(n))
  }

  /** The XADD is sent and arrives. */
  predicate Queues(env: Env, t: seq<Row>, e: NostrEvent, io: Io) {
    Admitted(env, e) && !IsEphemeral(e) && !io.checkFails && !HasId(t, e.id) && !io.enqueue.Fails?
  }

  lemma HasIdMeans(t: seq<Row>, id: string)
    ensures HasId(t, id) <==> exists q :: q in t && q.id == id
  {
  }

  // ---- histories, connections and cleanup ----

  /** The text frames before the first close frame. */
  function Texts(frames: seq<Frame>): seq<Body> {
    if frames == [] || frames[0].CloseFrame? then []
    else (if frames[0].TextFrame? then [frames[0].body] else []) + Texts(frames[1..])
  }

  lemma TextsNext(frames: seq<Frame>, i: nat, done: seq<Body>)
    requires i < |frames| && !frames[i].CloseFrame? && Texts(frames) == done + Texts(frames[i..])
    ensures Texts(frames) == (if frames[i].TextFrame? then done + [frames[i].body] else done) + Texts(frames[i + 1..])
  {
    assert frames[i..][0] == frames[i] && frames[i..][1..] == frames[i + 1..];
  }

  lemma TextsEnd(env: Env, frames: seq<Frame>)
    requires frames == [] || frames[0].CloseFrame?
    ensures Texts(frames) == [] && OnFrame(env, CloseFrame) == Departing
  {
  }

  /** Pings and frames of other kinds leave the connection as it is. */
  lemma QuietFrame(env: Env, frame: Frame)
    requires !frame.TextFrame? && !frame.CloseFrame?
    ensures OnFrame(env, frame) == Idle
  {
  }

  lemma CloseSent(env: Env)
    ensures FrameSent(env, CloseFrame)
  {
  }

  lemma NoneAnswered(env: Env)
    ensures AllAnswered(env, [], [])
  {
  }

  lemma Connected(env: Env, s: Sys, t: Sys, clock: U64)
    requires SysInv(env, s) && s.issued < TWO_64 && NoReaders(s) && t == DoConnect(s, clock)
    ensures var id := ClientIds.IdText(clock, s.issued % TWO_64);
      && id !in s.conns && t.conns == s.conns[id := Conn(Idle, [])] && NoReaders(t) && id !in t.subs && id !in s.clients
  {
    hide P.Inv, LimitInv, LiveInv, CastsInv, SoundInv, ConnOk, ClientIds.IdText, IssuedId;
    RelaySteps.FreshId(s, clock);
  }

  lemma StillNoReaders(s: Sys, t: Sys, c: string)
    requires NoReaders(s) && c in t.conns && t.conns == s.conns[c := t.conns[c]] && PhaseOf(t, c) == Departing
    ensures NoReaders(t)
  {
  }

  lemma OneConn(s: Sys, m: Sys, t: Sys, c: string)
    requires c in t.conns && m.conns == s.conns[c := Conn(Idle, [])] && t.conns == m.conns[c := t.conns[c]]
    ensures t.conns == s.conns[c := t.conns[c]]
  {
  }

  lemma Undone(clients: set<string>, m: SubMap, c: string)
    requires c !in clients && c !in m
    ensures clients + {c} - {c} == clients && m - {c} == m
  {
  }

  lemma RepliesAre(env: Env, s: Sys, c: string)
    requires SysInv(env, s) && Stands(s, c, Gone)
    ensures c in s.outbox && Replies(s.outbox[c]) == Transcript(s.conns[c].log)
  {
    hide P.Inv, LimitInv, LiveInv, CastsInv, SoundInv, OutcomeOk, Replies, Transcript;
    assert ConnOk(env, s, c);
    assert Transcript(s.conns[c].log) + [] == Transcript(s.conns[c].log);
  }

  lemma Departed(env: Env, s: Sys, t: Sys, c: string, log: seq<Outcome>)
    requires Follows(env, s, t, c, log) && Stands(t, c, Departing) && NoReaders(t)
    ensures c in DoDeregister(t, c).conns
    ensures var u := DoForget(DoDeregister(t, c), c);
      && Follows(env, s, u, c, log) && Stands(u, c, Gone)
      && u == t.(conns := u.conns, clients := t.clients - {c}, subs := t.subs - {c}, live := u.live)
  {
    hide Follows, DoDeregister, DoForget, NoReaders;
    TakeDeregister(env, s, t, c, log);
    TakeForget(env, s, DoDeregister(t, c), c, log);
  }

  lemma OthersKept(m: SubMap, c: string, sub: string, filters: seq<Filter>)
    ensures AddSub(m, c, sub, filters) - {c} == m - {c} && RemoveSub(m, c, sub) - {c} == m - {c}
  {
  }

  /** The queries made for the filters so far: each asked its own filter, and succeeded when the database answered. */
  ghost predicate QueriesMade(env: Env, filters: seq<Filter>, scans: seq<Option<seq<Row>>>, queries: seq<QueryRec>) {
    && |queries| <= |filters|
    && forall i :: 0 <= i < |queries| ==> QueryMade(env, filters[i], if i < |scans| then scans[i] else None, queries[i])
  }

  predicate QueryMade(env: Env, f: Filter, scan: Option<seq<Row>>, q: QueryRec) {
    q.filter == f && (q.ok <==> scan.Some? && HistoryLimit(env, f) < TWO_63)
  }

  lemma NoQueries(env: Env, filters: seq<Filter>, scans: seq<Option<seq<Row>>>)
    ensures QueriesMade(env, filters, scans, [])
  {
  }

  lemma OneQueryMore(env: Env, filters: seq<Filter>, scans: seq<Option<seq<Row>>>, queries: seq<QueryRec>, q: QueryRec)
    requires QueriesMade(env, filters, scans, queries) && |queries| < |filters|
    requires QueryMade(env, filters[|queries|], if |queries| < |scans| then scans[|queries|] else None, q)
    ensures QueriesMade(env, filters, scans, queries + [q])
  {
  }

  lemma HistoryNext(out: Outboxes, clients: set<string>, c: string, sub: string, queries: seq<QueryRec>, q: QueryRec)
    ensures Tell(Tell(out, clients, c, History(sub, queries)), clients, c, RowMsgs(sub, q.rows))
         == Tell(out, clients, c, History(sub, queries + [q]))
  {
    hide Tell, History, RowMsgs;
    HistoryAppend(sub, queries, q);
    TellMore(out, clients, c, History(sub, queries), RowMsgs(sub, q.rows));
  }

  lemma HistoryStart(out: Outboxes, clients: set<string>, c: string, sub: string)
    ensures out == Tell(out, clients, c, History(sub, []))
  {
    TellMore(out, clients, c, [], []);
  }

  lemma LastOf(queries: seq<QueryRec>, q: QueryRec)
    ensures LastRows(queries + [q]) == q.rows
  {
  }

  lemma TableUnique(env: Env, s: Sys)
    requires SysInv(env, s)
    ensures UniqueIds(s.pipe.table)
  {
    hide FrontInv, P.QueueGated, P.TaskOk, P.LocksApart, P.AckedSettled;
  }

  lemma TellingEnd(env: Env, s: Sys, t: Sys, c: string, log: seq<Outcome>, r: nat, queries: seq<QueryRec>)
    requires Telling(env, s, t, c, log, r, queries, |LastRows(queries)|)
    ensures NoCollision(env) && SysInv(env, t) && Follows(env, s, t, c, log) && Stands(t, c, Querying(r, queries))
    ensures r < |s.regs| && t == s.(conns := t.conns, outbox := t.outbox)
    ensures t.outbox == Tell(s.outbox, s.clients, c, RowMsgs(s.regs[r].sub, LastRows(queries)))
  {
    hide Follows, LastRows;
    FollowsParts(env, s, t, c, log);
    assert LastRows(queries)[..|LastRows(queries)|] == LastRows(queries);
  }
}
