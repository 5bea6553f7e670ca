/** The shared state of the relay and the handlers over it (src/relay/mod.rs, src/service/mod.rs,
    src/websocket/mod.rs). A handler that is not interrupted is a run of the relay machine, which the
    ghost field `sys` follows step by step. */
module App {
  import opened Base
  import opened Events
  import opened Filters
  import opened Subscriptions
  import opened Table
  import opened Streams
  import opened Protocol
  import opened Relay
  import opened RelayInv
  import opened RelayReplies
  import opened Postgres
  import opened AppSteps
  import opened AppSpec
  import ClientIds
  import RelaySteps
  import P = Pipeline
  import Sql

  class AppState {
    const env: Env
    const pg: PgStore
    const redis: RedisStore
    const subscriptions: SubscriptionManager
    const ids: ClientIds.IdSource
    var clients: set<string>
    var outbox: map<string, seq<Sent>>
    /** How many broadcasts there were; it labels their messages. */
    var casts: nat
    ghost var sys: Sys

    /** The machine's state is this one. */
    ghost predicate Mirrors()
      reads this, pg, redis, subscriptions, ids
    {
      && sys.pipe.table == pg.events && sys.pipe.stream == redis.stream
      && sys.subs == subscriptions.subs && sys.clients == clients && sys.outbox == outbox
      && |sys.casts| == casts && sys.issued % TWO_64 == ids.counter
    }

    ghost predicate Valid()
      reads this, pg, redis, subscriptions, ids
    {
      && Mirrors() && subscriptions.Valid()
      && NoCollision(env) && SysInv(env, sys) && env.maxSubscriptions * 50 < TWO_64
    }

    /** What the machine's log holds for a connection. */
    ghost function Log(c: string): seq<Outcome>
      reads this
      requires c in sys.conns
    {
      sys.conns[c].log
    }

    /** A relay starts with no client; the table and the stream are what earlier runs left. */
    constructor (env: Env, pg: PgStore, redis: RedisStore, ids: ClientIds.IdSource)
      requires NoCollision(env) && env.maxSubscriptions * 50 < TWO_64 && ids.counter == 0
      requires P.Inv(env, P.Pipe(pg.events, redis.stream, map[]))
      ensures Valid() && fresh(subscriptions) && clients == {} && outbox == map[] && subscriptions.subs == map[]
      ensures this.env == env && this.pg == pg && this.redis == redis && this.ids == ids
    {
      hide NoCollision, P.Inv;
      this.env := env;
      this.pg := pg;
      this.redis := redis;
      this.ids := ids;
      subscriptions := new SubscriptionManager();
      clients := {};
      outbox := map[];
      casts := 0;
      sys := Started(P.Pipe(pg.events, redis.stream, map[]));
      new;
      RelaySteps.StartedInv(env, sys.pipe);
    }

    /** A send on a client's channel, dropped unless the client is registered. */
    method Post(c: string, m: Sent)
      requires clients <= outbox.Keys
      modifies this`outbox
      ensures outbox == PostTo(old(outbox), clients, c, m)
    {
      if c in clients {
        outbox := outbox[c := outbox[c] + [m]];
      }
    }

    /** Exactly one message per matching subscription of a registered client, and nothing elsewhere. */
    method BroadcastEvent(e: NostrEvent, ghost c: string)
      requires Valid() && c in sys.conns && PhaseOf(sys, c).Snapshotting? && PhaseOf(sys, c).e == e
      modifies this`outbox, this`casts, this`sys
      ensures Valid() && Follows(env, old(sys), sys, c, old(Log(c)))
      ensures Stands(sys, c, Answering(e.id, None, Some(old(casts)))) && casts == old(casts) + 1
      ensures Serves(old(outbox), outbox, clients, Matching(subscriptions.subs, e), e, old(casts))
    {
      hide SysInv, NoCollision, MatchesPair, Distinct, Casting, Serves, Follows;
      var targets := subscriptions.MatchingClients(e);
      ghost var start, entry, log := sys, PhaseOf(sys, c).entry, Log(c);
      FollowsStart(env, sys, c);
      CastingStart(env, sys, c, log, e, entry, targets);
      sys := DoSnapshot(sys, c, targets);
      var no := casts;
      casts := casts + 1;
      for i := 0 to |targets|
        invariant Mirrors() && Casting(env, start, sys, c, log, targets, i, e)
      {
        CastingNext(env, start, sys, c, log, targets, i, e);
        Post(targets[i].0, Sent(EventMsg(targets[i].1, e), Live(no)));
        sys := DoSend(sys, c);
      }
      CastingEnd(env, start, sys, c, log, targets, e);
    }

    /** The limits and `validate`. */
    method CheckEvent(e: NostrEvent) returns (why: Option<Refusal>)
      ensures why.None? <==> Admitted(env, e)
      ensures why == Gate(env, e)
    {
      if Utf8Len(e.content) > env.maxContentLength {
        return Some(ContentTooLong);
      }
      if |e.tags| > env.maxEventTags {
        return Some(TooManyTags);
      }
      why := Validate(env, e);
    }

    /** The XADD, which ephemeral events do without. */
    method QueueEvent(e: NostrEvent, fault: Fault, ghost c: string) returns (queued: bool)
      requires Valid() && Stands(sys, c, Routing(e))
      modifies this`sys, redis
      ensures Valid() && Follows(env, old(sys), sys, c, old(Log(c)))
      ensures Stands(sys, c, Routed(e, |old(redis.stream).entries|, fault))
      ensures redis.stream == AfterRoute(old(redis.stream), e, fault)
      ensures queued <==> IsEphemeral(e) || fault.Works?
    {
      hide SysInv, NoCollision, Follows, IsEphemeral, DoRoute, Xadd, Routed;
      ghost var start, log := sys, Log(c);
      FollowsStart(env, sys, c);
      TakeRoute(env, start, sys, c, log, e, fault);
      queued := true;
      if !IsEphemeral(e) {
        var r := redis.EnqueueEvent(e, fault);
        queued := r.Ok?;
      }
      sys := DoRoute(sys, c, fault);
      FollowsParts(env, start, sys, c, log);
    }

    /** The duplicate check: an event whose id is in the table, or unknown to be absent, goes no further. */
    method CheckDuplicate(e: NostrEvent, fails: bool, ghost c: string) returns (why: Option<Refusal>)
      requires Valid() && Stands(sys, c, Checking(e))
      modifies this`sys
      ensures Valid() && Follows(env, old(sys), sys, c, old(Log(c)))
      ensures Stands(sys, c, Checked(e, fails, HasId(pg.events, e.id)))
      ensures why == if fails then Some(DatabaseError) else if HasId(pg.events, e.id) then Some(Duplicate) else None
    {
      hide SysInv, NoCollision, Follows, HasId, DoCheck, Checked;
      ghost var start, log := sys, Log(c);
      FollowsStart(env, sys, c);
      var known := pg.EventExists(e.id, fails);
      HasIdMeans(pg.events, e.id);
      TakeCheck(env, start, sys, c, log, e, fails);
      sys := DoCheck(sys, c, fails);
      FollowsParts(env, start, sys, c, log);
      why := if known.Err? then Some(DatabaseError) else if known.value then Some(Duplicate) else None;
    }

    /** Up to the broadcast: the limits, `validate`, the duplicate check and the XADD. */
    method CheckAndQueue(e: NostrEvent, io: Io, ghost c: string) returns (why: Option<Refusal>)
      requires Valid() && Stands(sys, c, AfterGate(env, e))
      modifies this`sys, redis
      ensures Valid() && Follows(env, old(sys), sys, c, old(Log(c)))
      ensures why == Verdict(env, pg.events, e, io)
      ensures Stands(sys, c, Judged(e, why, |old(redis.stream).entries|))
      ensures redis.stream == if Queues(env, pg.events, e, io) then Xadd(old(redis.stream), EventJson(e))
        else old(redis.stream)
    {
      hide SysInv, NoCollision, Follows, Gate, HasId, IsEphemeral, Xadd;
      ghost var start, log := sys, Log(c);
      FollowsStart(env, sys, c);
      why := CheckEvent(e);
      if why.None? && !IsEphemeral(e) {
        why := CheckDuplicate(e, io.checkFails, c);
      }
      if why.None? {
        ghost var mid := sys;
        FollowsParts(env, start, mid, c, log);
        var queued := QueueEvent(e, io.enqueue, c);
        FollowsOn(env, start, mid, sys, c, log, log);
        why := if queued then None else Some(EnqueueError);
      }
    }

    /** Accepts exactly the admitted events that are ephemeral, or new to the table and queued; then it
        broadcasts, once. A refusal changes nothing, unless only the reply of the XADD was lost. */
    method HandleEvent(e: NostrEvent, io: Io, ghost c: string) returns (why: Option<Refusal>)
      requires Valid() && Stands(sys, c, AfterGate(env, e))
      modifies this`outbox, this`casts, this`sys, redis
      ensures Valid() && Follows(env, old(sys), sys, c, old(Log(c)))
      ensures Stands(sys, c, Answering(e.id, why, if why.None? then Some(old(casts)) else None))
      ensures why.None? <==>
        Admitted(env, e) && (IsEphemeral(e) || (!io.checkFails && !HasId(pg.events, e.id) && io.enqueue.Works?))
      ensures !Admitted(env, e) ==> why == Gate(env, e)
      ensures Admitted(env, e) && why.Some? ==>
        why.value == (if io.checkFails then DatabaseError else if HasId(pg.events, e.id) then Duplicate
          else EnqueueError)
      ensures redis.stream == if Queues(env, pg.events, e, io) then Xadd(old(redis.stream), EventJson(e))
        else old(redis.stream)
      ensures why.Some? ==> outbox == old(outbox) && casts == old(casts)
      ensures why.None? ==> Serves(old(outbox), outbox, clients, Matching(subscriptions.subs, e), e, old(casts))
    {
      hide SysInv, NoCollision, Follows, Serves, MatchesPair, Gate, IsEphemeral, HasId;
      ghost var start, log := sys, Log(c);
      why := CheckAndQueue(e, io, c);
      if why.None? {
        ghost var mid := sys;
        FollowsParts(env, start, mid, c, log);
        BroadcastEvent(e, c);
        FollowsOn(env, start, mid, sys, c, log, log);
      }
    }

    /** The rows of a legal answer to a filter, newest first, or none when the query fails. */
    method FetchHistory(
        f: Filter, scan: Option<seq<Row>>)
      returns (events: seq<NostrEvent>, ghost answer: Option<seq<Row>>)
      requires Valid() && (scan.Some? ==> IsScan(scan.value, pg.events))
      ensures answer.Some? <==> scan.Some? && HistoryLimit(env, f) < TWO_63
      ensures answer.Some? ==> Sql.IsAnswer(pg.events, Asked(f), HistoryLimit(env, f), answer.value)
      ensures events == FromRows(match answer case Some(rows) => rows case None => [])
    {
      hide SysInv, NoCollision, Sql.IsAnswer;
      TableUnique(env, sys);
      var asked := match f.limit case Some(n) => n case None => 100;
      var limit := if asked < env.maxSubscriptions * 50 then asked else env.maxSubscriptions * 50;
      var found, rows := pg.QueryEvents(f.authors, f.kinds, f.since, f.until, limit, scan);
      if found.Ok? {
        SameQuestion(pg.events, Asking(f.authors, f.kinds, f.since, f.until), Asked(f), limit, rows);
        events, answer := found.value, Some(rows);
      } else {
        events, answer := [], None;
      }
    }

    /** One filter's history is fetched and sent. */
    method SendHistory(
        c: string, sub: string, f: Filter, scan: Option<seq<Row>>, ghost r: nat, ghost queries: seq<QueryRec>)
      returns (ghost q: QueryRec)
      requires Valid() && Stands(sys, c, Querying(r, queries)) && r < |sys.regs| && sys.regs[r].sub == sub
      requires |queries| < |sys.regs[r].filters| && sys.regs[r].filters[|queries|] == f
      requires scan.Some? ==> IsScan(scan.value, pg.events)
      modifies this`outbox, this`sys
      ensures Valid() && Follows(env, old(sys), sys, c, old(Log(c))) && Stands(sys, c, Querying(r, queries + [q]))
      ensures sys == old(sys).(conns := sys.conns, outbox := outbox)
      ensures QueryMade(env, f, scan, q)
      ensures outbox == Tell(old(outbox), clients, c, RowMsgs(sub, q.rows))
    {
      hide SysInv, NoCollision, Follows, Telling, DoQuery, DoReplay, Sql.IsAnswer, Tell, PostTo, Acked, HistoryLimit,
        LastRows, Queried;
      ghost var start, log := sys, Log(c);
      FollowsStart(env, sys, c);
      var events, answer := FetchHistory(f, scan);
      q := RecordOf(sys, f, answer);
      ghost var all := queries + [q];
      TakeQuery(env, start, sys, c, log, r, queries, answer);
      sys := DoQuery(sys, c, answer);
      TellingStart(env, start, sys, c, log, r, all);
      LastOf(queries, q);
      for i := 0 to |events|
        invariant Mirrors() && Telling(env, start, sys, c, log, r, all, i)
      {
        TellingNext(env, start, sys, c, log, r, all, i);
        Post(c, Sent(EventMsg(sub, events[i]), Reply));
        sys := DoReplay(sys, c);
      }
      TellingEnd(env, start, sys, c, log, r, all);
    }

    method SendOk(c: string, id: string, why: Option<Refusal>, ghost cast: Option<nat>)
      requires Valid() && Stands(sys, c, Answering(id, why, cast))
      modifies this`outbox, this`sys
      ensures Valid() && Follows(env, old(sys), sys, c, old(Log(c)) + [Answered(id, why, cast)]) && Stands(sys, c, Idle)
      ensures outbox == Tell(old(outbox), clients, c, [OkMsg(id, why)])
    {
      hide SysInv, NoCollision, Follows, DoAnswer, PostTo, Tell;
      ghost var start, log := sys, Log(c);
      FollowsStart(env, sys, c);
      Registries(env, start, sys, c, log);
      TakeAnswer(env, start, sys, c, log, id, why, cast);
      TellOne(outbox, clients, c, OkMsg(id, why));
      Post(c, Sent(OkMsg(id, why), Reply));
      sys := DoAnswer(sys, c);
      FollowsParts(env, start, sys, c, log + [Answered(id, why, cast)]);
    }

    method SendNotice(c: string, complaint: Complaint)
      requires Valid() && Stands(sys, c, Complaining(complaint))
      modifies this`outbox, this`sys
      ensures Valid() && Follows(env, old(sys), sys, c, old(Log(c)) + [Complained(complaint)]) && Stands(sys, c, Idle)
      ensures outbox == Tell(old(outbox), clients, c, [NoticeMsg(complaint)])
    {
      hide SysInv, NoCollision, Follows, DoComplain, PostTo, Tell;
      ghost var start, log := sys, Log(c);
      FollowsStart(env, sys, c);
      Registries(env, start, sys, c, log);
      TakeComplain(env, start, sys, c, log, complaint);
      TellOne(outbox, clients, c, NoticeMsg(complaint));
      Post(c, Sent(NoticeMsg(complaint), Reply));
      sys := DoComplain(sys, c);
      FollowsParts(env, start, sys, c, log + [Complained(complaint)]);
    }

    method SendEose(c: string, sub: string, ghost r: nat, ghost queries: seq<QueryRec>)
      requires Valid() && Stands(sys, c, Querying(r, queries)) && r < |sys.regs| && sys.regs[r].sub == sub
      requires |queries| == |sys.regs[r].filters|
      modifies this`outbox, this`sys
      ensures Valid() && Follows(env, old(sys), sys, c, old(Log(c)) + [Subscribed(r, sub, queries)]) &&
        Stands(sys, c, Idle)
      ensures outbox == Tell(old(outbox), clients, c, [EoseMsg(sub)])
    {
      hide SysInv, NoCollision, Follows, DoEose, PostTo, Tell;
      ghost var start, log := sys, Log(c);
      FollowsStart(env, sys, c);
      Registries(env, start, sys, c, log);
      TakeEose(env, start, sys, c, log, r, queries);
      TellOne(outbox, clients, c, EoseMsg(sub));
      Post(c, Sent(EoseMsg(sub), Reply));
      sys := DoEose(sys, c);
      FollowsParts(env, start, sys, c, log + [Subscribed(r, sub, queries)]);
    }

    /** Every EVENT frame that parses gets exactly one OK, after the live copies of its own broadcast. */
    method HandleClientEvent(c: string, e: NostrEvent, io: Io) returns (ghost o: Outcome, ghost mid: Outboxes)
      requires Valid() && Stands(sys, c, AfterGate(env, e))
      modifies this`outbox, this`casts, this`sys, redis
      ensures Valid() && Follows(env, old(sys), sys, c, old(Log(c)) + [o]) && Stands(sys, c, Idle)
      ensures o.Answered? && o.id == e.id
      ensures o.why.None? <==>
        Admitted(env, e) && (IsEphemeral(e) || (!io.checkFails && !HasId(pg.events, e.id) && io.enqueue.Works?))
      ensures !Admitted(env, e) ==> o.why == Gate(env, e)
      ensures redis.stream == if Queues(env, pg.events, e, io) then Xadd(old(redis.stream), EventJson(e))
        else old(redis.stream)
      ensures if o.why.None? then Serves(old(outbox), mid, clients, Matching(subscriptions.subs, e), e, old(casts))
              else mid == old(outbox)
      ensures outbox == Tell(mid, clients, c, [OkMsg(e.id, o.why)])
    {
      hide SysInv, NoCollision, Follows, Serves, MatchesPair, Gate, IsEphemeral, HasId, Tell, Xadd;
      ghost var start, log := sys, Log(c);
      var why := HandleEvent(e, io, c);
      ghost var at, cast := sys, if why.None? then Some(old(casts)) else None;
      FollowsParts(env, start, at, c, log);
      o, mid := Answered(e.id, why, cast), outbox;
      SendOk(c, e.id, why, cast);
      FollowsOn(env, start, at, sys, c, log, log + [o]);
    }

    /** The subscription limit, checked under a lock of its own. */
    method MayOpen(c: string, sub: string, filters: seq<Filter>) returns (granted: bool)
      requires Valid() && Stands(sys, c, Counting(sub, filters))
      modifies this`sys
      ensures Valid() && Follows(env, old(sys), sys, c, old(Log(c)))
      ensures granted <==> |SubsOf(subscriptions.subs, c)| < env.maxSubscriptions
      ensures Stands(sys, c, if granted then Adding(sub, filters) else Complaining(TooManySubscriptions))
      ensures sys.regs == old(sys).regs
    {
      hide SysInv, NoCollision, Follows, DoCount, SubsOf;
      ghost var start, log := sys, Log(c);
      FollowsStart(env, sys, c);
      var held := subscriptions.ClientSubscriptions(c);
      TakeCount(env, start, sys, c, log, sub, filters);
      sys := DoCount(env, sys, c);
      granted := |held| < env.maxSubscriptions;
      FollowsParts(env, start, sys, c, log);
    }

    /** The subscription is added under another lock. */
    method Register(c: string, sub: string, filters: seq<Filter>)
      requires Valid() && Stands(sys, c, Adding(sub, filters))
      modifies this`sys, subscriptions
      ensures Valid() && Follows(env, old(sys), sys, c, old(Log(c)))
      ensures subscriptions.subs == AddSub(old(subscriptions.subs), c, sub, filters)
      ensures Stands(sys, c, Querying(|old(sys).regs|, [])) && |sys.regs| == |old(sys).regs| + 1
      ensures sys.regs[|old(sys).regs|].sub == sub && sys.regs[|old(sys).regs|].filters == filters
    {
      hide SysInv, NoCollision, Follows, DoAdd, AddSub, Flat;
      ghost var start, log := sys, Log(c);
      FollowsStart(env, sys, c);
      TakeAdd(env, start, sys, c, log, sub, filters);
      subscriptions.AddSubscription(c, sub, filters);
      sys := DoAdd(sys, c);
      FollowsParts(env, start, sys, c, log);
    }

    /** Each filter's history in turn; a failed query is an empty one. */
    method SendHistories(c: string, sub: string, filters: seq<Filter>, scans: seq<Option<seq<Row>>>, ghost r: nat)
      returns (ghost queries: seq<QueryRec>)
      requires Valid() && ScansOf(pg.events, scans) && Stands(sys, c, Querying(r, []))
      requires r < |sys.regs| && sys.regs[r].sub == sub && sys.regs[r].filters == filters
      modifies this`outbox, this`sys
      ensures Valid() && Follows(env, old(sys), sys, c, old(Log(c))) && Stands(sys, c, Querying(r, queries))
      ensures sys.regs == old(sys).regs && |queries| == |filters| && QueriesMade(env, filters, scans, queries)
      ensures outbox == Tell(old(outbox), clients, c, History(sub, queries))
    {
      hide SysInv, NoCollision, Follows, Tell, History, RowMsgs, QueriesMade, QueryMade, IsScan;
      ghost var start, log := sys, Log(c);
      queries := [];
      FollowsStart(env, sys, c);
      HistoryStart(outbox, clients, c, sub);
      NoQueries(env, filters, scans);
      for i := 0 to |filters|
        invariant Valid() && Follows(env, start, sys, c, log) && Stands(sys, c, Querying(r, queries))
        invariant sys.regs == start.regs && |queries| == i && QueriesMade(env, filters, scans, queries)
        invariant outbox == Tell(old(outbox), clients, c, History(sub, queries))
      {
        var scan := if i < |scans| then scans[i] else None;
        ghost var q := SendNext(c, sub, filters[i], scan, r, queries, start, log);
        HistoryNext(old(outbox), clients, c, sub, queries, q);
        OneQueryMore(env, filters, scans, queries, q);
        queries := queries + [q];
      }
    }

    /** One turn of the loop over the filters. */
    method SendNext(
        c: string, sub: string, f: Filter, scan: Option<seq<Row>>, ghost r: nat, ghost queries: seq<QueryRec>,
        ghost start: Sys, ghost log: seq<Outcome>)
      returns (ghost q: QueryRec)
      requires Valid() && Follows(env, start, sys, c, log) && Stands(sys, c, Querying(r, queries))
      requires r < |sys.regs| && sys.regs[r].sub == sub
      requires |queries| < |sys.regs[r].filters| && sys.regs[r].filters[|queries|] == f
      requires scan.Some? ==> IsScan(scan.value, pg.events)
      modifies this`outbox, this`sys
      ensures Valid() && Follows(env, start, sys, c, log) && Stands(sys, c, Querying(r, queries + [q]))
      ensures sys.regs == old(sys).regs && QueryMade(env, f, scan, q)
      ensures outbox == Tell(old(outbox), clients, c, RowMsgs(sub, q.rows))
    {
      hide SysInv, NoCollision, Follows, Tell, RowMsgs, QueryMade, IsScan;
      ghost var mid := sys;
      FollowsParts(env, start, mid, c, log);
      q := SendHistory(c, sub, f, scan, r, queries);
      FollowsOn(env, start, mid, sys, c, log, log);
    }

    /** A REQ that is accepted sends each filter's history in turn and then exactly one EOSE, whatever
        queries fail; one that is refused changes no subscription and sends nothing here. */
    method HandleClientReq(c: string, sub: string, filters: seq<Filter>, scans: seq<Option<seq<Row>>>)
      returns (r: Result<(), Complaint>, ghost o: Outcome)
      requires Valid() && ScansOf(pg.events, scans) && Stands(sys, c, OnRequest(env, ReqRequest(sub, filters)))
      modifies this`outbox, this`sys, subscriptions
      ensures Valid()
      ensures r.Err? <==> |filters| > env.maxFilters || |SubsOf(old(subscriptions.subs), c)| >= env.maxSubscriptions
      ensures r.Err? ==>
        && r.error == (if |filters| > env.maxFilters then TooManyFilters else TooManySubscriptions)
        && subscriptions.subs == old(subscriptions.subs) && outbox == old(outbox)
        && Follows(env, old(sys), sys, c, old(Log(c))) && Stands(sys, c, Complaining(r.error))
      ensures r.Ok? ==>
        && subscriptions.subs == AddSub(old(subscriptions.subs), c, sub, filters)
        && o.Subscribed? && o.sub == sub && |o.queries| == |filters| && QueriesMade(env, filters, scans, o.queries)
        && outbox == Tell(old(outbox), clients, c, History(sub, o.queries) + [EoseMsg(sub)])
        && Follows(env, old(sys), sys, c, old(Log(c)) + [o]) && Stands(sys, c, Idle)
    {
      hide SysInv, NoCollision, Follows, AddSub, SubsOf, Tell, History, QueriesMade, ScansOf;
      ghost var start, log := sys, Log(c);
      o := Complained(BadMessage);
      FollowsStart(env, sys, c);
      if |filters| > env.maxFilters {
        return Err(TooManyFilters), o;
      }
      var granted := MayOpen(c, sub, filters);
      if !granted {
        return Err(TooManySubscriptions), o;
      }
      ghost var at := sys;
      FollowsParts(env, start, at, c, log);
      o := Subscribe(c, sub, filters, scans);
      FollowsOn(env, start, at, sys, c, log, log + [o]);
      r := Ok(());
    }

    /** The subscription is registered, then the stored events and one EOSE are sent. */
    method Subscribe(
        c: string, sub: string, filters: seq<Filter>, scans: seq<Option<seq<Row>>>)
      returns (ghost o: Outcome)
      requires Valid() && ScansOf(pg.events, scans) && Stands(sys, c, Adding(sub, filters))
      modifies this`outbox, this`sys, subscriptions
      ensures Valid() && Follows(env, old(sys), sys, c, old(Log(c)) + [o]) && Stands(sys, c, Idle)
      ensures subscriptions.subs == AddSub(old(subscriptions.subs), c, sub, filters)
      ensures o.Subscribed? && o.sub == sub && |o.queries| == |filters| && QueriesMade(env, filters, scans, o.queries)
      ensures outbox == Tell(old(outbox), clients, c, History(sub, o.queries) + [EoseMsg(sub)])
    {
      hide SysInv, NoCollision, Follows, AddSub, Tell, History, QueriesMade, ScansOf;
      ghost var start, log, reg := sys, Log(c), |sys.regs|;
      Register(c, sub, filters);
      ghost var at := sys;
      FollowsParts(env, start, at, c, log);
      o := SendStored(c, sub, filters, scans, reg);
      FollowsOn(env, start, at, sys, c, log, log + [o]);
    }

    method SendStored(c: string, sub: string, filters: seq<Filter>, scans: seq<Option<seq<Row>>>, ghost reg: nat)
      returns (ghost o: Outcome)
      requires Valid() && ScansOf(pg.events, scans) && Stands(sys, c, Querying(reg, []))
      requires reg < |sys.regs| && sys.regs[reg].sub == sub && sys.regs[reg].filters == filters
      modifies this`outbox, this`sys
      ensures Valid() && Follows(env, old(sys), sys, c, old(Log(c)) + [o]) && Stands(sys, c, Idle)
      ensures o.Subscribed? && o.sub == sub && |o.queries| == |filters| && QueriesMade(env, filters, scans, o.queries)
      ensures outbox == Tell(old(outbox), clients, c, History(sub, o.queries) + [EoseMsg(sub)])
    {
      hide SysInv, NoCollision, Follows, Tell, History, QueriesMade, ScansOf;
      ghost var start, log := sys, Log(c);
      ghost var queries := SendHistories(c, sub, filters, scans, reg);
      ghost var at := sys;
      FollowsParts(env, start, at, c, log);
      o := Subscribed(reg, sub, queries);
      TellMore(old(outbox), clients, c, History(sub, queries), [EoseMsg(sub)]);
      SendEose(c, sub, reg, queries);
      FollowsOn(env, start, at, sys, c, log, log + [o]);
    }

    method HandleClientClose(c: string, sub: string) returns (ghost o: Outcome)
      requires Valid() && Stands(sys, c, Closing(sub))
      modifies this`sys, subscriptions
      ensures Valid() && Follows(env, old(sys), sys, c, old(Log(c)) + [o]) && Stands(sys, c, Idle)
      ensures o == Unsubscribed(sub)
      ensures subscriptions.subs == RemoveSub(old(subscriptions.subs), c, sub) && !Has(subscriptions.subs, (c, sub))
    {
      hide SysInv, NoCollision, Follows, DoCloseSub, Flat;
      ghost var start, log := sys, Log(c);
      FollowsStart(env, sys, c);
      subscriptions.RemoveSubscription(c, sub);
      TakeClose(env, start, sys, c, log, sub);
      sys := DoCloseSub(sys, c);
      o := Unsubscribed(sub);
      FollowsParts(env, start, sys, c, log + [o]);
    }

    /** A request that parsed is handed to its handler. */
    method HandleRequest(c: string, request: Request, io: Io) returns (r: Result<(), Complaint>, ghost o: Outcome)
      requires Valid() && Stands(sys, c, OnRequest(env, request)) && ScansOf(pg.events, io.scans)
      modifies this`outbox, this`casts, this`sys, subscriptions, redis
      ensures Valid() && subscriptions.subs - {c} == old(subscriptions.subs) - {c}
      ensures AnswersTo(env, request, o)
      ensures r.Ok? ==> Follows(env, old(sys), sys, c, old(Log(c)) + [o]) && Stands(sys, c, Idle)
      ensures r.Err? ==>
        && o == Complained(r.error)
        && Follows(env, old(sys), sys, c, old(Log(c))) && Stands(sys, c, Complaining(r.error))
        && outbox == old(outbox) && subscriptions.subs == old(subscriptions.subs) && redis.stream == old(redis.stream)
    {
      hide SysInv, NoCollision, Follows, Tell, Serves, Gate, IsEphemeral, HasId, Queues, ScansOf, QueriesMade,
        History, SubsOf, AddSub, RemoveSub, MatchesPair;
      match request {
        case BadRequest =>
          FollowsStart(env, sys, c);
          r, o := Err(BadMessage), Complained(BadMessage);
        case EventRequest(e) =>
          ghost var answered, _ := HandleClientEvent(c, e, io);
          r, o := Ok(()), answered;
        case ReqRequest(sub, filters) =>
          OthersKept(subscriptions.subs, c, sub, filters);
          var granted, subscribed := HandleClientReq(c, sub, filters, io.scans);
          r, o := granted, if granted.Ok? then subscribed else Complained(granted.error);
        case CloseRequest(sub) =>
          OthersKept(subscriptions.subs, c, sub, []);
          ghost var closed := HandleClientClose(c, sub);
          r, o := Ok(()), closed;
      }
    }

    /** Parses a text frame and hands it on. What a frame is answered with, it is answered with once; an
        error leaves everything but the handler itself unchanged, for the caller to send a NOTICE. */
    method DispatchMessage(c: string, body: Body, io: Io) returns (r: Result<(), Complaint>, ghost o: Outcome)
      requires Valid() && Stands(sys, c, Idle) && ScansOf(pg.events, io.scans) && FrameSent(env, TextFrame(body))
      modifies this`outbox, this`casts, this`sys, subscriptions, redis
      ensures Valid() && subscriptions.subs - {c} == old(subscriptions.subs) - {c}
      ensures AnswersTo(env, Parse(body), o)
      ensures r.Ok? ==> Follows(env, old(sys), sys, c, old(Log(c)) + [o]) && Stands(sys, c, Idle)
      ensures r.Err? ==>
        && o == Complained(r.error)
        && Follows(env, old(sys), sys, c, old(Log(c))) && Stands(sys, c, Complaining(r.error))
        && outbox == old(outbox) && subscriptions.subs == old(subscriptions.subs) && redis.stream == old(redis.stream)
    {
      hide SysInv, NoCollision, Follows, ScansOf, Parse, OnRequest, AnswersTo, FrameSent;
      ghost var start, log := sys, Log(c);
      FollowsStart(env, sys, c);
      TakeReceive(env, start, sys, c, log, TextFrame(body));
      sys := SetPhase(sys, c, OnFrame(env, TextFrame(body)));
      FollowsParts(env, start, sys, c, log);
      ghost var at := sys;
      r, o := HandleRequest(c, Parse(body), io);
      FollowsOn(env, start, at, sys, c, log, if r.Ok? then log + [o] else log);
    }

    method AddClient(c: string)
      modifies this`clients, this`outbox
      ensures clients == old(clients) + {c} && outbox == old(outbox)[c := []]
    {
      clients, outbox := clients + {c}, outbox[c := []];
    }

    /** Deregisters a client and forgets its subscriptions, under two locks. */
    method RemoveClient(c: string)
      requires Valid() && Stands(sys, c, Departing) && NoReaders(sys)
      modifies this`clients, this`sys, subscriptions
      ensures Valid() && Follows(env, old(sys), sys, c, old(Log(c))) && Stands(sys, c, Gone)
      ensures clients == old(clients) - {c} && subscriptions.subs == old(subscriptions.subs) - {c}
    {
      hide SysInv, NoCollision, Follows, DoDeregister, DoForget, Flat, OfClient, NoReaders;
      ghost var start, log := sys, Log(c);
      FollowsStart(env, sys, c);
      Departed(env, start, sys, c, log);
      ghost var after := DoForget(DoDeregister(sys, c), c);
      FollowsParts(env, start, after, c, log);
      clients := clients - {c};
      subscriptions.RemoveAll(c);
      sys := after;
    }

    /** A text frame: an error of the dispatcher becomes exactly one NOTICE. */
    method ServeText(c: string, body: Body, io: Io) returns (ghost o: Outcome)
      requires Valid() && Stands(sys, c, Idle) && ScansOf(pg.events, io.scans) && FrameSent(env, TextFrame(body))
      modifies this`outbox, this`casts, this`sys, subscriptions, redis
      ensures Valid() && Follows(env, old(sys), sys, c, old(Log(c)) + [o]) && Stands(sys, c, Idle)
      ensures AnswersTo(env, Parse(body), o) && subscriptions.subs - {c} == old(subscriptions.subs) - {c}
    {
      hide SysInv, NoCollision, Follows, ScansOf, Parse, AnswersTo, Tell, FrameSent;
      ghost var start, log := sys, Log(c);
      var r;
      r, o := DispatchMessage(c, body, io);
      if r.Err? {
        ghost var at := sys;
        FollowsParts(env, start, at, c, log);
        SendNotice(c, r.error);
        FollowsOn(env, start, at, sys, c, log, log + [o]);
      }
    }

    /** The receive loop: text frames are served one after the other until a close frame or the end; frames of
        other kinds are received and change nothing. */
    method ServeFrames(c: string, frames: seq<Frame>, io: nat -> Io) returns (ghost log: seq<Outcome>)
      requires Valid() && Stands(sys, c, Idle) && Log(c) == [] && forall n :: ScansOf(pg.events, io(n).scans)
      requires forall i :: 0 <= i < |frames| ==> FrameSent(env, frames[i])
      modifies this`outbox, this`casts, this`sys, subscriptions, redis
      ensures Valid() && Follows(env, old(sys), sys, c, log) && Stands(sys, c, Departing)
      ensures AllAnswered(env, Texts(frames), log) && subscriptions.subs - {c} == old(subscriptions.subs) - {c}
    {
      hide SysInv, NoCollision, Follows, ScansOf, Parse, AnswersTo, AllAnswered, Texts, OnFrame, FrameSent;
      ghost var start, done: seq<Body> := sys, [];
      log := [];
      FollowsStart(env, sys, c);
      var i := 0;
      assert frames[0..] == frames && [] + Texts(frames) == Texts(frames);
      NoneAnswered(env);
      while i < |frames| && !frames[i].CloseFrame?
        invariant 0 <= i <= |frames| && Texts(frames) == done + Texts(frames[i..])
        invariant Valid() && Follows(env, start, sys, c, log) && Stands(sys, c, Idle)
        invariant AllAnswered(env, done, log) && subscriptions.subs - {c} == old(subscriptions.subs) - {c}
      {
        TextsNext(frames, i, done);
        if frames[i].TextFrame? {
          ghost var at := sys;
          FollowsParts(env, start, at, c, log);
          ghost var o := ServeText(c, frames[i].body, io(i));
          FollowsOn(env, start, at, sys, c, log, log + [o]);
          OneMoreAnswered(env, done, log, frames[i].body, o);
          done, log := done + [frames[i].body], log + [o];
        } else {
          QuietFrame(env, frames[i]);
          TakeReceive(env, start, sys, c, log, frames[i]);
          sys := SetPhase(sys, c, OnFrame(env, frames[i]));
          FollowsParts(env, start, sys, c, log);
        }
        i := i + 1;
      }
      TextsEnd(env, frames[i..]);
      assert FrameSent(env, CloseFrame) by { CloseSent(env); }
      TakeReceive(env, start, sys, c, log, CloseFrame);
      sys := SetPhase(sys, c, OnFrame(env, CloseFrame));
      assert done + [] == done;
      FollowsParts(env, start, sys, c, log);
    }

    /** A new connection gets an id no connection ever had, and an empty outbox. */
    method Accept(clock: U64) returns (c: string)
      requires Valid() && NoReaders(sys) && sys.issued < TWO_64
      modifies this`clients, this`outbox, this`sys, ids
      ensures Valid() && Leads(env, old(sys), sys) && NoReaders(sys)
      ensures c !in old(sys).conns && sys.conns == old(sys).conns[c := Conn(Idle, [])]
      ensures clients == old(clients) + {c} && outbox == old(outbox)[c := []]
      ensures c !in subscriptions.subs && c !in old(clients)
    {
      hide SysInv, NoCollision, Leads, ClientIds.IdText, NoReaders;
      ghost var start := sys;
      TakeConnect(env, sys, clock);
      c := ids.NewClientId(clock);
      AddClient(c);
      sys := DoConnect(sys, clock);
      Connected(env, start, sys, clock);
    }

    /** The receive loop and the cleanup after it. */
    method Converse(c: string, frames: seq<Frame>, io: nat -> Io) returns (ghost log: seq<Outcome>)
      requires Valid() && NoReaders(sys) && Stands(sys, c, Idle) && Log(c) == []
      requires forall n :: ScansOf(pg.events, io(n).scans)
      requires forall i :: 0 <= i < |frames| ==> FrameSent(env, frames[i])
      modifies this`clients, this`outbox, this`casts, this`sys, subscriptions, redis
      ensures Valid() && Follows(env, old(sys), sys, c, log) && Stands(sys, c, Gone)
      ensures AllAnswered(env, Texts(frames), log)
      ensures clients == old(clients) - {c} && subscriptions.subs == old(subscriptions.subs) - {c}
    {
      hide SysInv, NoCollision, Follows, NoReaders, ScansOf, AllAnswered, Texts, FrameSent;
      ghost var start := sys;
      log := ServeFrames(c, frames, io);
      ghost var mid := sys;
      FollowsParts(env, start, mid, c, log);
      StillNoReaders(start, mid, c);
      RemoveClient(c);
      FollowsOn(env, start, mid, sys, c, log, log);
    }

    /** A whole connection: it is served under a fresh id, each of its text frames is answered in order,
        its replies are exactly those answers, and nothing of it is left but what it was sent. */
    method HandleSocket(clock: U64, frames: seq<Frame>, io: nat -> Io) returns (c: string)
      requires Valid() && NoReaders(sys) && sys.issued < TWO_64 && forall n :: ScansOf(pg.events, io(n).scans)
      requires forall i :: 0 <= i < |frames| ==> FrameSent(env, frames[i])
      modifies this`clients, this`outbox, this`casts, this`sys, subscriptions, redis, ids
      ensures Valid() && Leads(env, old(sys), sys)
      ensures c !in old(sys).conns && Stands(sys, c, Gone) && sys.conns == old(sys).conns[c := sys.conns[c]]
      ensures AllAnswered(env, Texts(frames), Log(c))
      ensures c in outbox && Replies(outbox[c]) == Transcript(Log(c))
      ensures clients == old(clients) && subscriptions.subs == old(subscriptions.subs)
    {
      hide SysInv, NoCollision, Leads, Follows, NoReaders, ScansOf, AllAnswered, Texts, Replies, Transcript, FrameSent;
      ghost var start := sys;
      c := Accept(clock);
      ghost var at := sys;
      ghost var log := Converse(c, frames, io);
      FollowsParts(env, at, sys, c, log);
      OneConn(start, at, sys, c);
      Undone(old(clients), old(subscriptions.subs), c);
      LeadsOn(env, start, at, sys);
      RepliesAre(env, sys, c);
    }
  }
}
