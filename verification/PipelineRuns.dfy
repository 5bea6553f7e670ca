/** The write pipeline over whole runs: what holds in every reachable state, whatever the
    interleaving of workers and wherever reads, stores and acknowledgements fail. */
module PipelineRuns {
  import opened Events
  import opened Table
  import opened Streams
  import opened Pipeline
  import Sql

  /** `acts` leads from `s` to `t`. */
  ghost predicate Runs(env: Env, s: Pipe, acts: seq<Action>, t: Pipe)
    decreases |acts|
  {
    if acts == [] then t == s
    else Enabled(env, s, acts[0]) && Runs(env, Apply(env, s, acts[0]), acts[1..], t)
  }

  lemma EmptyPipeInv(env: Env)
    ensures Inv(env, EMPTY_PIPE)
  {
  }

  /** Over any run: the invariant holds, entries only move forward, for every (pubkey, kind) the largest
      committed `created_at` never decreases, and every row that is gone is superseded by a queued event. */
  lemma {:induction false} RunKeepsInv(env: Env, s: Pipe, acts: seq<Action>, t: Pipe)
    requires NoCollision(env) && Inv(env, s) && Runs(env, s, acts, t)
    ensures Inv(env, t) && NewestKept(s.table, t.table) && Advances(s.stream, t.stream)
    ensures OnlySuperseded(s.table, t.table, t.stream)
    decreases |acts|
  {
    hide Inv, Enabled, Apply, NoCollision, OnlySuperseded;
    if acts == [] {
      SupersededAcross(s.table, t.table, t.table, t.stream, t.stream);
    } else {
      var m := Apply(env, s, acts[0]);
      StepKeepsInv(env, s, acts[0]);
      RunKeepsInv(env, m, acts[1..], t);
      AdvancesTransitive(s.stream, m.stream, t.stream);
      SupersededAcross(s.table, m.table, t.table, s.stream, t.stream);
    }
  }

  lemma SupersededAcross(t: seq<Row>, m: seq<Row>, u: seq<Row>, earlier: Stream, later: Stream)
    requires earlier.entries <= later.entries && (t == m || OnlySuperseded(t, m, earlier))
    requires m == u || OnlySuperseded(m, u, later)
    ensures OnlySuperseded(t, u, later)
  {
    hide Supersedes;
    assert forall c :: Queued(earlier, c) ==> Queued(later, c);
  }

  lemma {:induction false} RunsConcat(env: Env, s: Pipe, a: seq<Action>, m: Pipe, b: seq<Action>, t: Pipe)
    requires Runs(env, s, a, m) && Runs(env, m, b, t)
    ensures Runs(env, s, a + b, t)
    decreases |a|
  {
    hide Enabled, Apply;
    if a == [] {
      assert a + b == b;
    } else {
      RunsConcat(env, Apply(env, s, a[0]), a[1..], m, b, t);
      assert (a + b)[1..] == a[1..] + b;
    }
  }

  lemma EmptyRun(env: Env, s: Pipe)
    ensures Runs(env, s, [], s)
  {
  }

  lemma RunOfOne(env: Env, s: Pipe, a: Action)
    requires Enabled(env, s, a)
    ensures Runs(env, s, [a], Apply(env, s, a))
  {
    hide Enabled, Apply;
    assert [a][1..] == [];
    assert Runs(env, Apply(env, s, a), [], Apply(env, s, a));
  }

  /** No acknowledged write is lost, from any state that earlier runs may have left: every acked entry is
      an admitted event that is not ephemeral, and its id is in the table or, its kind being replaceable,
      a queued event supersedes it and a strictly newer row of its author and kind is there. */
  lemma NoAckedWriteLost(env: Env, s: Pipe, acts: seq<Action>, t: Pipe, n: nat)
    requires NoCollision(env) && Inv(env, s) && Runs(env, s, acts, t) && n in Acked(t.stream)
    ensures n < |t.stream.entries| && t.stream.entries[n].EventJson?
    ensures var e := t.stream.entries[n].event;
      && Admitted(env, e) && !IsEphemeral(e)
      && (CategoryOf(e.kind) == Regular ==> HasId(t.table, e.id))
      && (HasId(t.table, e.id) || Displaced(t.table, t.stream, e))
  {
    RunKeepsInv(env, s, acts, t);
    var e := t.stream.entries[n].event;
    assert Queued(t.stream, e) && Settled(t.table, t.stream, e);
    if !HasId(t.table, e.id) {
      var c :| Queued(t.stream, c) && Supersedes(c, ToRow(e));
      if CategoryOf(e.kind) == Regular {
        RegularNotSuperseded(c, ToRow(e));
      }
    }
  }

  lemma RegularNotSuperseded(c: NostrEvent, r: Row)
    requires CategoryOf(ToU32(r.kind)) == Regular
    ensures !Supersedes(c, r)
  {
    hide JsonContains, CategoryOf;
    assert ToU32(ToI32(c.kind)) == c.kind;
  }

  /** A row of a regular kind stays for ever. */
  lemma RegularRowStays(env: Env, s: Pipe, acts: seq<Action>, t: Pipe, r: Row)
    requires NoCollision(env) && Inv(env, s) && Runs(env, s, acts, t)
    requires r in s.table && CategoryOf(ToU32(r.kind)) == Regular
    ensures r in t.table
  {
    hide Inv, NoCollision, Runs, CategoryOf;
    RunKeepsInv(env, s, acts, t);
    forall c ensures !Supersedes(c, r) {
      RegularNotSuperseded(c, r);
    }
  }

  /** Stream conservation: with a group, each entry ever added is in exactly one of skipped,
      undelivered, pending and acked. */
  lemma StreamConserved(env: Env, s: Pipe, acts: seq<Action>, t: Pipe, n: nat)
    requires NoCollision(env) && Inv(env, s) && Runs(env, s, acts, t)
    requires t.stream.group.Some? && n < |t.stream.entries|
    ensures var g := t.stream.group.value;
      var in1, in2, in3, in4 := n < g.start, g.next <= n, n in g.pending, n in g.acked;
      && (in1 || in2 || in3 || in4)
      && !(in1 && in2) && !(in1 && in3) && !(in1 && in4) && !(in2 && in3) && !(in2 && in4) && !(in3 && in4)
  {
    RunKeepsInv(env, s, acts, t);
    FatesPartition(t.stream, n);
  }

  /** In every reachable state, asking for one author and kind with limit 1 returns an event at
      least as new as every acknowledged event of that author and kind. */
  lemma NewestAckedServed(env: Env, s: Pipe, acts: seq<Action>, t: Pipe, n: nat, out: seq<Row>)
    requires NoCollision(env) && Inv(env, s) && Runs(env, s, acts, t) && n in Acked(t.stream)
    requires n < |t.stream.entries| && t.stream.entries[n].EventJson?
    requires var e := t.stream.entries[n].event; Sql.IsAnswer(t.table, Sql.NewestOf(e.pubkey, e.kind), 1, out)
    ensures |out| == 1 && out[0].createdAt >= t.stream.entries[n].event.createdAt
  {
    var e := t.stream.entries[n].event;
    RunKeepsInv(env, s, acts, t);
    assert Queued(t.stream, e) && Settled(t.table, t.stream, e);
    SettledReached(env, t, e);
    Sql.TopRowReaches(t.table, e.pubkey, e.kind, e.createdAt, out);
  }

  lemma SettledReached(env: Env, s: Pipe, e: NostrEvent)
    requires NoCollision(env) && QueueGated(env, s.stream) && TableGated(s)
    requires Queued(s.stream, e) && Settled(s.table, s.stream, e)
    ensures AtLeast(s.table, e.pubkey, ToI32(e.kind), e.createdAt)
  {
    if r :| r in s.table && r.id == e.id {
      RowOfQueued(env, s, e, r);
    }
  }

  // ---- an undisturbed transaction is the sequential store ----

  ghost predicate Alone(s: Pipe, w: nat) {
    forall v, id :: v in s.tasks && v != w ==> !Holds(s.tasks[v], id)
  }

  lemma FirstStatements(env: Env, s: Pipe, w: nat, e: NostrEvent, todo: seq<nat>)
    requires Enabled(env, s, Begin(w)) && e == Head(s, s.tasks[w]).value && todo == s.tasks[w].todo && Alone(s, w)
    ensures var s1 := SetTask(s, w, InTx(todo, e, Scanning(set r | r in s.table :: r.id)));
      var s2 := SetTask(s, w, InTx(todo, e, Deleted(SupersededIds(s.table, e))));
      && Apply(env, s, Begin(w)) == s1 && Enabled(env, s1, Delete(w)) && Apply(env, s1, Delete(w)) == s2
  {
    hide Holds, Supersedes, HasId;
    var visible := set r | r in s.table :: r.id;
    assert SupersededIds(s.table, e) * visible == SupersededIds(s.table, e);
  }

  lemma LastStatements(env: Env, s: Pipe, w: nat, e: NostrEvent, todo: seq<nat>, d: set<string>, reported: bool)
    requires w in s.tasks && Alone(s, w)
    ensures var s2 := SetTask(s, w, InTx(todo, e, Deleted(d)));
      var ins := !HasId(Without(s.table, d), e.id);
      var s3 := SetTask(s, w, InTx(todo, e, Inserted(d, ins)));
      var t := SetTask(s.(tasks := Unsee(s.tasks, d)), w, Stored(todo, reported)).(
        table := CommitTable(s.table, e, d, ins));
      && Enabled(env, s2, Insert(w)) && Apply(env, s2, Insert(w)) == s3
      && Enabled(env, s3, Commit(w, reported)) && Apply(env, s3, Commit(w, reported)) == t
  {
    hide Holds, HasId, Without, AfterHead, Blind;
    var s3 := SetTask(s, w, InTx(todo, e, Inserted(d, !HasId(Without(s.table, d), e.id))));
    assert Unsee(s3.tasks, d)[w := Stored(todo, reported)] == Unsee(s.tasks, d)[w := Stored(todo, reported)];
  }

  function Transaction(w: nat, reported: bool): seq<Action> {
    [Begin(w), Delete(w), Insert(w), Commit(w, reported)]
  }

  /** Statement by statement, with no other worker holding a lock, a transaction commits exactly `Store`. */
  lemma AloneTransactionIsStore(env: Env, s: Pipe, w: nat, reported: bool)
    requires Enabled(env, s, Begin(w)) && Alone(s, w)
    ensures var e, todo := Head(s, s.tasks[w]).value, s.tasks[w].todo;
      var seen := s.(tasks := Unsee(s.tasks, SupersededIds(s.table, e)));
      Runs(env, s, Transaction(w, reported), SetTask(seen, w, Stored(todo, reported)).(table := Store(s.table, e)))
  {
    hide Supersedes, Without, SupersededIds, HasId, Stored, Unsee;
    var e, todo := Head(s, s.tasks[w]).value, s.tasks[w].todo;
    var d := SupersededIds(s.table, e);
    FirstStatements(env, s, w, e, todo);
    LastStatements(env, s, w, e, todo, d, reported);
    var ins := !HasId(Without(s.table, d), e.id);
    var seen := s.(tasks := Unsee(s.tasks, d));
    var t := SetTask(seen, w, Stored(todo, reported)).(table := CommitTable(s.table, e, d, ins));
    assert Store(s.table, e) == CommitTable(s.table, e, d, ins);
    RunOfFour(env, s, Begin(w), Delete(w), Insert(w), Commit(w, reported), t);
  }

  lemma RunOfFour(env: Env, s: Pipe, a: Action, b: Action, c: Action, d: Action, t: Pipe)
    requires Enabled(env, s, a) && Enabled(env, Apply(env, s, a), b)
    requires Enabled(env, Apply(env, Apply(env, s, a), b), c)
    requires Enabled(env, Apply(env, Apply(env, Apply(env, s, a), b), c), d)
    requires t == Apply(env, Apply(env, Apply(env, Apply(env, s, a), b), c), d)
    ensures Runs(env, s, [a, b, c, d], t)
  {
    var s1 := Apply(env, s, a);
    var s2 := Apply(env, s1, b);
    var s3 := Apply(env, s2, c);
    assert [a, b, c, d][1..] == [b, c, d] && [b, c, d][1..] == [c, d] && [c, d][1..] == [d] && [d][1..] == [];
    assert Runs(env, t, [], t);
    assert Runs(env, s3, [d], t);
    assert Runs(env, s2, [c, d], t);
    assert Runs(env, s1, [b, c, d], t);
  }
}
