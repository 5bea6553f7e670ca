/** Why an entry is acked: over every run, the worker that acked it had stored that very entry and been
    told so (src/worker/mod.rs). */
module Acknowledgements {
  import opened Events
  import opened Table
  import opened Streams
  import opened Pipeline
  import opened PipelineRuns
  import opened Hands

  /** The states a run goes through. */
  ghost predicate Trace(env: Env, acts: seq<Action>, states: seq<Pipe>) {
    && |states| == |acts| + 1
    && forall k :: 0 <= k < |acts| ==>
         Enabled(env, states[k], acts[k]) && states[k + 1] == Apply(env, states[k], acts[k])
  }

  lemma {:induction false} TraceOf(env: Env, s: Pipe, acts: seq<Action>, t: Pipe) returns (states: seq<Pipe>)
    requires Runs(env, s, acts, t)
    ensures Trace(env, acts, states) && states[0] == s && states[|acts|] == t
    decreases |acts|
  {
    hide Enabled, Apply;
    if acts == [] {
      states := [s];
    } else {
      var m := Apply(env, s, acts[0]);
      var rest := TraceOf(env, m, acts[1..], t);
      states := [s] + rest;
      forall k | 0 <= k < |acts|
        ensures Enabled(env, states[k], acts[k]) && states[k + 1] == Apply(env, states[k], acts[k])
      {
        if k > 0 {
          assert acts[k] == acts[1..][k - 1] && states[k] == rest[k - 1];
        }
      }
    }
  }

  lemma {:induction false} TraceInv(env: Env, acts: seq<Action>, states: seq<Pipe>, k: nat)
    requires NoCollision(env) && Trace(env, acts, states) && k <= |acts| && Inv(env, states[0])
    ensures Inv(env, states[k])
    decreases k
  {
    hide Inv, Enabled, Apply, NoCollision;
    if k > 0 {
      TraceInv(env, acts, states, k - 1);
      StepKeepsInv(env, states[k - 1], acts[k - 1]);
    }
  }

  /** The step stores the event of entry `n`, which the worker has at hand, and the worker learns of it:
      after it the event's id is in the table, or something strictly newer that supersedes it. */
  ghost predicate StoresEntry(env: Env, s: Pipe, a: Action, w: nat, n: nat) {
    && AtHead(s, w, n) && n < |s.stream.entries| && s.stream.entries[n].EventJson? && Enabled(env, s, a)
    && (a == StoreRegular(w, true) || (a == Commit(w, true) && s.tasks[w].event == s.stream.entries[n].event))
    && Settled(Apply(env, s, a).table, s.stream, s.stream.entries[n].event)
  }

  /** A worker comes to the XACK only by such a store of the entry it has at hand. */
  lemma ComesToAck(env: Env, s: Pipe, a: Action, w: nat)
    requires NoCollision(env) && Inv(env, s) && Enabled(env, s, a)
    requires w in Apply(env, s, a).tasks && Apply(env, s, a).tasks[w].Acking? && !(w in s.tasks && s.tasks[w].Acking?)
    ensures Todo(Apply(env, s, a).tasks[w]) != [] && StoresEntry(env, s, a, w, Todo(Apply(env, s, a).tasks[w])[0])
  {
    hide NoCollision, HasId, CommitTable, InsertRow, Targets, FreeFor, Inv, Settled, TaskOk;
    var t := Apply(env, s, a);
    StepKeepsInv(env, s, a);
    StreamPart(env, s);
    HeadGated(env, s, w);
    AckingSettled(env, t, w);
    if a == Commit(w, true) {
      InTxAtHand(env, s, w);
    }
  }

  lemma AckingSettled(env: Env, s: Pipe, w: nat)
    requires Inv(env, s) && w in s.tasks && s.tasks[w].Acking?
    ensures var todo := s.tasks[w].todo;
      && todo != [] && todo[0] < |s.stream.entries| && s.stream.entries[todo[0]].EventJson?
      && Settled(s.table, s.stream, s.stream.entries[todo[0]].event)
  {
    hide Conserved, QueueGated, TableGated, LocksApart, AckedSettled, Settled;
    assert TaskOk(s.table, s.stream, s.tasks[w]);
  }

  lemma InTxAtHand(env: Env, s: Pipe, w: nat)
    requires Inv(env, s) && w in s.tasks && s.tasks[w].InTx?
    ensures AtHand(s.stream, s.tasks[w].todo, s.tasks[w].event)
  {
    hide Conserved, QueueGated, TableGated, LocksApart, AckedSettled, Settled;
    assert TaskOk(s.table, s.stream, s.tasks[w]);
  }

  /** A worker at the XACK stays there with the same entry until it takes it, or crashes. */
  lemma StaysAtAck(env: Env, s: Pipe, a: Action, w: nat)
    requires Enabled(env, s, a) && w in s.tasks && s.tasks[w].Acking?
    requires w in Apply(env, s, a).tasks && Apply(env, s, a).tasks[w].Acking?
    ensures Apply(env, s, a).tasks[w] == s.tasks[w]
  {
    hide HasId, CommitTable, InsertRow, Targets, FreeFor, Known, Head, HeadIs;
  }

  /** Only the XACK of the entry at hand acks it. */
  lemma BecomesAcked(env: Env, s: Pipe, a: Action, n: nat)
    requires Enabled(env, s, a) && n in Acked(Apply(env, s, a).stream) && n !in Acked(s.stream)
    ensures a.Ack? && a.applied && s.tasks[a.w].Acking? && AtHead(s, a.w, n)
  {
    hide HasId, CommitTable, InsertRow, Targets, FreeFor, Known, Head, HeadIs, Batch, Span, AfterHead;
  }

  /** A worker at the XACK has stored the entry it has at hand. */
  lemma {:induction false} StoredBefore(env: Env, acts: seq<Action>, states: seq<Pipe>, k: nat, w: nat) returns (i: nat)
    requires NoCollision(env) && Trace(env, acts, states) && k <= |acts| && Inv(env, states[0])
    requires forall v :: v in states[0].tasks ==> !states[0].tasks[v].Acking?
    requires w in states[k].tasks && states[k].tasks[w].Acking?
    ensures i < k && Todo(states[k].tasks[w]) != []
    ensures StoresEntry(env, states[i], acts[i], w, Todo(states[k].tasks[w])[0])
    decreases k
  {
    hide Inv, Enabled, Apply, NoCollision, StoresEntry;
    if w in states[k - 1].tasks && states[k - 1].tasks[w].Acking? {
      i := StoredBefore(env, acts, states, k - 1, w);
      StaysAtAck(env, states[k - 1], acts[k - 1], w);
    } else {
      TraceInv(env, acts, states, k - 1);
      ComesToAck(env, states[k - 1], acts[k - 1], w);
      i := k - 1;
    }
  }

  lemma {:induction false} AckedAt(env: Env, acts: seq<Action>, states: seq<Pipe>, k: nat, n: nat) returns (j: nat)
    requires Trace(env, acts, states) && k <= |acts| && n in Acked(states[k].stream) && n !in Acked(states[0].stream)
    ensures j < k && acts[j].Ack? && acts[j].applied && acts[j].w in states[j].tasks
    ensures states[j].tasks[acts[j].w].Acking? && AtHead(states[j], acts[j].w, n)
    decreases k
  {
    hide Enabled, Apply, Acked;
    if n in Acked(states[k - 1].stream) {
      j := AckedAt(env, acts, states, k - 1, n);
    } else {
      BecomesAcked(env, states[k - 1], acts[k - 1], n);
      j := k - 1;
    }
  }

  /** Over every run: an entry that became acked was stored at some step by some worker, which was told so,
      and acked by that worker at a later step with the entry at hand. */
  lemma AckFollowsStore(env: Env, s: Pipe, acts: seq<Action>, t: Pipe, n: nat)
    returns (states: seq<Pipe>, i: nat, j: nat, w: nat)
    requires NoCollision(env) && Inv(env, s) && Runs(env, s, acts, t)
    requires forall v :: v in s.tasks ==> !s.tasks[v].Acking?
    requires n in Acked(t.stream) && n !in Acked(s.stream)
    ensures Trace(env, acts, states) && states[0] == s && states[|acts|] == t
    ensures i < j < |acts| && StoresEntry(env, states[i], acts[i], w, n)
    ensures acts[j] == Ack(w, true) && AtHead(states[j], w, n)
  {
    hide Inv, Enabled, Apply, NoCollision, StoresEntry, Acked;
    states := TraceOf(env, s, acts, t);
    j := AckedAt(env, acts, states, |acts|, n);
    w := acts[j].w;
    i := StoredBefore(env, acts, states, j, w);
  }

  // ---- what became of an acknowledged write ----

  /** No worker has a transaction open or comes from a store. */
  ghost predicate BetweenEntries(s: Pipe) {
    forall v :: v in s.tasks ==> s.tasks[v].Reading? || s.tasks[v].Next?
  }

  lemma {:induction false} EntriesStay(env: Env, acts: seq<Action>, states: seq<Pipe>, i: nat, k: nat)
    requires NoCollision(env) && Trace(env, acts, states) && i <= k <= |acts| && Inv(env, states[0])
    ensures states[i].stream.entries <= states[k].stream.entries
    decreases k
  {
    hide Inv, Enabled, Apply, NoCollision, NewestKept, OnlySuperseded;
    if i < k {
      EntriesStay(env, acts, states, i, k - 1);
      TraceInv(env, acts, states, k - 1);
      StepKeepsInv(env, states[k - 1], acts[k - 1]);
    }
  }

  /** An INSERT that found the id there was taken while the id was in the table. */
  lemma {:induction false} FoundThere(env: Env, acts: seq<Action>, states: seq<Pipe>, k: nat, w: nat) returns (i: nat)
    requires NoCollision(env) && Trace(env, acts, states) && k <= |acts| && Inv(env, states[0]) &&
      BetweenEntries(states[0])
    requires w in states[k].tasks && states[k].tasks[w].InTx?
    requires states[k].tasks[w].tx.Inserted? && !states[k].tasks[w].tx.inserts
    ensures i < k && HasId(states[i].table, states[k].tasks[w].event.id)
    ensures Queued(states[i].stream, states[k].tasks[w].event)
    decreases k
  {
    hide Inv, Enabled, Apply, NoCollision, HasId;
    var a := acts[k - 1];
    if w in states[k - 1].tasks && states[k - 1].tasks[w] == states[k].tasks[w] {
      i := FoundThere(env, acts, states, k - 1, w);
    } else {
      FoundByInsert(env, states[k - 1], a, w);
      TraceInv(env, acts, states, k - 1);
      InTxAtHand(env, states[k - 1], w);
      i := k - 1;
    }
  }

  lemma FoundByInsert(env: Env, s: Pipe, a: Action, w: nat)
    requires Enabled(env, s, a) && w in Apply(env, s, a).tasks &&
      !(w in s.tasks && s.tasks[w] == Apply(env, s, a).tasks[w])
    requires Apply(env, s, a).tasks[w].InTx? && Apply(env, s, a).tasks[w].tx.Inserted?
    requires !Apply(env, s, a).tasks[w].tx.inserts
    ensures HasId(s.table, Apply(env, s, a).tasks[w].event.id)
    ensures w in s.tasks && s.tasks[w].InTx? && s.tasks[w].event == Apply(env, s, a).tasks[w].event
  {
    hide CommitTable, InsertRow, Targets, FreeFor, Known, Head, HeadIs, Batch;
    if a == Insert(w) {
      WithoutMeans(s.table, s.tasks[w].tx.dels);
    }
  }

  /** A store that was reported leaves the event's id in the table, or its INSERT had found it there. */
  lemma StoredOnce(env: Env, acts: seq<Action>, states: seq<Pipe>, k: nat, w: nat, n: nat) returns (i: nat)
    requires NoCollision(env) && Trace(env, acts, states) && k < |acts| && Inv(env, states[0]) &&
      BetweenEntries(states[0])
    requires StoresEntry(env, states[k], acts[k], w, n)
    ensures i <= k + 1 && HasId(states[i].table, states[k].stream.entries[n].event.id)
    ensures Queued(states[i].stream, states[k].stream.entries[n].event)
  {
    hide Inv, NoCollision, HasId, Settled, Known, FreeFor, Targets;
    var s := states[k];
    EntriesStay(env, acts, states, k, k + 1);
    assert s.stream.entries[n] == states[k + 1].stream.entries[n];
    if acts[k] == StoreRegular(w, true) {
      InsertLeavesId(s.table, s.stream.entries[n].event);
      i := k + 1;
    } else if s.tasks[w].tx.inserts {
      CommitLeavesId(s.table, s.tasks[w].event, s.tasks[w].tx.dels);
      i := k + 1;
    } else {
      i := FoundThere(env, acts, states, k, w);
    }
  }

  lemma InsertLeavesId(t: seq<Row>, e: NostrEvent)
    ensures HasId(InsertRow(t, ToRow(e)), e.id)
  {
    assert !HasId(t, e.id) ==> InsertRow(t, ToRow(e))[|t|] == ToRow(e);
  }

  lemma CommitLeavesId(t: seq<Row>, e: NostrEvent, dels: set<string>)
    ensures HasId(CommitTable(t, e, dels, true), e.id)
  {
    assert CommitTable(t, e, dels, true)[|Without(t, dels)|] == ToRow(e);
  }

  /** The step commits another event's transaction, which supersedes `e` and takes its row. */
  ghost predicate Supplants(env: Env, s: Pipe, a: Action, e: NostrEvent) {
    && a.Commit? && a.w in s.tasks && s.tasks[a.w].InTx? && Enabled(env, s, a)
    && Supersedes(s.tasks[a.w].event, ToRow(e))
    && HasId(s.table, e.id) && !HasId(Apply(env, s, a).table, e.id)
  }

  lemma SameBodySuperseded(c: NostrEvent, r: Row, e: NostrEvent)
    requires HasBodyOf(r, e) && Supersedes(c, r)
    ensures Supersedes(c, ToRow(e))
  {
  }

  lemma OnlyCommitTakes(env: Env, s: Pipe, a: Action, e: NostrEvent)
    requires NoCollision(env) && Inv(env, s) && Enabled(env, s, a) && Queued(s.stream, e)
    requires HasId(s.table, e.id) && !HasId(Apply(env, s, a).table, e.id)
    ensures Supplants(env, s, a, e)
  {
    hide NoCollision, Known, FreeFor, Targets, Head, HeadIs, Batch, Supersedes, Settled, Conserved, QueueGated,
      LocksApart, AckedSettled;
    var r :| r in s.table && r.id == e.id;
    forall q ensures HasId(InsertRow(s.table, q), e.id) {
      assert r in s.table + [q];
    }
    if a.Commit? {
      var k := s.tasks[a.w];
      assert TaskOk(s.table, s.stream, k);
      CommitTableMeans(s.table, k.event, k.tx.dels, k.tx.inserts);
      assert r !in Apply(env, s, a).table;
      RowOfQueued(env, s, e, r);
      SameBodySuperseded(k.event, r, e);
    }
  }

  lemma {:induction false} TakenBetween(env: Env, acts: seq<Action>, states: seq<Pipe>, i: nat, k: nat, e: NostrEvent)
    returns (j: nat)
    requires NoCollision(env) && Trace(env, acts, states) && i <= k <= |acts| && Inv(env, states[0])
    requires Queued(states[i].stream, e) && HasId(states[i].table, e.id) && !HasId(states[k].table, e.id)
    ensures i <= j < k && Supplants(env, states[j], acts[j], e)
    decreases k
  {
    hide Inv, Enabled, Apply, NoCollision, HasId, Supplants;
    if HasId(states[k - 1].table, e.id) {
      TraceInv(env, acts, states, k - 1);
      EntriesStay(env, acts, states, i, k - 1);
      OnlyCommitTakes(env, states[k - 1], acts[k - 1], e);
      j := k - 1;
    } else {
      j := TakenBetween(env, acts, states, i, k - 1, e);
    }
  }

  /** What became of an acknowledged write, whatever its tags: it was in the table, and it is there still or
      the transaction of a later event that supersedes it took it away. */
  lemma AckedWriteFate(env: Env, s: Pipe, acts: seq<Action>, t: Pipe, n: nat)
    returns (states: seq<Pipe>, i: nat, j: nat)
    requires NoCollision(env) && Inv(env, s) && Runs(env, s, acts, t) && BetweenEntries(s)
    requires n in Acked(t.stream) && n !in Acked(s.stream)
    ensures Trace(env, acts, states) && states[0] == s && states[|acts|] == t
    ensures n < |t.stream.entries| && t.stream.entries[n].EventJson? && i <= |acts|
    ensures var e := t.stream.entries[n].event;
      HasId(states[i].table, e.id) && (HasId(t.table, e.id) ||
        (i <= j < |acts| && Supplants(env, states[j], acts[j], e)))
  {
    hide Inv, Enabled, Apply, NoCollision, HasId, Supplants, Acked, Settled;
    var k, a, w;
    states, k, a, w := AckFollowsStore(env, s, acts, t, n);
    var e := states[k].stream.entries[n].event;
    EntriesStay(env, acts, states, k, |acts|);
    i := StoredOnce(env, acts, states, k, w, n);
    j := 0;
    if !HasId(t.table, e.id) {
      j := TakenBetween(env, acts, states, i, |acts|, e);
    }
  }
}
