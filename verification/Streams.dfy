/** The Redis write stream and its consumer group (src/storage/redis.rs). */
module Streams {
  import opened Base
  import opened Events

  /** A stream entry: an `event` field holding an event's JSON or other text, or no such field. */
  datatype Payload = EventJson(event: NostrEvent) | OtherJson | NoEventField

  /** The group was created when `start` entries were there; entries from `next` on are undelivered. */
  datatype Group = Group(start: nat, next: nat, pending: set<nat>, acked: set<nat>)

  datatype Stream = Stream(entries: seq<Payload>, group: Option<Group>)

  const EMPTY_STREAM := Stream([], None)

  function Xadd(s: Stream, p: Payload): Stream {
    s.(entries := s.entries + [p])
  }

  /** `XGROUP CREATE key group $ MKSTREAM`; BUSYGROUP leaves things as they are. */
  function CreateGroup(s: Stream): Stream {
    if s.group.Some? then s else s.(group := Some(Group(|s.entries|, |s.entries|, {}, {})))
  }

  function Min(a: nat, b: nat): nat {
    if a < b then a else b
  }

  function BatchEnd(s: Stream, count: nat): nat
    requires s.group.Some?
  {
    Min(s.group.value.next + count, |s.entries|)
  }

  /** `XREADGROUP ... >` moves the next entries to the pending list. */
  function ReadGroup(s: Stream, count: nat): Stream {
    match s.group
    case None => s
    case Some(g) =>
      s.(group := Some(g.(next := BatchEnd(s, count), pending := g.pending + Span(g.next, BatchEnd(s, count)))))
  }

  /** The indices from `from` up to `to`. */
  function Span(from: nat, to: nat): (s: set<nat>)
    ensures forall n :: n in s <==> from <= n < to
  {
    if to <= from then {} else Span(from, to - 1) + {to - 1}
  }

  /** What the caller of `read_stream` gets: the delivered entries that carry an `event` field. */
  function Batch(entries: seq<Payload>, from: nat, to: nat): seq<nat>
    requires to <= |entries|
    decreases if from < to then to - from else 0
  {
    if from >= to then []
    else if entries[from].NoEventField? then Batch(entries, from + 1, to)
    else [from] + Batch(entries, from + 1, to)
  }

  lemma {:induction false} BatchMeans(entries: seq<Payload>, from: nat, to: nat)
    requires to <= |entries|
    ensures forall n :: n in Batch(entries, from, to) <==> from <= n < to && !entries[n].NoEventField?
    ensures from <= to ==> |Batch(entries, from, to)| <= to - from
    decreases if from < to then to - from else 0
  {
    if from < to {
      BatchMeans(entries, from + 1, to);
    }
  }

  /** What a read delivers: the next undelivered entries, `count` of them if there are as many, become pending, and
      nothing else moves; of those the caller gets the ones with an `event` field, in order. */
  ghost predicate Delivers(s: Stream, t: Stream, count: nat, got: seq<nat>) {
    && s.group.Some? && t.group.Some? && t.entries == s.entries
    && t.group.value.start == s.group.value.start && t.group.value.acked == s.group.value.acked
    && (var first, end := s.group.value.next, |s.entries|;
        && t.group.value.next == (if first + count <= end then first + count else end)
        && (forall n :: n in t.group.value.pending <==>
              n in s.group.value.pending || (first <= n < end && n < first + count))
        && |got| <= count
        && (forall n :: n in got <==> first <= n < end && n < first + count && !s.entries[n].NoEventField?)
        && (forall i, j :: 0 <= i < j < |got| ==> got[i] < got[j]))
  }

  lemma ReadDelivers(s: Stream, count: nat)
    requires Conserved(s) && s.group.Some?
    ensures Delivers(s, ReadGroup(s, count), count, Batch(s.entries, s.group.value.next, BatchEnd(s, count)))
  {
    var first, upTo := s.group.value.next, BatchEnd(s, count);
    BatchMeans(s.entries, first, upTo);
    BatchIncreases(s.entries, first, upTo);
  }

  lemma {:induction false} BatchIncreases(entries: seq<Payload>, from: nat, to: nat)
    requires to <= |entries|
    ensures Increases(Batch(entries, from, to), from, to)
    decreases if from < to then to - from else 0
  {
    if from < to {
      BatchIncreases(entries, from + 1, to);
      var rest := Batch(entries, from + 1, to);
      if !entries[from].NoEventField? {
        assert Batch(entries, from, to) == [from] + rest;
      }
    }
  }

  ghost predicate Increases(b: seq<nat>, from: nat, to: nat) {
    && (forall j :: 0 <= j < |b| ==> from <= b[j] < to)
    && (forall i, j :: 0 <= i < j < |b| ==> b[i] < b[j])
  }

  /** `XACK` removes an entry from the pending list, if it is there. */
  function Xack(s: Stream, n: nat): Stream {
    match s.group
    case None => s
    case Some(g) =>
      if n in g.pending then s.(group := Some(g.(pending := g.pending - {n}, acked := g.acked + {n}))) else s
  }

  function Acked(s: Stream): set<nat> {
    match s.group case Some(g) => g.acked case None => {}
  }

  // ---- conservation ----

  datatype Fate = Ungrouped | Skipped | Undelivered | Pending | Done

  function FateOf(s: Stream, n: nat): Fate {
    match s.group
    case None => Ungrouped
    case Some(g) =>
      if n < g.start then Skipped
      else if n >= g.next then Undelivered
      else if n in g.acked then Done
      else Pending
  }

  /** With a group, skipped, undelivered, pending and acked entries partition the stream. */
  ghost predicate Conserved(s: Stream) {
    s.group.Some? ==>
      var g := s.group.value;
      && g.start <= g.next <= |s.entries|
      && g.pending !! g.acked
      && g.pending + g.acked == Span(g.start, g.next)
  }

  predicate Forward(a: Fate, b: Fate) {
    || a == b
    || (a == Ungrouped && b == Skipped)
    || (a == Undelivered && (b == Pending || b == Done))
    || (a == Pending && b == Done)
  }

  /** Entries are only appended, and none of them moves backwards. */
  ghost predicate Advances(s: Stream, t: Stream) {
    && s.entries <= t.entries
    && forall n :: 0 <= n < |s.entries| ==> Forward(FateOf(s, n), FateOf(t, n))
  }

  lemma AdvancesTransitive(s: Stream, t: Stream, u: Stream)
    requires Advances(s, t) && Advances(t, u)
    ensures Advances(s, u)
  {
  }

  /** Every operation conserves the entries and moves them only forward; only the
      acknowledgement of a pending entry makes it acked. */
  lemma OperationsConserve(s: Stream, p: Payload, count: nat, n: nat)
    requires Conserved(s)
    ensures Conserved(Xadd(s, p)) && Advances(s, Xadd(s, p)) && Acked(Xadd(s, p)) == Acked(s)
    ensures Conserved(CreateGroup(s)) && Advances(s, CreateGroup(s)) && Acked(CreateGroup(s)) == Acked(s)
    ensures Conserved(ReadGroup(s, count)) && Advances(s, ReadGroup(s, count)) && Acked(ReadGroup(s, count)) == Acked(s)
    ensures Conserved(Xack(s, n)) && Advances(s, Xack(s, n))
    ensures Acked(Xack(s, n)) == Acked(s) + (if s.group.Some? && n in s.group.value.pending then {n} else {})
  {
    AddConserves(s, p);
    ReadConserves(s, count);
    AckConserves(s, n);
  }

  lemma AddConserves(s: Stream, p: Payload)
    requires Conserved(s)
    ensures Conserved(Xadd(s, p)) && Advances(s, Xadd(s, p))
  {
  }

  lemma ReadConserves(s: Stream, count: nat)
    requires Conserved(s)
    ensures Conserved(ReadGroup(s, count)) && Advances(s, ReadGroup(s, count))
  {
  }

  lemma AckConserves(s: Stream, n: nat)
    requires Conserved(s)
    ensures Conserved(Xack(s, n)) && Advances(s, Xack(s, n))
  {
    if s.group.Some? {
      var g := s.group.value;
      assert forall m :: m in g.pending + g.acked <==> m in Span(g.start, g.next);
    }
  }

  /** The four fates as sets: pairwise disjoint, and together the whole stream. */
  lemma FatesPartition(s: Stream, n: nat)
    requires Conserved(s) && s.group.Some? && n < |s.entries|
    ensures var g := s.group.value;
      && (FateOf(s, n) == Skipped <==> n < g.start)
      && (FateOf(s, n) == Undelivered <==> g.next <= n)
      && (FateOf(s, n) == Pending <==> n in g.pending)
      && (FateOf(s, n) == Done <==> n in g.acked)
  {
    var g := s.group.value;
    assert n in g.pending + g.acked <==> n in Span(g.start, g.next);
  }

  // ---- the store object ----

  class RedisStore {
    var stream: Stream

    constructor ()
      ensures stream == EMPTY_STREAM
    {
      stream := EMPTY_STREAM;
    }

    method EnqueueEvent(e: NostrEvent, fault: Fault) returns (r: Result<nat, ()>)
      modifies this
      ensures stream == if fault.Fails? then old(stream) else Xadd(old(stream), EventJson(e))
      ensures !fault.Fails? ==>
        stream.entries == old(stream).entries + [EventJson(e)] && stream.group == old(stream).group
      ensures r == if fault.Works? then Ok(|old(stream).entries|) else Err(())
    {
      if fault.Fails? {
        return Err(());
      }
      var id := |stream.entries|;
      stream := stream.(entries := stream.entries + [EventJson(e)]);
      r := if fault.ReplyLost? then Err(()) else Ok(id);
    }

    method EnsureConsumerGroup(fault: Fault) returns (r: Result<(), ()>)
      modifies this
      ensures stream == if fault.Fails? then old(stream) else CreateGroup(old(stream))
      ensures r.Ok? <==> fault.Works?
    {
      if !fault.Fails? && stream.group.None? {
        stream := stream.(group := Some(Group(|stream.entries|, |stream.entries|, {}, {})));
      }
      r := if fault.Works? then Ok(()) else Err(());
    }

    /** Delivers at most `count` new entries and returns those with an `event` field; without a group
        the command errs. Entries without the field stay pending. */
    method ReadStream(count: nat, fault: Fault) returns (r: Result<seq<nat>, ()>)
      requires Conserved(stream)
      modifies this
      ensures Conserved(stream) && stream.entries == old(stream).entries
      ensures stream == if fault.Fails? then old(stream) else ReadGroup(old(stream), count)
      ensures r.Ok? <==> fault.Works? && old(stream).group.Some?
      ensures fault.Fails? || old(stream).group.None? ==> stream == old(stream)
      ensures r.Ok? ==> Delivers(old(stream), stream, count, r.value)
      ensures fault.ReplyLost? && old(stream).group.Some? ==> exists got :: Delivers(old(stream), stream, count, got)
      ensures r.Ok? ==>
        r.value == Batch(stream.entries, old(stream).group.value.next, BatchEnd(old(stream), count))
    {
      hide Delivers, Span;
      if fault.Fails? || stream.group.None? {
        return Err(());
      }
      ReadConserves(stream, count);
      ReadDelivers(stream, count);
      var g := stream.group.value;
      var upTo := BatchEnd(stream, count);
      stream := stream.(group := Some(g.(next := upTo, pending := g.pending + Span(g.next, upTo))));
      if fault.ReplyLost? {
        return Err(());
      }
      var results: seq<nat> := [];
      var n := g.next;
      while n < upTo
        invariant g.next <= n <= upTo <= |stream.entries|
        invariant results + Batch(stream.entries, n, upTo) == Batch(stream.entries, g.next, upTo)
      {
        if !stream.entries[n].NoEventField? {
          results := results + [n];
        }
        n := n + 1;
      }
      assert results == Batch(stream.entries, g.next, upTo);
      r := Ok(results);
    }

    method AckStream(n: nat, fault: Fault) returns (r: Result<(), ()>)
      modifies this
      ensures stream == if fault.Fails? then old(stream) else Xack(old(stream), n)
      ensures r.Ok? <==> fault.Works?
    {
      if !fault.Fails? && stream.group.Some? {
        var g := stream.group.value;
        if n in g.pending {
          stream := stream.(group := Some(g.(pending := g.pending - {n}, acked := g.acked + {n})));
        }
      }
      r := if fault.Works? then Ok(()) else Err(());
    }
  }
}
