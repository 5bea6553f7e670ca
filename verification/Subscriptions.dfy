/** The in-memory subscription manager (src/subscription/mod.rs): a nested map from client
    to subscription id, and the flat map it stands for. */
module Subscriptions {
  import opened Base
  import opened Events
  import opened Filters

  datatype Subscription = Subscription(id: string, filters: seq<Filter>)

  type SubMap = map<string, map<string, Subscription>>

  /** A client and one of its subscriptions. */
  type Pair = (string, string)

  type FlatMap = map<Pair, seq<Filter>>

  // ---- what the operations do to the nested map ----

  function SubsOf(m: SubMap, client: string): map<string, Subscription> {
    if client in m then m[client] else map[]
  }

  function AddSub(m: SubMap, client: string, sub: string, filters: seq<Filter>): SubMap {
    m[client := SubsOf(m, client)[sub := Subscription(sub, filters)]]
  }

  function RemoveSub(m: SubMap, client: string, sub: string): SubMap {
    if client in m then m[client := m[client] - {sub}] else m
  }

  function RemoveClient(m: SubMap, client: string): SubMap {
    m - {client}
  }

  // ---- the flat map ----

  predicate Has(m: SubMap, p: Pair) {
    p.0 in m && p.1 in m[p.0]
  }

  function FiltersOf(m: SubMap, p: Pair): seq<Filter>
    requires Has(m, p)
  {
    m[p.0][p.1].filters
  }

  function Pairs(m: SubMap): set<Pair> {
    set client, sub | client in m && sub in m[client] :: (client, sub)
  }

  function Flat(m: SubMap): FlatMap {
    map p | p in Pairs(m) :: m[p.0][p.1].filters
  }

  predicate MatchesPair(m: SubMap, p: Pair, e: NostrEvent) {
    Has(m, p) && MatchesAny(FiltersOf(m, p), e)
  }

  lemma FlatMeans(m: SubMap)
    ensures forall p :: p in Flat(m) <==> Has(m, p)
    ensures forall p :: p in Flat(m) ==> Flat(m)[p] == FiltersOf(m, p)
  {
    forall p: Pair ensures p in Pairs(m) <==> Has(m, p) {
      if Has(m, p) {
        assert p == (p.0, p.1);
      }
    }
  }

  lemma FlatEqual(m: SubMap, f: FlatMap)
    requires forall p :: p in f <==> Has(m, p)
    requires forall p :: p in f ==> f[p] == FiltersOf(m, p)
    ensures Flat(m) == f
  {
    FlatMeans(m);
    assert Flat(m).Keys == f.Keys;
  }

  lemma AddRefines(m: SubMap, client: string, sub: string, filters: seq<Filter>)
    ensures Flat(AddSub(m, client, sub, filters)) == Flat(m)[(client, sub) := filters]
  {
    FlatMeans(m);
    FlatEqual(AddSub(m, client, sub, filters), Flat(m)[(client, sub) := filters]);
  }

  lemma RemoveRefines(m: SubMap, client: string, sub: string)
    ensures Flat(RemoveSub(m, client, sub)) == Flat(m) - {(client, sub)}
  {
    FlatMeans(m);
    FlatEqual(RemoveSub(m, client, sub), Flat(m) - {(client, sub)});
  }

  function OfClient(f: FlatMap, client: string): set<Pair> {
    set p | p in f && p.0 == client
  }

  lemma RemoveClientRefines(m: SubMap, client: string)
    ensures Flat(RemoveClient(m, client)) == Flat(m) - OfClient(Flat(m), client)
  {
    FlatMeans(m);
    FlatEqual(RemoveClient(m, client), Flat(m) - OfClient(Flat(m), client));
  }

  /** One call on the manager. */
  datatype Op =
    | Add(client: string, sub: string, filters: seq<Filter>)
    | Remove(client: string, sub: string)
    | Disconnect(client: string)

  function RunNested(ops: seq<Op>): SubMap {
    if ops == [] then map[] else
    var m := RunNested(ops[..|ops| - 1]);
    match ops[|ops| - 1]
    case Add(c, s, fs) => AddSub(m, c, s, fs)
    case Remove(c, s) => RemoveSub(m, c, s)
    case Disconnect(c) => RemoveClient(m, c)
  }

  /** The same calls on a flat map. */
  function RunFlat(ops: seq<Op>): FlatMap {
    if ops == [] then map[] else
    var f := RunFlat(ops[..|ops| - 1]);
    match ops[|ops| - 1]
    case Add(c, s, fs) => f[(c, s) := fs]
    case Remove(c, s) => f - {(c, s)}
    case Disconnect(c) => f - OfClient(f, c)
  }

  /** The nested map refines the flat one for every sequence of calls, empty inner maps and all. */
  lemma {:induction false} NestedRefinesFlat(ops: seq<Op>)
    ensures Flat(RunNested(ops)) == RunFlat(ops)
  {
    if ops == [] {
      FlatEqual(map[], map[]);
    } else {
      var rest := ops[..|ops| - 1];
      NestedRefinesFlat(rest);
      match ops[|ops| - 1]
      case Add(c, s, fs) => AddRefines(RunNested(rest), c, s, fs);
      case Remove(c, s) => RemoveRefines(RunNested(rest), c, s);
      case Disconnect(c) => RemoveClientRefines(RunNested(rest), c);
    }
  }

  /** Enlarging a subscription keeps every pair that matched. */
  lemma AddingFiltersKeepsPairs(m: SubMap, client: string, sub: string, more: seq<Filter>, e: NostrEvent, p: Pair)
    requires MatchesPair(m, p, e)
    requires Has(m, (client, sub)) ==> FiltersOf(m, (client, sub)) <= more
    ensures MatchesPair(AddSub(m, client, sub, more), p, e)
  {
    if p == (client, sub) {
      var f :| f in FiltersOf(m, p) && Matches(f, e);
      assert f in more;
    }
  }

  // ---- counting ----

  function SizeOf(m: SubMap, clients: set<string>): set<Pair>
    requires clients <= m.Keys
  {
    set client, sub | client in clients && sub in m[client] :: (client, sub)
  }

  lemma SizeStep(m: SubMap, clients: set<string>, client: string)
    requires clients <= m.Keys && client in m && client !in clients
    ensures |SizeOf(m, clients + {client})| == |SizeOf(m, clients)| + |m[client]|
  {
    var row := set sub | sub in m[client] :: (client, sub);
    RowSize(m[client].Keys, client);
    assert row == set sub | sub in m[client].Keys :: (client, sub);
    assert SizeOf(m, clients + {client}) == SizeOf(m, clients) + row;
    assert SizeOf(m, clients) !! row;
  }

  lemma {:induction false} RowSize(subs: set<string>, client: string)
    ensures |set sub | sub in subs :: (client, sub)| == |subs|
  {
    if subs != {} {
      var s :| s in subs;
      RowSize(subs - {s}, client);
      assert (set sub | sub in subs :: (client, sub)) == (set sub | sub in subs - {s} :: (client, sub)) + {(client, s)};
    }
  }

  class SubscriptionManager {
    var subs: SubMap

    constructor ()
      ensures subs == map[]
    {
      subs := map[];
    }

    /** Every subscription is filed under its own id. */
    ghost predicate Valid()
      reads this
    {
      forall c, s :: c in subs && s in subs[c] ==> subs[c][s].id == s
    }

    method AddSubscription(client: string, sub: string, filters: seq<Filter>)
      requires Valid()
      modifies this
      ensures Valid() && subs == AddSub(old(subs), client, sub, filters)
      ensures Flat(subs) == old(Flat(subs))[(client, sub) := filters]
    {
      hide Flat;
      AddRefines(subs, client, sub, filters);
      if client !in subs {
        subs := subs[client := map[]];
      }
      subs := subs[client := subs[client][sub := Subscription(sub, filters)]];
    }

    method RemoveSubscription(client: string, sub: string)
      requires Valid()
      modifies this
      ensures Valid() && subs == RemoveSub(old(subs), client, sub)
      ensures Flat(subs) == old(Flat(subs)) - {(client, sub)}
    {
      hide Flat;
      RemoveRefines(subs, client, sub);
      if client in subs {
        subs := subs[client := subs[client] - {sub}];
      }
    }

    method RemoveAll(client: string)
      requires Valid()
      modifies this
      ensures Valid() && subs == RemoveClient(old(subs), client)
      ensures Flat(subs) == old(Flat(subs)) - OfClient(old(Flat(subs)), client)
    {
      hide Flat, OfClient;
      RemoveClientRefines(subs, client);
      subs := subs - {client};
    }

    /** Exactly the matching pairs, each once, whatever order the two maps are walked in. */
    method MatchingClients(e: NostrEvent) returns (results: seq<Pair>)
      ensures Distinct(results)
      ensures forall p :: p in results <==> MatchesPair(subs, p, e)
    {
      results := [];
      var clients := subs.Keys;
      while clients != {}
        invariant clients <= subs.Keys && Distinct(results)
        invariant forall p :: p in results <==> p.0 !in clients && MatchesPair(subs, p, e)
        decreases clients
      {
        var c :| c in clients;
        var inner := subs[c].Keys;
        while inner != {}
          invariant inner <= subs[c].Keys && Distinct(results)
          invariant forall p :: p in results <==>
                      (p.0 !in clients || (p.0 == c && p.1 !in inner)) && MatchesPair(subs, p, e)
          decreases inner
        {
          var s :| s in inner;
          if MatchesAny(subs[c][s].filters, e) {
            assert (c, s) !in results;
            DistinctAppend(results, (c, s));
            results := results + [(c, s)];
          }
          inner := inner - {s};
        }
        clients := clients - {c};
      }
    }

    /** The subscriptions of one client, each once. */
    method ClientSubscriptions(client: string) returns (list: seq<Subscription>)
      requires Valid()
      ensures |list| == |SubsOf(subs, client)|
      ensures forall s :: s in list <==> s in SubsOf(subs, client).Values
    {
      list := [];
      var own := SubsOf(subs, client);
      var todo := own.Keys;
      while todo != {}
        invariant todo <= own.Keys
        invariant |list| + |todo| == |own.Keys|
        invariant forall s :: s in list <==> exists k :: k in own && k !in todo && own[k] == s
        decreases todo
      {
        var k :| k in todo;
        list := list + [own[k]];
        todo := todo - {k};
      }
    }

    /** The total count is the size of the flat map. */
    method TotalCount() returns (n: nat)
      ensures n == |Flat(subs)|
    {
      n := 0;
      var todo := subs.Keys;
      ghost var done: set<string> := {};
      while todo != {}
        invariant todo <= subs.Keys && done == subs.Keys - todo
        invariant n == |SizeOf(subs, done)|
        decreases todo
      {
        var c :| c in todo;
        SizeStep(subs, done, c);
        n := n + |subs[c]|;
        done := done + {c};
        todo := todo - {c};
      }
      assert done == subs.Keys;
      assert SizeOf(subs, subs.Keys) == Pairs(subs);
      assert Flat(subs).Keys == Pairs(subs);
      assert |Flat(subs)| == |Flat(subs).Keys|;
    }
  }
}
