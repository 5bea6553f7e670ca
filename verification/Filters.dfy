/** NIP-01 filters: the live matcher (src/subscription/mod.rs). */
module Filters {
  import opened Base
  import opened Events

  datatype Filter = Filter(
    ids: Option<seq<string>>,
    authors: Option<seq<string>>,
    kinds: Option<seq<U32>>,
    since: Option<I64>,
    until: Option<I64>,
    limit: Option<nat>,
    tags: map<string, seq<string>>)

  /** `trim_start_matches('#')`. */
  function TrimHashes(s: string): string {
    if s != "" && s[0] == '#' then TrimHashes(s[1..]) else s
  }

  /** The tag name a filter key constrains: one byte once its leading hashes are gone. */
  predicate Constrains(key: string) {
    Utf8Len(TrimHashes(key)) == 1
  }

  predicate AnyPrefix(prefixes: seq<string>, s: string) {
    exists p :: p in prefixes && p <= s
  }

  /** Some tag of that name has one of the values in its second place. */
  predicate HasTagValue(tags: Tags, name: string, values: seq<string>) {
    exists t :: t in tags && |t| > 1 && t[0] == name && t[1] in values
  }

  predicate MatchesIds(f: Filter, e: NostrEvent) {
    f.ids.Some? ==> AnyPrefix(f.ids.value, e.id)
  }

  predicate MatchesAuthors(f: Filter, e: NostrEvent) {
    f.authors.Some? ==> AnyPrefix(f.authors.value, e.pubkey)
  }

  predicate MatchesKinds(f: Filter, e: NostrEvent) {
    f.kinds.Some? ==> e.kind in f.kinds.value
  }

  predicate MatchesTimes(f: Filter, e: NostrEvent) {
    && (f.since.Some? ==> f.since.value <= e.createdAt)
    && (f.until.Some? ==> e.createdAt <= f.until.value)
  }

  predicate MatchesTags(f: Filter, e: NostrEvent) {
    forall key :: key in f.tags && Constrains(key) ==> HasTagValue(e.tags, TrimHashes(key), f.tags[key])
  }

  /** The declarative meaning of a filter: every given constraint holds. */
  predicate Matches(f: Filter, e: NostrEvent) {
    && MatchesIds(f, e)
    && MatchesAuthors(f, e)
    && MatchesKinds(f, e)
    && MatchesTimes(f, e)
    && MatchesTags(f, e)
  }

  predicate MatchesAny(filters: seq<Filter>, e: NostrEvent) {
    exists f :: f in filters && Matches(f, e)
  }

  /** The values in second place of the tags named `name`, in order. */
  method TagValues(tags: Tags, name: string) returns (values: seq<string>)
    ensures forall v :: v in values <==> exists t :: t in tags && |t| > 1 && t[0] == name && t[1] == v
  {
    values := [];
    for i := 0 to |tags|
      invariant forall v :: v in values <==> exists t :: t in tags[..i] && |t| > 1 && t[0] == name && t[1] == v
    {
      ghost var before := values;
      assert tags[..i + 1] == tags[..i] + [tags[i]];
      if |tags[i]| > 0 && tags[i][0] == name && |tags[i]| > 1 {
        values := values + [tags[i][1]];
      }
      forall v ensures v in values <==> exists t :: t in tags[..i + 1] && |t| > 1 && t[0] == name && t[1] == v {
        if v in values && v !in before {
          assert tags[i] in tags[..i + 1];
        }
      }
    }
    assert tags[..|tags|] == tags;
  }

  /** `Filter::matches` with its early exits, walking the tag map in whatever order it comes. */
  method FilterMatches(f: Filter, e: NostrEvent) returns (matched: bool)
    ensures matched == Matches(f, e)
  {
    if f.ids.Some? && !AnyPrefix(f.ids.value, e.id) {
      return false;
    }
    if f.authors.Some? && !AnyPrefix(f.authors.value, e.pubkey) {
      return false;
    }
    if f.kinds.Some? && e.kind !in f.kinds.value {
      return false;
    }
    if f.since.Some? && e.createdAt < f.since.value {
      return false;
    }
    if f.until.Some? && e.createdAt > f.until.value {
      return false;
    }
    var todo := f.tags.Keys;
    while todo != {}
      invariant todo <= f.tags.Keys
      invariant forall key :: key in f.tags && key !in todo && Constrains(key)
                  ==> HasTagValue(e.tags, TrimHashes(key), f.tags[key])
      decreases todo
    {
      var key :| key in todo;
      todo := todo - {key};
      var name := TrimHashes(key);
      if Utf8Len(name) != 1 {
        continue;
      }
      var values := TagValues(e.tags, name);
      if !exists v :: v in f.tags[key] && v in values {
        return false;
      }
    }
    return true;
  }

  // ---- what matching means, on the filter and the event alone ----

  function Hashes(n: nat): string {
    seq(n, _ => '#')
  }

  /** What is left of a key is what stands after its longest run of hashes. */
  lemma {:induction false} TrimmedKey(n: nat, name: string)
    requires name == "" || name[0] != '#'
    ensures TrimHashes(Hashes(n) + name) == name
  {
    if n == 0 {
      assert Hashes(0) + name == name;
    } else {
      TrimmedKey(n - 1, name);
      assert (Hashes(n) + name)[1..] == Hashes(n - 1) + name;
    }
  }

  lemma {:induction false} KeySplits(key: string) returns (n: nat, name: string)
    ensures key == Hashes(n) + name && (name == "" || name[0] != '#')
  {
    if key != "" && key[0] == '#' {
      n, name := KeySplits(key[1..]);
      n := n + 1;
      assert Hashes(n) == ['#'] + Hashes(n - 1) && key == [key[0]] + key[1..];
    } else {
      n, name := 0, key;
      assert Hashes(0) + name == key;
    }
  }

  /** One byte is one character below U+0080. */
  lemma OneByte(name: string)
    ensures Utf8Len(name) == 1 <==> |name| == 1 && name[0] as int < 0x80
  {
    Utf8LenBounds(name);
    if |name| == 1 {
      assert name[1..] == "" && Utf8Len("") == 0;
    }
  }

  /** Some tag of the event starts with the name and a listed value. */
  ghost predicate TagListed(e: NostrEvent, name: string, values: seq<string>) {
    exists t, v :: t in e.tags && v in values && [name, v] <= t
  }

  lemma TagListedMeans(e: NostrEvent, name: string, values: seq<string>)
    ensures HasTagValue(e.tags, name, values) <==> TagListed(e, name, values)
  {
    if t :| t in e.tags && |t| > 1 && t[0] == name && t[1] in values {
      assert [name, t[1]] <= t;
    }
    if t, v :| t in e.tags && v in values && [name, v] <= t {
      assert t[0] == [name, v][0] && t[1] == [name, v][1];
    }
  }

  /** A filter matches exactly the events with a listed prefix of the id and of the author, a listed kind, a time
      in its interval, and for each of its keys that is hashes and one ASCII character a tag that starts with
      that character and a listed value; other keys ask for nothing. */
  lemma MatchesMeans(f: Filter, e: NostrEvent)
    ensures Matches(f, e) <==>
      && (f.ids.Some? ==> exists p :: p in f.ids.value && p <= e.id)
      && (f.authors.Some? ==> exists p :: p in f.authors.value && p <= e.pubkey)
      && (f.kinds.Some? ==> e.kind in f.kinds.value)
      && (f.since.Some? ==> f.since.value <= e.createdAt)
      && (f.until.Some? ==> e.createdAt <= f.until.value)
      && forall n: nat, name: string ::
           |name| == 1 && name[0] != '#' && name[0] as int < 0x80 && Hashes(n) + name in f.tags ==>
             TagListed(e, name, f.tags[Hashes(n) + name])
  {
    TagsMean(f, e);
  }

  lemma TagsMean(f: Filter, e: NostrEvent)
    ensures MatchesTags(f, e) <==> forall n: nat, name: string ::
      |name| == 1 && name[0] != '#' && name[0] as int < 0x80 && Hashes(n) + name in f.tags ==>
        TagListed(e, name, f.tags[Hashes(n) + name])
  {
    hide HasTagValue, TagListed, TrimHashes, Hashes, Utf8Len;
    if MatchesTags(f, e) {
      forall n: nat, name: string | |name| == 1 && name[0] != '#' && name[0] as int < 0x80 && Hashes(n) + name in f.tags
        ensures TagListed(e, name, f.tags[Hashes(n) + name])
      {
        TrimmedKey(n, name);
        OneByte(name);
        TagListedMeans(e, name, f.tags[Hashes(n) + name]);
      }
    } else {
      var key :| key in f.tags && Constrains(key) && !HasTagValue(e.tags, TrimHashes(key), f.tags[key]);
      var n, name := KeySplits(key);
      TrimmedKey(n, name);
      OneByte(name);
      TagListedMeans(e, name, f.tags[key]);
    }
  }

  /** A filter with a single tag key, whatever the key. */
  lemma OneTagMatches(n: nat, name: string, values: seq<string>, limit: Option<nat>, e: NostrEvent)
    requires name == "" || name[0] != '#'
    ensures Matches(Filter(None, None, None, None, None, limit, map[Hashes(n) + name := values]), e) <==>
      |name| != 1 || name[0] as int >= 0x80 || exists t, v :: t in e.tags && v in values && [name, v] <= t
  {
    hide HasTagValue, TrimHashes, Hashes, Utf8Len;
    TrimmedKey(n, name);
    OneByte(name);
    TagListedMeans(e, name, values);
    var tags := map[Hashes(n) + name := values];
    assert Hashes(n) + name in tags && tags[Hashes(n) + name] == values;
  }

  // ---- widening ----

  /** Every value of a list constraint present in `f` is kept in `g`, which constrains nothing more. */
  ghost predicate Enlarges<T>(g: Option<seq<T>>, f: Option<seq<T>>) {
    g.Some? ==> f.Some? && forall x :: x in f.value ==> x in g.value
  }

  ghost predicate Widens(g: Filter, f: Filter) {
    && Enlarges(g.ids, f.ids)
    && Enlarges(g.authors, f.authors)
    && Enlarges(g.kinds, f.kinds)
    && (g.since.Some? ==> f.since.Some? && g.since.value <= f.since.value)
    && (g.until.Some? ==> f.until.Some? && f.until.value <= g.until.value)
    && forall key :: key in g.tags && Constrains(key) ==>
         exists key' :: key' in f.tags && TrimHashes(key') == TrimHashes(key) &&
                        forall v :: v in f.tags[key'] ==> v in g.tags[key]
  }

  /** Widening never loses a match, whatever happens to keys that reduce to no single byte,
      to the limit, and to how many hashes a key carries. */
  lemma WideningKeepsMatches(f: Filter, g: Filter, e: NostrEvent)
    requires Widens(g, f) && Matches(f, e)
    ensures Matches(g, e)
  {
    forall key | key in g.tags && Constrains(key)
      ensures HasTagValue(e.tags, TrimHashes(key), g.tags[key])
    {
      var key' :| key' in f.tags && TrimHashes(key') == TrimHashes(key) &&
                  forall v :: v in f.tags[key'] ==> v in g.tags[key];
      assert Constrains(key');
      assert HasTagValue(e.tags, TrimHashes(key'), f.tags[key']);
      var t :| t in e.tags && |t| > 1 && t[0] == TrimHashes(key') && t[1] in f.tags[key'];
      assert t[1] in g.tags[key];
    }
  }

  /** More filters, or wider ones, match whatever fewer did. */
  lemma SubscriptionKeepsMatches(fs: seq<Filter>, gs: seq<Filter>, e: NostrEvent)
    requires MatchesAny(fs, e)
    requires forall f :: f in fs ==> exists g :: g in gs && Widens(g, f)
    ensures MatchesAny(gs, e)
  {
    var f :| f in fs && Matches(f, e);
    var g :| g in gs && Widens(g, f);
    WideningKeepsMatches(f, g, e);
  }
}
