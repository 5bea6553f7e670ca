/** Events, their categories and their validation (src/event/mod.rs). */
module Events {
  import opened Base
  import opened JsonText
  import Canonical
  import Utf8

  type Tags = seq<seq<string>>

  datatype NostrEvent = NostrEvent(
    id: string,
    pubkey: string,
    createdAt: I64,
    kind: U32,
    tags: Tags,
    content: string,
    sig: string)

  datatype Category = Ephemeral | Replaceable | ParameterizedReplaceable | Regular

  function CategoryOf(kind: U32): Category {
    if kind == 0 || kind == 3 then Replaceable
    else if 10_000 <= kind <= 19_999 then Replaceable
    else if 20_000 <= kind <= 29_999 then Ephemeral
    else if 30_000 <= kind <= 39_999 then ParameterizedReplaceable
    else Regular
  }

  predicate IsEphemeral(e: NostrEvent) {
    CategoryOf(e.kind) == Ephemeral
  }

  /** The value of the first `d` tag, `""` when it has none or there is no such tag. */
  function DTag(tags: Tags): string {
    if tags == [] then ""
    else if |tags[0]| > 0 && tags[0][0] == "d" then (if |tags[0]| > 1 then tags[0][1] else "")
    else DTag(tags[1..])
  }

  // ---- validation ----

  /** What the relay takes from outside: the hex SHA-256, Schnorr verification, the events that clients
      ever send it (any set that has all of them), and the limits. */
  datatype Env = Env(
    hash: string -> string,
    verify: (string, string, string) -> bool,
    sent: NostrEvent -> bool,
    maxContentLength: nat,
    maxEventTags: nat,
    maxSubscriptions: nat,
    maxFilters: nat)

  datatype HexField = IdField | PubkeyField | SigField

  datatype Refusal =
    | ContentTooLong | TooManyTags
    | BadLength(field: HexField) | NotHex(field: HexField) | WrongId | BadSignature
    | Duplicate | DatabaseError | EnqueueError

  predicate IsHexDigit(c: char) {
    '0' <= c <= '9' || 'a' <= c <= 'f' || 'A' <= c <= 'F'
  }

  function ValidateHexField(name: HexField, value: string, len: nat): Option<Refusal> {
    if Utf8Len(value) != len then Some(BadLength(name))
    else if exists c :: c in value && !IsHexDigit(c) then Some(NotHex(name))
    else None
  }

  lemma HexDigits(s: string)
    ensures (forall c :: c in s ==> IsHexDigit(c)) <==> forall c :: c in s ==> c in "0123456789abcdefABCDEF"
  {
    forall c ensures IsHexDigit(c) <==> c in "0123456789abcdefABCDEF" {
      OneHexDigit(c);
    }
  }

  lemma OneHexDigit(c: char)
    ensures IsHexDigit(c) <==> c in "0123456789abcdefABCDEF"
  {
    var hex := "0123456789abcdefABCDEF";
    if '0' <= c <= '9' {
      assert hex[c as int - '0' as int] == c;
    } else if 'a' <= c <= 'f' {
      assert hex[c as int - 'a' as int + 10] == c;
    } else if 'A' <= c <= 'F' {
      assert hex[c as int - 'A' as int + 16] == c;
    }
  }

  /** Accepted fields are exactly the strings of `len` hex digits of either case. */
  lemma HexFieldAccepts(name: HexField, value: string, len: nat)
    ensures ValidateHexField(name, value, len).None?
       <==> |value| == len && forall c :: c in value ==> c in "0123456789abcdefABCDEF"
  {
    Utf8LenBounds(value);
    HexDigits(value);
    assert forall c :: IsHexDigit(c) ==> c as int < 0x80;
  }

  function Strs(ss: seq<string>): Json {
    Arr(seq(|ss|, i requires 0 <= i < |ss| => Str(ss[i])))
  }

  /** What is hashed: `[0,pubkey,created_at,kind,tags,content]`. */
  function Preimage(e: NostrEvent): string {
    var tags := Arr(seq(|e.tags|, i requires 0 <= i < |e.tags| => Strs(e.tags[i])));
    Canonical.Print(Arr([Num(0), Str(e.pubkey), Num(e.createdAt), Num(e.kind), tags, Str(e.content)]))
  }

  /** The value is the array of 0 and the event's own fields in order, the tags as arrays of strings. */
  ghost predicate IsEventArray(v: Json, e: NostrEvent) {
    && v.Arr? && |v.items| == 6 && v.items[4].Arr?
    && v.items[0] == Num(0) && v.items[1] == Str(e.pubkey) && v.items[2] == Num(e.createdAt)
    && v.items[3] == Num(e.kind) && v.items[5] == Str(e.content)
    && |v.items[4].items| == |e.tags|
    && forall i :: 0 <= i < |e.tags| ==> IsStringArray(v.items[4].items[i], e.tags[i])
  }

  ghost predicate IsStringArray(v: Json, ss: seq<string>) {
    v.Arr? && |v.items| == |ss| && forall i :: 0 <= i < |ss| ==> v.items[i] == Str(ss[i])
  }

  /** The hashed text is a JSON text of that array, and the least of them all: none is shorter, and one as long
      has upper-case hexadecimal digits where it differs. */
  lemma PreimageMeans(e: NostrEvent, text: string)
    ensures Read(Preimage(e)).Some? && IsEventArray(Read(Preimage(e)).value, e)
    ensures Read(text).Some? && IsEventArray(Read(text).value, e) ==>
      && |Preimage(e)| <= |text|
      && (|Preimage(e)| == |text| ==> forall i :: 0 <= i < |text| ==>
           || Preimage(e)[i] == text[i]
           || ('A' <= text[i] <= 'F' && Preimage(e)[i] as int == text[i] as int + 32))
  {
    hide Read, Canonical.Print;
    var tags := Arr(seq(|e.tags|, i requires 0 <= i < |e.tags| => Strs(e.tags[i])));
    var v := Arr([Num(0), Str(e.pubkey), Num(e.createdAt), Num(e.kind), tags, Str(e.content)]);
    Canonical.ReadPrint(v);
    assert IsEventArray(v, e);
    if Read(text).Some? && IsEventArray(Read(text).value, e) {
      OneEventArray(v, Read(text).value, e);
      Canonical.PrintLeast(v, text);
    }
  }

  lemma OneEventArray(v: Json, w: Json, e: NostrEvent)
    requires IsEventArray(v, e) && IsEventArray(w, e)
    ensures v == w
  {
    forall i | 0 <= i < |e.tags| ensures v.items[4].items[i] == w.items[4].items[i] {
      OneStringArray(v.items[4].items[i], w.items[4].items[i], e.tags[i]);
    }
    assert v.items[4].items == w.items[4].items;
    assert v.items == w.items;
  }

  lemma OneStringArray(v: Json, w: Json, ss: seq<string>)
    requires IsStringArray(v, ss) && IsStringArray(w, ss)
    ensures v == w
  {
    assert v.items == w.items;
  }

  /** Equal preimages mean equal fields. */
  lemma PreimageInjective(a: NostrEvent, b: NostrEvent)
    ensures Preimage(a) == Preimage(b) <==>
      && a.pubkey == b.pubkey && a.createdAt == b.createdAt && a.kind == b.kind
      && a.tags == b.tags && a.content == b.content
  {
    hide Read, Preimage;
    PreimageMeans(a, "");
    PreimageMeans(b, "");
    if Preimage(a) == Preimage(b) {
      SameArray(Read(Preimage(a)).value, a, b);
    } else {
      DifferentPreimages(a, b);
    }
  }

  lemma SameArray(v: Json, a: NostrEvent, b: NostrEvent)
    requires IsEventArray(v, a) && IsEventArray(v, b)
    ensures a.pubkey == b.pubkey && a.createdAt == b.createdAt && a.kind == b.kind && a.content == b.content
    ensures a.tags == b.tags
  {
    assert v.items[1] == Str(a.pubkey) == Str(b.pubkey) && v.items[5] == Str(a.content) == Str(b.content);
    forall i | 0 <= i < |a.tags| ensures a.tags[i] == b.tags[i] {
      var tag := v.items[4].items[i];
      assert forall j :: 0 <= j < |tag.items| ==> tag.items[j] == Str(a.tags[i][j]) == Str(b.tags[i][j]);
    }
  }

  lemma DifferentPreimages(a: NostrEvent, b: NostrEvent)
    requires Preimage(a) != Preimage(b)
    ensures a.pubkey != b.pubkey || a.createdAt != b.createdAt || a.kind != b.kind
      || a.tags != b.tags || a.content != b.content
  {
  }

  function ComputeEventId(env: Env, e: NostrEvent): string {
    env.hash(Preimage(e))
  }

  /** `NostrEvent::validate`: the first failing check, in source order. */
  function Validate(env: Env, e: NostrEvent): Option<Refusal> {
    var idCheck := ValidateHexField(IdField, e.id, 64);
    if idCheck.Some? then idCheck else
    var pubkeyCheck := ValidateHexField(PubkeyField, e.pubkey, 64);
    if pubkeyCheck.Some? then pubkeyCheck else
    var sigCheck := ValidateHexField(SigField, e.sig, 128);
    if sigCheck.Some? then sigCheck else
    if ComputeEventId(env, e) != e.id then Some(WrongId) else
    if !env.verify(e.id, e.pubkey, e.sig) then Some(BadSignature) else
    None
  }

  /** The limits and `validate`, in the order `handle_event` applies them. */
  function Gate(env: Env, e: NostrEvent): Option<Refusal> {
    if Utf8Len(e.content) > env.maxContentLength then Some(ContentTooLong)
    else if |e.tags| > env.maxEventTags then Some(TooManyTags)
    else Validate(env, e)
  }

  predicate Admitted(env: Env, e: NostrEvent) {
    Gate(env, e).None?
  }

  /** Everything but the signature. */
  predicate SameBody(a: NostrEvent, b: NostrEvent) {
    && a.id == b.id && a.pubkey == b.pubkey && a.createdAt == b.createdAt && a.kind == b.kind
    && a.tags == b.tags && a.content == b.content
  }

  /** An event that is sent and passes the gate. */
  predicate Known(env: Env, e: NostrEvent) {
    Admitted(env, e) && env.sent(e)
  }

  /** The hash assumption: no two events that are sent and pass the gate have colliding preimages. */
  ghost predicate NoCollision(env: Env) {
    forall a, b :: Known(env, a) && Known(env, b) && a.id == b.id
              ==> Preimage(a) == Preimage(b)
  }

  /** What an admitted event looks like. */
  lemma AdmittedMeans(env: Env, e: NostrEvent)
    ensures Admitted(env, e) <==>
      && Utf8Len(e.content) <= env.maxContentLength && |e.tags| <= env.maxEventTags
      && |e.id| == 64 && (forall c :: c in e.id ==> c in "0123456789abcdefABCDEF")
      && |e.pubkey| == 64 && (forall c :: c in e.pubkey ==> c in "0123456789abcdefABCDEF")
      && |e.sig| == 128 && (forall c :: c in e.sig ==> c in "0123456789abcdefABCDEF")
      && e.id == env.hash(Preimage(e)) && env.verify(e.id, e.pubkey, e.sig)
  {
    hide Preimage, ValidateHexField;
    HexFieldAccepts(IdField, e.id, 64);
    HexFieldAccepts(PubkeyField, e.pubkey, 64);
    HexFieldAccepts(SigField, e.sig, 128);
  }

  ghost predicate AllHex(s: string) {
    forall c :: c in s ==> c in "0123456789abcdefABCDEF"
  }

  /** Why an event is refused, for every reason there is; lengths of text are in bytes of its UTF-8 form. */
  lemma RefusedBecause(
      env: Env, e: NostrEvent, content: Utf8.Bytes, id: Utf8.Bytes, pubkey: Utf8.Bytes, sig: Utf8.Bytes)
    requires Utf8.Read(content) == Some(e.content) && Utf8.Read(id) == Some(e.id)
    requires Utf8.Read(pubkey) == Some(e.pubkey) && Utf8.Read(sig) == Some(e.sig)
    ensures
      var fits := |content| <= env.maxContentLength;
      var limited := fits && |e.tags| <= env.maxEventTags;
      var idFits := limited && |id| == 64;
      var idOk := idFits && AllHex(e.id);
      var pubkeyFits := idOk && |pubkey| == 64;
      var pubkeyOk := pubkeyFits && AllHex(e.pubkey);
      var sigFits := pubkeyOk && |sig| == 128;
      var sigOk := sigFits && AllHex(e.sig);
      var hashed := sigOk && e.id == env.hash(Preimage(e));
      && (Gate(env, e) == Some(ContentTooLong) <==> !fits)
      && (Gate(env, e) == Some(TooManyTags) <==> fits && !limited)
      && (Gate(env, e) == Some(BadLength(IdField)) <==> limited && !idFits)
      && (Gate(env, e) == Some(NotHex(IdField)) <==> idFits && !idOk)
      && (Gate(env, e) == Some(BadLength(PubkeyField)) <==> idOk && !pubkeyFits)
      && (Gate(env, e) == Some(NotHex(PubkeyField)) <==> pubkeyFits && !pubkeyOk)
      && (Gate(env, e) == Some(BadLength(SigField)) <==> pubkeyOk && !sigFits)
      && (Gate(env, e) == Some(NotHex(SigField)) <==> sigFits && !sigOk)
      && (Gate(env, e) == Some(WrongId) <==> sigOk && !hashed)
      && (Gate(env, e) == Some(BadSignature) <==> hashed && !env.verify(e.id, e.pubkey, e.sig))
      && (Gate(env, e) == None <==> hashed && env.verify(e.id, e.pubkey, e.sig))
  {
    hide Utf8.Read, AllHex, Gate, Preimage;
    FirstFailure(env, e, content, id, pubkey, sig);
    if |content| > env.maxContentLength || |e.tags| > env.maxEventTags {
    } else if FieldFailure(IdField, id, e.id, 64).Some? {
    } else if FieldFailure(PubkeyField, pubkey, e.pubkey, 64).Some? {
    } else if FieldFailure(SigField, sig, e.sig, 128).Some? {
    }
  }

  lemma FirstFailure(
      env: Env, e: NostrEvent, content: Utf8.Bytes, id: Utf8.Bytes, pubkey: Utf8.Bytes, sig: Utf8.Bytes)
    requires Utf8.Read(content) == Some(e.content) && Utf8.Read(id) == Some(e.id)
    requires Utf8.Read(pubkey) == Some(e.pubkey) && Utf8.Read(sig) == Some(e.sig)
    ensures Gate(env, e) ==
      if |content| > env.maxContentLength then Some(ContentTooLong)
      else if |e.tags| > env.maxEventTags then Some(TooManyTags)
      else if FieldFailure(IdField, id, e.id, 64).Some? then FieldFailure(IdField, id, e.id, 64)
      else if FieldFailure(PubkeyField, pubkey, e.pubkey, 64).Some? then FieldFailure(PubkeyField, pubkey, e.pubkey, 64)
      else if FieldFailure(SigField, sig, e.sig, 128).Some? then FieldFailure(SigField, sig, e.sig, 128)
      else if e.id != env.hash(Preimage(e)) then Some(WrongId)
      else if !env.verify(e.id, e.pubkey, e.sig) then Some(BadSignature)
      else None
  {
    hide Preimage, ValidateHexField, Utf8.Read, Utf8Len, FieldFailure;
    Utf8.Utf8LenMeans(content, e.content);
    HexFieldRefused(IdField, e.id, 64, id);
    HexFieldRefused(PubkeyField, e.pubkey, 64, pubkey);
    HexFieldRefused(SigField, e.sig, 128, sig);
  }

  ghost function FieldFailure(name: HexField, bytes: Utf8.Bytes, value: string, len: nat): Option<Refusal> {
    if |bytes| != len then Some(BadLength(name)) else if AllHex(value) then None else Some(NotHex(name))
  }

  lemma HexFieldRefused(name: HexField, value: string, len: nat, bytes: Utf8.Bytes)
    requires Utf8.Read(bytes) == Some(value)
    ensures ValidateHexField(name, value, len) == FieldFailure(name, bytes, value, len)
  {
    hide IsHexDigit;
    Utf8.Utf8LenMeans(bytes, value);
    HexDigits(value);
  }

  /** An id fixes every field except the signature: what deduplication by id rests on. */
  lemma IdFixesBody(env: Env, a: NostrEvent, b: NostrEvent)
    requires NoCollision(env) && Known(env, a) && Known(env, b) && a.id == b.id
    ensures SameBody(a, b)
  {
    hide Known, Preimage;
    PreimageInjective(a, b);
  }
}
