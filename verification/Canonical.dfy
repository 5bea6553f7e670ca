/** The canonical serialisation of src/event/mod.rs as serde_json prints it: of all the JSON texts of a value
    (RFC 8259) the shortest, with hexadecimal digits in lower case. */
module Canonical {
  import opened Base
  import opened Text
  import opened JsonText

  // ---- the printer ----

  /** The two-character escapes: the character and the letter that stands for it. */
  const SHORT_ESCAPES: map<char, char> := map[
    '"' := '"', '\\' := '\\', 8 as char := 'b', 9 as char := 't',
    10 as char := 'n', 12 as char := 'f', 13 as char := 'r']

  function EscapeChar(c: char): string {
    if c in SHORT_ESCAPES then ['\\', SHORT_ESCAPES[c]]
    else if c as int < 32 then "\\u00" + [DIGITS[c as int / 16], DIGITS[c as int % 16]]
    else [c]
  }

  function Escape(s: string): string {
    if s == "" then "" else EscapeChar(s[0]) + Escape(s[1..])
  }

  function Int(n: int): string {
    if n < 0 then "-" + Digits(-n, 10) else Digits(n, 10)
  }

  function Print(v: Json): string
    decreases v
  {
    match v
    case Num(n) => Int(n)
    case Str(s) => "\"" + (Escape(s) + "\"")
    case Arr(items) => "[" + (if items == [] then "]" else PrintItems(items))
  }

  /** The items between commas, and the closing bracket. */
  function PrintItems(items: seq<Json>): string
    requires items != []
    decreases items
  {
    Print(items[0]) + (if |items| == 1 then "]" else "," + PrintItems(items[1..]))
  }

  // ---- it is read back ----

  lemma CharRead(c: char, rest: string)
    ensures ReadChar(EscapeChar(c) + rest) == Got(c, rest)
    ensures EscapeChar(c) != "" && EscapeChar(c)[0] != '"'
  {
    var s := EscapeChar(c) + rest;
    if c in SHORT_ESCAPES {
      assert s[1..][1..] == rest;
    } else if c as int < 32 {
      ControlRead(c, rest);
    } else {
      assert s[1..] == rest;
    }
  }

  lemma ControlRead(c: char, rest: string)
    requires c !in SHORT_ESCAPES && c as int < 32
    ensures ReadChar(EscapeChar(c) + rest) == Got(c, rest)
  {
    var s := EscapeChar(c) + rest;
    var t := s[1..][1..];
    HexRead(c as int / 16);
    HexRead(c as int % 16);
    assert t[0] == '0' && t[1] == '0' && t[2] == DIGITS[c as int / 16] && t[3] == DIGITS[c as int % 16];
    assert t[4..] == rest;
  }

  lemma HexRead(d: nat)
    requires d < 16
    ensures HexValue(DIGITS[d]) == Some(d)
  {
    DigitRoundTrip(d);
  }

  lemma {:induction false} CharsRead(x: string, rest: string)
    ensures ReadChars(Escape(x) + ("\"" + rest)) == Got(x, rest)
  {
    hide EscapeChar, ReadChar;
    var s := Escape(x) + ("\"" + rest);
    if x == "" {
      assert s[1..] == rest;
    } else {
      var tail := Escape(x[1..]) + ("\"" + rest);
      assert s == EscapeChar(x[0]) + tail;
      CharRead(x[0], tail);
      CharsRead(x[1..], rest);
      assert s[0] == EscapeChar(x[0])[0];
      assert x == [x[0]] + x[1..];
    }
  }

  /** Printed numbers are decimal digits without a leading zero, and worth the number. */
  lemma {:induction false} DigitsMean(n: nat)
    ensures Digits(n, 10) != "" && (forall c :: c in Digits(n, 10) ==> IsDecimal(c))
    ensures DecimalValue(Digits(n, 10)) == n
    ensures Digits(n, 10)[0] == '0' <==> n == 0
    ensures n == 0 ==> Digits(n, 10) == "0"
    decreases n
  {
    var ds, last := Digits(n, 10), DIGITS[n % 10];
    assert last as int == '0' as int + n % 10;
    assert ds[|ds| - 1] == last;
    if n >= 10 {
      DigitsMean(n / 10);
      assert ds[..|ds| - 1] == Digits(n / 10, 10);
      assert ds[0] == Digits(n / 10, 10)[0];
    } else {
      assert ds[..|ds| - 1] == "" && DecimalValue("") == 0;
    }
  }

  lemma {:induction false} AllAhead(ds: string, rest: string)
    requires (forall c :: c in ds ==> IsDecimal(c)) && (rest == "" || !IsDecimal(rest[0]))
    ensures DigitsAhead(ds + rest) == |ds|
  {
    if ds == "" {
      assert ds + rest == rest;
    } else {
      assert (ds + rest)[1..] == ds[1..] + rest;
      AllAhead(ds[1..], rest);
    }
  }

  lemma NatRead(n: nat, rest: string)
    requires rest == "" || !IsDecimal(rest[0])
    ensures ReadNat(Digits(n, 10) + rest) == Got(n, rest)
  {
    var ds := Digits(n, 10);
    DigitsMean(n);
    AllAhead(ds, rest);
    assert (ds + rest)[..|ds|] == ds && (ds + rest)[|ds|..] == rest;
  }

  lemma NumRead(n: int, rest: string)
    requires rest == "" || !IsDecimal(rest[0])
    ensures ReadNum(Int(n) + rest) == Got(Num(n), rest)
  {
    hide ReadNat, Digits, DecimalValue;
    var m := if n < 0 then -n else n;
    NatRead(m, rest);
    DigitsMean(m);
    assert Digits(m, 10)[0] in Digits(m, 10);
    if n < 0 {
      assert (Int(n) + rest)[1..] == Digits(m, 10) + rest;
    }
  }

  /** No printed value starts with white space or a closing bracket. */
  lemma PrintStarts(v: Json)
    ensures Print(v) != "" && Print(v)[0] !in " \t\n\r]"
    ensures v.Num? ==> IsDecimal(Print(v)[0]) || Print(v)[0] == '-'
  {
    if v.Num? {
      var m := if v.n < 0 then -v.n else v.n;
      DigitsMean(m);
      assert Digits(m, 10)[0] in Digits(m, 10);
    }
  }

  lemma {:induction false} ValueRead(v: Json, rest: string)
    requires rest == "" || !IsDecimal(rest[0])
    ensures ReadValue(Print(v) + rest) == Got(v, rest)
    decreases v, 1
  {
    hide Int, Escape, ReadChars;
    var s := Print(v) + rest;
    PrintStarts(v);
    assert s[0] == Print(v)[0] && Skip(s) == s;
    match v
    case Num(n) => NumRead(n, rest);
    case Str(x) =>
      CharsRead(x, rest);
      assert s[1..] == Escape(x) + ("\"" + rest);
    case Arr(items) => ArrayRead(v, rest);
  }

  lemma {:induction false} ArrayRead(v: Json, rest: string)
    requires v.Arr?
    ensures ReadArray((Print(v) + rest)[1..]) == Got(v, rest)
    decreases v, 0
  {
    var t := (Print(v) + rest)[1..];
    if v.items == [] {
      assert t == "]" + rest && t[1..] == rest;
    } else {
      assert t == PrintItems(v.items) + rest;
      ItemsRead(v.items, rest);
      PrintStarts(v.items[0]);
      assert t[0] == Print(v.items[0])[0] && Skip(t) == t;
    }
  }

  lemma {:induction false} ItemsRead(items: seq<Json>, rest: string)
    requires items != []
    ensures ReadItems(PrintItems(items) + rest) == Got(items, rest)
    decreases items, 2
  {
    hide Print, ReadValue;
    var s := PrintItems(items) + rest;
    if |items| == 1 {
      var tail := "]" + rest;
      assert s == Print(items[0]) + tail && tail[1..] == rest && Skip(tail) == tail;
      ValueRead(items[0], tail);
      assert items == [items[0]];
    } else {
      var tail := "," + (PrintItems(items[1..]) + rest);
      assert s == Print(items[0]) + tail && tail[1..] == PrintItems(items[1..]) + rest && Skip(tail) == tail;
      ValueRead(items[0], tail);
      ItemsRead(items[1..], rest);
      assert items == [items[0]] + items[1..];
    }
  }

  /** Printing then reading gives the value back, for all strings and nested arrays. */
  lemma ReadPrint(v: Json)
    ensures Read(Print(v)) == Some(v)
  {
    ValueRead(v, "");
    assert Print(v) + "" == Print(v);
  }

  /** Equal texts mean equal values. */
  lemma PrintInjective(v: Json, w: Json)
    ensures Print(v) == Print(w) <==> v == w
  {
    ReadPrint(v);
    ReadPrint(w);
  }

  // ---- it is the least text ----

  /** `p` is no longer than `s`, and if as long it differs from it only in lower-case letters for upper-case
      hexadecimal digits. */
  predicate NoLonger(p: string, s: string) {
    |p| <= |s| && (|p| == |s| ==> forall i :: 0 <= i < |p| ==> p[i] == s[i] || LowerOf(p[i], s[i]))
  }

  predicate LowerOf(p: char, s: char) {
    'A' <= s <= 'F' && p as int == s as int + 32
  }

  /** `p` is so compared with what `s` has before `rest`. */
  ghost predicate Leaner(p: string, s: string, rest: string) {
    exists text :: s == text + rest && NoLonger(p, text)
  }

  lemma LeanerAppend(p: string, q: string, s: string, mid: string, rest: string)
    requires Leaner(p, s, mid) && Leaner(q, mid, rest)
    ensures Leaner(p + q, s, rest)
  {
    var a :| s == a + mid && NoLonger(p, a);
    var b :| mid == b + rest && NoLonger(q, b);
    assert s == (a + b) + rest;
  }

  lemma LeanerSame(p: string, s: string, rest: string)
    requires s == p + rest
    ensures Leaner(p, s, rest)
  {
  }

  lemma LeanerLonger(p: string, s: string, rest: string, n: nat)
    requires |p| < n <= |s| && rest == s[n..]
    ensures Leaner(p, s, rest)
  {
    assert s == s[..n] + rest;
  }

  lemma {:induction false} SkipLeaner(s: string)
    ensures Leaner("", s, Skip(s))
  {
    if Skip(s) == s {
      assert s == "" + s;
    } else {
      SkipLeaner(s[1..]);
      LeanerLonger("", s, s[1..], 1);
      LeanerAppend("", "", s, s[1..], Skip(s));
      assert "" + "" == "";
    }
  }

  lemma CharLeaner(s: string)
    requires ReadChar(s).Got?
    ensures Leaner(EscapeChar(ReadChar(s).value), s, ReadChar(s).rest)
  {
    var c := ReadChar(s).value;
    if s[0] != '\\' {
      assert s == [s[0]] + s[1..];
    } else if s[1] == 'u' {
      UnitsLeaner(s);
    } else if s[1] == '/' {
      LeanerLonger("/", s, s[2..], 2);
      assert s[1..][1..] == s[2..];
    } else {
      assert EscapeChar(c) == ['\\', s[1]];
      assert s == ['\\', s[1]] + s[1..][1..];
    }
  }

  lemma UnitsLeaner(s: string)
    requires ReadChar(s).Got? && s[0] == '\\' && s[1] == 'u'
    ensures Leaner(EscapeChar(ReadChar(s).value), s, ReadChar(s).rest)
  {
    var c, t := ReadChar(s).value, s[1..][1..];
    if c as int < 32 && c !in SHORT_ESCAPES {
      assert t[4..] == ReadChar(s).rest;
      ControlLeaner(s[..6], c);
      assert s == s[..6] + t[4..];
    } else {
      var n := |s| - |ReadChar(s).rest|;
      assert ReadChar(s).rest == s[n..];
      LeanerLonger(EscapeChar(c), s, ReadChar(s).rest, n);
    }
  }

  lemma ControlLeaner(text: string, c: char)
    requires |text| == 6 && text[..2] == "\\u" && Unit(text[2..]) == Some(c as int)
    requires c as int < 32 && c !in SHORT_ESCAPES
    ensures NoLonger(EscapeChar(c), text)
  {
    var t, p := text[2..], EscapeChar(c);
    assert text[0] == '\\' && text[1] == 'u';
    HexLower(t[0]);
    HexLower(t[1]);
    HexLower(t[2]);
    HexLower(t[3]);
    var a, b, d, e := HexValue(t[0]).value, HexValue(t[1]).value, HexValue(t[2]).value, HexValue(t[3]).value;
    assert a == 0 && b == 0 && d == c as int / 16 && e == c as int % 16;
    assert forall i :: 0 <= i < 4 ==> text[i + 2] == t[i];
    assert p == ['\\', 'u', '0', '0', DIGITS[d], DIGITS[e]];
  }

  lemma HexLower(c: char)
    requires HexValue(c).Some?
    ensures HexValue(c).value < 16
    ensures DIGITS[HexValue(c).value] == c || LowerOf(DIGITS[HexValue(c).value], c)
  {
    var d := HexValue(c).value;
    assert d < 10 ==> DIGITS[d] as int == '0' as int + d;
    assert 10 <= d < 16 ==> DIGITS[d] as int == 'a' as int + (d - 10);
  }

  lemma {:induction false} CharsLeaner(s: string)
    requires ReadChars(s).Got?
    ensures Leaner(Escape(ReadChars(s).value) + "\"", s, ReadChars(s).rest)
    decreases |s|
  {
    hide ReadChar, EscapeChar, Leaner;
    if s != "" && s[0] == '"' {
      assert Escape("") + "\"" == "\"" && s == "\"" + s[1..];
      LeanerSame("\"", s, s[1..]);
    } else {
      var c, mid := ReadChar(s).value, ReadChar(s).rest;
      var x := ReadChars(mid).value;
      CharLeaner(s);
      CharsLeaner(mid);
      LeanerAppend(EscapeChar(c), Escape(x) + "\"", s, mid, ReadChars(s).rest);
      assert ([c] + x)[1..] == x;
      assert EscapeChar(c) + (Escape(x) + "\"") == Escape([c] + x) + "\"";
    }
  }

  /** Digits without a leading zero are the ones printed. */
  lemma {:induction false} DigitsOfValue(ds: string)
    requires ds != "" && ds[0] != '0' && forall c :: c in ds ==> IsDecimal(c)
    ensures DecimalValue(ds) > 0 && Digits(DecimalValue(ds), 10) == ds
    decreases |ds|
  {
    var n, front, last := DecimalValue(ds), ds[..|ds| - 1], ds[|ds| - 1];
    assert ds == front + [last];
    assert last in ds && ds[0] in ds;
    var d := last as int - '0' as int;
    assert DIGITS[d] == last;
    if front != "" {
      assert front[0] == ds[0] && forall c :: c in front ==> c in ds;
      DigitsOfValue(front);
      assert n / 10 == DecimalValue(front) && n % 10 == d;
    } else {
      assert DecimalValue("") == 0 && n == d;
    }
  }

  lemma {:induction false} AheadMeans(s: string)
    ensures forall c :: c in s[..DigitsAhead(s)] ==> IsDecimal(c)
  {
    if DigitsAhead(s) > 0 {
      AheadMeans(s[1..]);
      assert s[..DigitsAhead(s)] == [s[0]] + s[1..][..DigitsAhead(s[1..])];
    }
  }

  lemma NatLeaner(s: string)
    requires ReadNat(s).Got?
    ensures Leaner(Digits(ReadNat(s).value, 10), s, ReadNat(s).rest)
  {
    var n := DigitsAhead(s);
    AheadMeans(s);
    if s[0] == '0' {
      assert s == "0" + s[1..] && Digits(0, 10) == "0";
      LeanerSame("0", s, s[1..]);
    } else {
      DigitsOfValue(s[..n]);
      assert s == s[..n] + s[n..];
      LeanerSame(s[..n], s, s[n..]);
    }
  }

  lemma NumLeaner(s: string)
    requires ReadNum(s).Got?
    ensures Leaner(Print(ReadNum(s).value), s, ReadNum(s).rest)
  {
    hide Leaner, ReadNat, Digits;
    if s != "" && s[0] == '-' {
      var n, rest := ReadNat(s[1..]).value, ReadNat(s[1..]).rest;
      NatLeaner(s[1..]);
      if n == 0 {
        LeanerEmpty(s);
        LeanerAppend("", Digits(n, 10), s, s[1..], rest);
        assert "" + Digits(n, 10) == Print(Num(0));
      } else {
        assert s == "-" + s[1..];
        LeanerSame("-", s, s[1..]);
        LeanerAppend("-", Digits(n, 10), s, s[1..], rest);
      }
    } else {
      NatLeaner(s);
    }
  }

  lemma LeanerEmpty(s: string)
    requires s != ""
    ensures Leaner("", s, s[1..])
  {
    LeanerLonger("", s, s[1..], 1);
  }

  lemma {:induction false} ValueLeaner(text: string)
    requires ReadValue(text).Got?
    ensures Leaner(Print(ReadValue(text).value), text, ReadValue(text).rest)
    decreases |text|, 0
  {
    hide Leaner, Skip, ReadNum, ReadArray, ReadChars, Escape;
    var s, v, rest := Skip(text), ReadValue(text).value, ReadValue(text).rest;
    SkipLeaner(text);
    if s[0] == '"' {
      CharsLeaner(s[1..]);
      assert s == "\"" + s[1..];
      LeanerSame("\"", s, s[1..]);
      LeanerAppend("\"", Escape(v.s) + "\"", s, s[1..], rest);
    } else if s[0] == '[' {
      ArrayLeaner(s[1..]);
      var p := Print(v)[1..];
      assert s == "[" + s[1..];
      LeanerSame("[", s, s[1..]);
      LeanerAppend("[", p, s, s[1..], rest);
      assert "[" + p == Print(v);
    } else {
      NumLeaner(s);
    }
    LeanerAppend("", Print(v), text, s, rest);
    assert "" + Print(v) == Print(v);
  }

  lemma {:induction false} ArrayLeaner(s: string)
    requires ReadArray(s).Got?
    ensures var v := ReadArray(s).value;
      v.Arr? && Print(v)[0] == '[' && Leaner(Print(v)[1..], s, ReadArray(s).rest)
    decreases |s|, 2
  {
    hide Leaner, Skip, ReadItems;
    var t := Skip(s);
    if t != "" && t[0] == ']' {
      SkipLeaner(s);
      assert t == "]" + t[1..];
      LeanerSame("]", t, t[1..]);
      LeanerAppend("", "]", s, t, t[1..]);
      assert "" + "]" == "]" && Print(Arr([]))[1..] == "]";
    } else {
      ItemsLeaner(s);
      var items := ReadItems(s).value;
      assert Print(Arr(items))[1..] == PrintItems(items);
    }
  }

  lemma {:induction false} ItemsLeaner(s: string)
    requires ReadItems(s).Got?
    ensures ReadItems(s).value != [] && Leaner(PrintItems(ReadItems(s).value), s, ReadItems(s).rest)
    decreases |s|, 1
  {
    hide Leaner, Skip, ReadValue, Print;
    var v, after := ReadValue(s).value, ReadValue(s).rest;
    var t := Skip(after);
    ValueLeaner(s);
    SkipLeaner(after);
    LeanerAppend(Print(v), "", s, after, t);
    assert Print(v) + "" == Print(v);
    if t[0] == ']' {
      assert t == "]" + t[1..];
      LeanerSame("]", t, t[1..]);
      LeanerAppend(Print(v), "]", s, t, t[1..]);
      assert PrintItems([v]) == Print(v) + "]";
    } else {
      var vs, rest := ReadItems(t[1..]).value, ReadItems(t[1..]).rest;
      ItemsLeaner(t[1..]);
      assert t == "," + t[1..];
      LeanerSame(",", t, t[1..]);
      LeanerAppend(",", PrintItems(vs), t, t[1..], rest);
      LeanerAppend(Print(v), "," + PrintItems(vs), s, t, rest);
      assert ([v] + vs)[1..] == vs;
    }
  }

  /** What is printed is no longer than any JSON text of the value, with or without white space and whatever
      its escapes; one as long differs only in upper-case hexadecimal digits. */
  lemma PrintLeast(v: Json, text: string)
    requires Read(text) == Some(v)
    ensures NoLonger(Print(v), text)
  {
    hide Print, Skip, NoLonger;
    var rest := ReadValue(text).rest;
    ValueLeaner(text);
    SkipLeaner(rest);
    LeanerAppend(Print(v), "", text, rest, "");
    assert Print(v) + "" == Print(v);
    var whole :| text == whole + "" && NoLonger(Print(v), whole);
    assert whole == text;
  }

  /** And that determines it: no other JSON text of the value is so. */
  lemma PrintIff(v: Json, p: string)
    ensures p == Print(v) <==> Read(p) == Some(v) && forall text :: Read(text) == Some(v) ==> NoLonger(p, text)
  {
    hide Print, Read;
    ReadPrint(v);
    forall text | Read(text) == Some(v) ensures NoLonger(Print(v), text) {
      PrintLeast(v, text);
    }
    if Read(p) == Some(v) && forall text :: Read(text) == Some(v) ==> NoLonger(p, text) {
      var q := Print(v);
      assert NoLonger(p, q) && NoLonger(q, p);
      assert forall i :: 0 <= i < |p| ==> p[i] == q[i];
    }
  }
}
