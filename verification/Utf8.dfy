/** UTF-8 after sections 3 and 4 of RFC 3629: what the lengths of strings, which the source takes in bytes,
    are lengths of. */
module Utf8 {
  import opened Base

  type Bytes = seq<nat>

  // ---- reading, as the RFC's grammar has it ----

  predicate IsTail(b: nat) {
    0x80 <= b <= 0xBF
  }

  /** The character that the bytes start with. */
  function ReadChar(b: Bytes): (c: Option<char>) {
    if b == [] then None
    else if b[0] <= 0x7F then Some(b[0] as char)
    else if b[0] <= 0xDF then ReadTwo(b)
    else if b[0] <= 0xEF then ReadThree(b)
    else ReadFour(b)
  }

  function ReadTwo(b: Bytes): (c: Option<char>)
    requires b != []
  {
    if |b| < 2 || !IsTail(b[1]) then None
    else if 0xC2 <= b[0] <= 0xDF then Some(((b[0] - 0xC0) * 0x40 + (b[1] - 0x80)) as char)
    else None
  }

  function ReadThree(b: Bytes): (c: Option<char>)
    requires b != []
  {
    if |b| < 3 || !IsTail(b[1]) || !IsTail(b[2]) then None
    else if (b[0] == 0xE0 && 0xA0 <= b[1]) || 0xE1 <= b[0] <= 0xEC || (b[0] == 0xED && b[1] <= 0x9F)
      || 0xEE <= b[0] <= 0xEF
    then Some(((b[0] - 0xE0) * 0x1000 + (b[1] - 0x80) * 0x40 + (b[2] - 0x80)) as char)
    else None
  }

  function ReadFour(b: Bytes): (c: Option<char>)
    requires b != []
  {
    if |b| < 4 || !IsTail(b[1]) || !IsTail(b[2]) || !IsTail(b[3]) then None
    else if (b[0] == 0xF0 && 0x90 <= b[1]) || 0xF1 <= b[0] <= 0xF3 || (b[0] == 0xF4 && b[1] <= 0x8F)
    then Some(((b[0] - 0xF0) * 0x4_0000 + (b[1] - 0x80) * 0x1000 + (b[2] - 0x80) * 0x40 + (b[3] - 0x80)) as char)
    else None
  }

  /** How many bytes the first of them announces. */
  function Announced(lead: nat): nat {
    if lead <= 0x7F then 1 else if lead <= 0xDF then 2 else if lead <= 0xEF then 3 else 4
  }

  function Read(b: Bytes): Option<string>
    decreases |b|
  {
    if b == [] then Some("")
    else if ReadChar(b).None? then None
    else if |b| < Announced(b[0]) then None
    else match Read(b[Announced(b[0])..])
      case None => None
      case Some(s) => Some([ReadChar(b).value] + s)
  }

  // ---- writing ----

  function WriteChar(c: char): Bytes {
    var n := c as int;
    if n < 0x80 then [n]
    else if n < 0x800 then [0xC0 + n / 0x40, 0x80 + n % 0x40]
    else if n < 0x1_0000 then [0xE0 + n / 0x1000, 0x80 + n / 0x40 % 0x40, 0x80 + n % 0x40]
    else [0xF0 + n / 0x4_0000, 0x80 + n / 0x1000 % 0x40, 0x80 + n / 0x40 % 0x40, 0x80 + n % 0x40]
  }

  function Write(s: string): Bytes {
    if s == "" then [] else WriteChar(s[0]) + Write(s[1..])
  }

  /** Digits in base 64: the last three and what is left, and back. */
  lemma Base64(n: nat)
    ensures n == n / 0x40 * 0x40 + n % 0x40
    ensures n == n / 0x1000 * 0x1000 + n / 0x40 % 0x40 * 0x40 + n % 0x40
    ensures n == n / 0x4_0000 * 0x4_0000 + n / 0x1000 % 0x40 * 0x1000 + n / 0x40 % 0x40 * 0x40 + n % 0x40
  {
    assert n / 0x40 / 0x40 == n / 0x1000 && n / 0x1000 / 0x40 == n / 0x4_0000;
  }

  lemma Base64Digits(a: nat, b: nat, c: nat, d: nat)
    requires b < 0x40 && c < 0x40 && d < 0x40
    ensures var n := a * 0x4_0000 + b * 0x1000 + c * 0x40 + d;
      n / 0x4_0000 == a && n / 0x1000 % 0x40 == b && n / 0x40 % 0x40 == c && n % 0x40 == d
  {
    var n := a * 0x4_0000 + b * 0x1000 + c * 0x40 + d;
    assert n / 0x40 == a * 0x1000 + b * 0x40 + c;
    assert n / 0x1000 == a * 0x40 + b;
    assert n / 0x4_0000 == a;
  }

  lemma CharRead(c: char, rest: Bytes)
    ensures var b := WriteChar(c) + rest;
      && b != [] && ReadChar(b) == Some(c) && |WriteChar(c)| == Announced(b[0]) == CharWidth(c)
      && b[Announced(b[0])..] == rest
  {
    var b, n := WriteChar(c) + rest, c as int;
    assert b[|WriteChar(c)|..] == rest;
    if n < 0x80 {
    } else if n < 0x800 {
      Base64(n);
    } else if n < 0x1_0000 {
      hide ReadTwo, ReadFour;
      ThreeRead(c, b);
    } else {
      hide ReadTwo, ReadThree;
      FourRead(c, b);
    }
  }

  lemma ThreeRead(c: char, b: Bytes)
    requires 0x800 <= c as int < 0x1_0000 && WriteChar(c) <= b
    ensures ReadThree(b) == Some(c) && 0xE0 <= b[0] <= 0xEF
  {
    var n := c as int;
    Base64(n);
    var q, r, t := n / 0x1000, n / 0x40 % 0x40, n % 0x40;
    assert b[0] == 0xE0 + q && b[1] == 0x80 + r && b[2] == 0x80 + t;
  }

  lemma FourRead(c: char, b: Bytes)
    requires 0x1_0000 <= c as int && WriteChar(c) <= b
    ensures ReadFour(b) == Some(c) && 0xF0 <= b[0] <= 0xF4
  {
    var n := c as int;
    Base64(n);
    var p, q, r, t := n / 0x4_0000, n / 0x1000 % 0x40, n / 0x40 % 0x40, n % 0x40;
    assert b[0] == 0xF0 + p && b[1] == 0x80 + q && b[2] == 0x80 + r && b[3] == 0x80 + t;
  }

  lemma CharWritten(b: Bytes)
    requires ReadChar(b).Some?
    ensures |b| >= Announced(b[0]) && b[..Announced(b[0])] == WriteChar(ReadChar(b).value)
  {
    hide ReadTwo, ReadThree, ReadFour;
    if 0x80 <= b[0] <= 0xDF {
      TwoWritten(b);
    } else if 0xE0 <= b[0] <= 0xEF {
      ThreeWritten(b);
    } else if 0xF0 <= b[0] {
      FourWritten(b);
    }
  }

  lemma TwoWritten(b: Bytes)
    requires b != [] && ReadTwo(b).Some?
    ensures |b| >= 2 && b[..2] == WriteChar(ReadTwo(b).value)
  {
    Base64Digits(0, 0, b[0] - 0xC0, b[1] - 0x80);
  }

  lemma ThreeWritten(b: Bytes)
    requires b != [] && ReadThree(b).Some?
    ensures |b| >= 3 && b[..3] == WriteChar(ReadThree(b).value)
  {
    Base64Digits(0, b[0] - 0xE0, b[1] - 0x80, b[2] - 0x80);
  }

  lemma FourWritten(b: Bytes)
    requires b != [] && ReadFour(b).Some?
    ensures |b| >= 4 && b[..4] == WriteChar(ReadFour(b).value)
  {
    Base64Digits(b[0] - 0xF0, b[1] - 0x80, b[2] - 0x80, b[3] - 0x80);
  }

  /** Every string has a UTF-8 form, which reads back as it, and `Utf8Len` is its length. */
  lemma {:induction false} Utf8Written(s: string)
    ensures Read(Write(s)) == Some(s) && |Write(s)| == Utf8Len(s)
  {
    hide ReadChar, WriteChar, CharWidth, Announced;
    if s != "" {
      Utf8Written(s[1..]);
      CharRead(s[0], Write(s[1..]));
      assert s == [s[0]] + s[1..];
    }
  }

  /** It has no other: `Utf8Len` is the number of bytes of any UTF-8 text that reads as the string. */
  lemma {:induction false} Utf8LenMeans(b: Bytes, s: string)
    requires Read(b) == Some(s)
    ensures b == Write(s) && Utf8Len(s) == |b|
    decreases |b|
  {
    hide ReadChar, WriteChar, CharWidth, Announced;
    if b != [] {
      var c, rest := ReadChar(b).value, b[Announced(b[0])..];
      Utf8LenMeans(rest, s[1..]);
      CharWritten(b);
      CharRead(c, rest);
      assert b == b[..Announced(b[0])] + rest;
    }
  }
}
