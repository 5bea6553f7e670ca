/** Shared value types and the text helpers every other module builds on. */
module Base {

  datatype Option<+T> = None | Some(value: T)

  datatype Result<+T, +E> = Ok(value: T) | Err(error: E)

  /** How a remote call ends: it works, it does nothing and errs, or it takes effect and the reply is lost. */
  datatype Fault = Works | Fails | ReplyLost

  const TWO_31: int := 0x8000_0000
  const TWO_32: int := 0x1_0000_0000
  const TWO_63: int := 0x8000_0000_0000_0000
  const TWO_64: int := 0x1_0000_0000_0000_0000

  type U32 = n: int | 0 <= n < TWO_32
  type I64 = n: int | -TWO_63 <= n < TWO_63
  type U64 = n: int | 0 <= n < TWO_64

  /** No element occurs at two positions. */
  ghost predicate Distinct<T>(s: seq<T>) {
    forall i, j :: 0 <= i < j < |s| ==> s[i] != s[j]
  }

  lemma DistinctAppend<T>(s: seq<T>, x: T)
    requires Distinct(s) && x !in s
    ensures Distinct(s + [x])
  {
  }

  /** Length in bytes of a string's UTF-8 form: what Rust's `len` returns. */
  function Utf8Len(s: string): nat {
    if s == "" then 0 else CharWidth(s[0]) + Utf8Len(s[1..])
  }

  function CharWidth(c: char): (w: nat)
    ensures 1 <= w <= 4
  {
    if c as int < 0x80 then 1
    else if c as int < 0x800 then 2
    else if c as int < 0x1_0000 then 3
    else 4
  }

  /** A string is never longer in characters than in bytes. */
  lemma {:induction false} Utf8LenBounds(s: string)
    ensures |s| <= Utf8Len(s)
    ensures (forall c :: c in s ==> c as int < 0x80) ==> Utf8Len(s) == |s|
  {
    if s != "" {
      Utf8LenBounds(s[1..]);
      assert s[0] in s && forall c :: c in s[1..] ==> c in s;
    }
  }
}

/** Positional numerals, as printed by the format strings `{}` and `{:x}`. */
module Text {
  import opened Base

  const DIGITS := "0123456789abcdef"

  /** The bases the source prints in. */
  type Radix = b: int | b == 10 || b == 16 witness 10

  function Digits(n: nat, b: Radix): (s: string)
    decreases n
  {
    if n < b then [DIGITS[n]] else Digits(n / b, b) + [DIGITS[n % b]]
  }

  function DigitValue(c: char): Option<nat> {
    if '0' <= c <= '9' then Some(c as int - '0' as int)
    else if 'a' <= c <= 'f' then Some(c as int - 'a' as int + 10)
    else None
  }

  predicate IsDigit(c: char, b: Radix) {
    DigitValue(c).Some? && DigitValue(c).value < b
  }

  /** Reads a numeral back; characters that are not digits count as zero. */
  function Value(s: string, b: Radix): nat {
    if s == "" then 0
    else Value(s[..|s| - 1], b) * b + (match DigitValue(s[|s| - 1]) case Some(d) => d case None => 0)
  }

  lemma DigitRoundTrip(d: nat)
    requires d < 16
    ensures DigitValue(DIGITS[d]) == Some(d)
  {
    assert d == 0 || d == 1 || d == 2 || d == 3 || d == 4 || d == 5 || d == 6 || d == 7
        || d == 8 || d == 9 || d == 10 || d == 11 || d == 12 || d == 13 || d == 14 || d == 15;
  }

  lemma DivMod(n: nat, b: Radix)
    ensures n / b * b + n % b == n && n / b >= 0 && 0 <= n % b < 16
    ensures n >= b ==> n / b < n
  {
  }

  /** Reading a numeral with one more digit at its end. */
  lemma ValueAppend(s: string, d: nat, b: Radix)
    requires d < 16
    ensures Value(s + [DIGITS[d]], b) == Value(s, b) * b + d
  {
    DigitRoundTrip(d);
    assert (s + [DIGITS[d]])[..|s|] == s;
  }

  /** Printing then reading gives the number back, and prints only digits. */
  lemma {:induction false} DigitsRoundTrip(n: nat, b: Radix)
    ensures |Digits(n, b)| > 0
    ensures forall c :: c in Digits(n, b) ==> IsDigit(c, b)
    ensures Value(Digits(n, b), b) == n
    decreases n
  {
    DivMod(n, b);
    DigitRoundTrip(n % b);
    if n < b {
      ValueAppend("", n, b);
      assert "" + [DIGITS[n]] == Digits(n, b);
    } else {
      DigitsRoundTrip(n / b, b);
      ValueAppend(Digits(n / b, b), n % b, b);
    }
  }
}
