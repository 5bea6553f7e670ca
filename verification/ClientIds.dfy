/** Client identifiers (src/utils/mod.rs, `new_client_id`). */
module ClientIds {
  import opened Base
  import opened Text

  /** `format!("{:x}-{n}", now)`: `now` is the clock's 64-bit word, printed unsigned. */
  function IdText(clock: U64, n: nat): string {
    Digits(clock, 16) + ("-" + Digits(n, 10))
  }

  /** Text of digits without a leading zero. */
  ghost predicate Numeral(s: string, digits: string) {
    s != "" && (forall c :: c in s ==> c in digits) && (s[0] == '0' ==> |s| == 1)
  }

  /** The clock in hexadecimal, a dash, and the count in decimal. */
  lemma IdTextMeans(clock: U64, n: nat) returns (h: string, d: string)
    ensures IdText(clock, n) == h + "-" + d
    ensures Numeral(h, "0123456789abcdef") && Value(h, 16) == clock
    ensures Numeral(d, "0123456789") && Value(d, 10) == n
  {
    h, d := Digits(clock, 16), Digits(n, 10);
    DigitsNumeral(clock, 16);
    DigitsNumeral(n, 10);
    DigitsRoundTrip(clock, 16);
    DigitsRoundTrip(n, 10);
  }

  lemma {:induction false} DigitsNumeral(n: nat, b: Radix)
    ensures Numeral(Digits(n, b), "0123456789abcdef"[..b])
    ensures Digits(n, b)[0] == '0' <==> n == 0
    decreases n
  {
    var digits := "0123456789abcdef";
    assert digits[..b][n % b] == DIGITS[n % b];
    if n >= b {
      DivMod(n, b);
      DigitsNumeral(n / b, b);
      assert n / b > 0;
    }
  }

  /** A string has at most one reading as dash-free text, a dash, and the rest. */
  lemma SplitAtDash(h1: string, d1: string, h2: string, d2: string)
    requires '-' !in h1 && '-' !in h2
    requires h1 + ("-" + d1) == h2 + ("-" + d2)
    ensures h1 == h2 && d1 == d2
  {
    var s1, s2 := h1 + ("-" + d1), h2 + ("-" + d2);
    assert |h1| == |h2| by {
      assert s1[|h1|] == '-' && s2[|h2|] == '-';
      assert forall i :: 0 <= i < |h1| ==> s1[i] == h1[i];
      assert forall i :: 0 <= i < |h2| ==> s2[i] == h2[i];
    }
    assert h1 == s1[..|h1|] && h2 == s2[..|h2|];
    assert d1 == s1[|h1| + 1..] && d2 == s2[|h2| + 1..];
  }

  lemma IdTextInjective(c1: U64, n1: nat, c2: U64, n2: nat)
    ensures IdText(c1, n1) == IdText(c2, n2) <==> c1 == c2 && n1 == n2
  {
    DigitsRoundTrip(c1, 16);
    DigitsRoundTrip(c2, 16);
    DigitsRoundTrip(n1, 10);
    DigitsRoundTrip(n2, 10);
    if IdText(c1, n1) == IdText(c2, n2) {
      SplitAtDash(Digits(c1, 16), Digits(n1, 10), Digits(c2, 16), Digits(n2, 10));
    }
  }

  /** The process-wide counter behind `new_client_id`. */
  class IdSource {
    var counter: U64

    constructor ()
      ensures counter == 0
    {
      counter := 0;
    }

    /** `fetch_add` wraps at 2^64. */
    method NewClientId(clock: U64) returns (id: string)
      modifies this
      ensures id == IdText(clock, old(counter))
      ensures counter == (old(counter) + 1) % TWO_64
    {
      var n := counter;
      counter := (counter + 1) % TWO_64;
      id := IdText(clock, n);
    }

    /** A whole run of connections, whatever the clock reads at each. */
    method Issue(clocks: seq<U64>) returns (ids: seq<string>)
      modifies this
      ensures |ids| == |clocks|
      ensures forall i :: 0 <= i < |ids| ==> ids[i] == NthId(old(counter), clocks, i)
      ensures |clocks| <= TWO_64 ==> Distinct(ids)
    {
      hide IdText;
      ids := [];
      ghost var start := counter;
      var i := 0;
      while i < |clocks|
        invariant 0 <= i <= |clocks| && |ids| == i
        invariant counter == (start + i) % TWO_64
        invariant forall j :: 0 <= j < i ==> ids[j] == NthId(start, clocks, j)
      {
        var id := NewClientId(clocks[i]);
        ids := ids + [id];
        i := i + 1;
      }
      if |clocks| <= TWO_64 {
        forall j, k | 0 <= j < k < |ids| ensures ids[j] != ids[k] {
          IdsCollideIff(start, clocks, j, k);
        }
      }
    }
  }

  function NthId(start: U64, clocks: seq<U64>, i: nat): string
    requires i < |clocks|
  {
    IdText(clocks[i], (start + i) % TWO_64)
  }

  /** Two ids of one run collide exactly when the counter has gone round between
      them and the clock read the same: never within 2^64 connections. */
  lemma IdsCollideIff(start: U64, clocks: seq<U64>, i: nat, j: nat)
    requires i < j < |clocks|
    ensures NthId(start, clocks, i) == NthId(start, clocks, j)
       <==> clocks[i] == clocks[j] && (j - i) % TWO_64 == 0
    ensures j - i < TWO_64 ==> NthId(start, clocks, i) != NthId(start, clocks, j)
  {
    hide IdText;
    IdTextInjective(clocks[i], (start + i) % TWO_64, clocks[j], (start + j) % TWO_64);
    CounterComesRound(start + i, start + j);
  }

  lemma CounterComesRound(a: nat, b: nat)
    requires a < b
    ensures a % TWO_64 == b % TWO_64 <==> (b - a) % TWO_64 == 0
    ensures b - a < TWO_64 ==> a % TWO_64 != b % TWO_64
  {
  }
}
