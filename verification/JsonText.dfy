/** A reader of JSON texts after RFC 8259, for arrays, strings and whole numbers: sections 2, 5, 6 and 7. */
module JsonText {
  import opened Base

  datatype Json = Num(n: int) | Str(s: string) | Arr(items: seq<Json>)

  /** What was read, and what follows it. */
  datatype Parsed<+T> = Fail | Got(value: T, rest: string)

  /** The text after any white space: spaces, tabs, line feeds, carriage returns. */
  function Skip(s: string): (rest: string)
    ensures |rest| <= |s|
  {
    if s != "" && (s[0] == ' ' || s[0] == '\t' || s[0] == '\n' || s[0] == '\r') then Skip(s[1..]) else s
  }

  // ---- numbers, section 6, without fraction and exponent ----

  predicate IsDecimal(c: char) {
    '0' <= c <= '9'
  }

  function DigitsAhead(s: string): (n: nat)
    ensures n <= |s|
  {
    if s != "" && IsDecimal(s[0]) then 1 + DigitsAhead(s[1..]) else 0
  }

  /** The number that decimal digits stand for. */
  function DecimalValue(s: string): nat {
    if s == "" || !IsDecimal(s[|s| - 1]) then 0
    else DecimalValue(s[..|s| - 1]) * 10 + (s[|s| - 1] as int - '0' as int)
  }

  /** A zero, or digits that do not start with one. */
  function ReadNat(s: string): Parsed<nat> {
    if DigitsAhead(s) == 0 then Fail
    else if s[0] == '0' then Got(0, s[1..])
    else Got(DecimalValue(s[..DigitsAhead(s)]), s[DigitsAhead(s)..])
  }

  function ReadNum(s: string): Parsed<Json> {
    if s != "" && s[0] == '-' then
      match ReadNat(s[1..]) case Fail => Fail case Got(n, rest) => Got(Num(0 - n), rest)
    else
      match ReadNat(s) case Fail => Fail case Got(n, rest) => Got(Num(n), rest)
  }

  // ---- strings, section 7 ----

  function HexValue(c: char): Option<nat> {
    if '0' <= c <= '9' then Some(c as int - '0' as int)
    else if 'a' <= c <= 'f' then Some(c as int - 'a' as int + 10)
    else if 'A' <= c <= 'F' then Some(c as int - 'A' as int + 10)
    else None
  }

  /** The 16-bit unit that four hexadecimal digits in front of `s` stand for. */
  function Unit(s: string): (u: Option<nat>)
    ensures u.Some? ==> |s| >= 4 && u.value < 0x1_0000
  {
    if |s| < 4 then None
    else match (HexValue(s[0]), HexValue(s[1]), HexValue(s[2]), HexValue(s[3]))
      case (Some(a), Some(b), Some(c), Some(d)) => Some(a * 0x1000 + b * 0x100 + c * 0x10 + d)
      case _ => None
  }

  /** After `\u`: a unit, or two that make up a surrogate pair. */
  function ReadUnits(s: string): (p: Parsed<char>)
    ensures p.Got? ==> |p.rest| < |s|
  {
    match Unit(s)
    case None => Fail
    case Some(u) =>
      if u < 0xD800 || 0xE000 <= u then Got(u as char, s[4..])
      else if u < 0xDC00 && |s| >= 6 && s[4] == '\\' && s[5] == 'u' &&
        Unit(s[6..]).Some? && 0xDC00 <= Unit(s[6..]).value < 0xE000
      then Got((0x1_0000 + (u - 0xD800) * 0x400 + (Unit(s[6..]).value - 0xDC00)) as char, s[10..])
      else Fail
  }

  /** After a reverse solidus. */
  function ReadEscape(s: string): (p: Parsed<char>)
    ensures p.Got? ==> |p.rest| < |s|
  {
    if s == "" then Fail
    else match s[0]
      case '"' => Got('"', s[1..])
      case '\\' => Got('\\', s[1..])
      case '/' => Got('/', s[1..])
      case 'b' => Got(0x08 as char, s[1..])
      case 'f' => Got(0x0C as char, s[1..])
      case 'n' => Got(0x0A as char, s[1..])
      case 'r' => Got(0x0D as char, s[1..])
      case 't' => Got(0x09 as char, s[1..])
      case 'u' => ReadUnits(s[1..])
      case _ => Fail
  }

  function ReadChar(s: string): (p: Parsed<char>)
    ensures p.Got? ==> |p.rest| < |s|
  {
    if s == "" || s[0] as int < 0x20 || s[0] == '"' then Fail
    else if s[0] == '\\' then ReadEscape(s[1..])
    else Got(s[0], s[1..])
  }

  /** The rest of a string, up to and including the closing quotation mark. */
  function ReadChars(s: string): (p: Parsed<string>)
    ensures p.Got? ==> |p.rest| < |s|
    decreases |s|
  {
    if s != "" && s[0] == '"' then Got("", s[1..])
    else match ReadChar(s)
      case Fail => Fail
      case Got(c, rest) =>
        match ReadChars(rest)
        case Fail => Fail
        case Got(cs, rest') => Got([c] + cs, rest')
  }

  // ---- values ----

  function ReadStr(s: string): (p: Parsed<Json>)
    ensures p.Got? ==> |p.rest| < |s|
  {
    match ReadChars(s) case Fail => Fail case Got(x, rest) => Got(Str(x), rest)
  }

  lemma NumShrinks(s: string)
    ensures ReadNum(s).Got? ==> |ReadNum(s).rest| < |s|
  {
  }

  function ReadValue(text: string): (p: Parsed<Json>)
    ensures p.Got? ==> |p.rest| < |text|
    decreases |text|, 0
  {
    var s := Skip(text);
    NumShrinks(s);
    if s == "" then Fail
    else if s[0] == '"' then ReadStr(s[1..])
    else if s[0] == '[' then ReadArray(s[1..])
    else ReadNum(s)
  }

  /** After the opening bracket. */
  function ReadArray(s: string): (p: Parsed<Json>)
    ensures p.Got? ==> |p.rest| < |s|
    decreases |s|, 2
  {
    var t := Skip(s);
    if t != "" && t[0] == ']' then Got(Arr([]), t[1..])
    else match ReadItems(s) case Fail => Fail case Got(items, rest) => Got(Arr(items), rest)
  }

  /** One or more values between commas, up to and including the closing bracket. */
  function ReadItems(s: string): (p: Parsed<seq<Json>>)
    ensures p.Got? ==> |p.rest| < |s|
    decreases |s|, 1
  {
    match ReadValue(s)
    case Fail => Fail
    case Got(v, after) =>
      var t := Skip(after);
      if t == "" then Fail
      else if t[0] == ']' then Got([v], t[1..])
      else if t[0] != ',' then Fail
      else match ReadItems(t[1..])
        case Fail => Fail
        case Got(vs, rest) => Got([v] + vs, rest)
  }

  /** A text is one value, with white space around it. */
  function Read(text: string): Option<Json> {
    match ReadValue(text)
    case Fail => None
    case Got(v, rest) => if Skip(rest) == "" then Some(v) else None
  }
}
