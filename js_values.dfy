/**
 * The JavaScript values the board records carry, and the few built-ins of
 * the language that the geometry core relies on: `Number.parseFloat`,
 * `String#trim`, `String#toLowerCase`, `String#includes` and the decimal
 * rendering of an array index inside a template string.
 */
module JsValues {

  datatype Option<T> = None | Some(value: T)

  /** A point of the board plane, in millimetres. */
  datatype Point = Point(x: real, y: real)

  /** A JavaScript number: a finite value, NaN or one of the two infinities. */
  datatype JsNumber = Finite(value: real) | NaN | Infinity(negative: bool)

  /** `Number.isFinite` */
  predicate IsFinite(n: JsNumber) {
    n.Finite?
  }

  /** A record field typed `number | string` once it is present. */
  datatype NumOrStr = Num(n: real) | Str(s: string)

  /** `Math.PI` */
  const Pi: real := 3.141592653589793

  /** A number is falsy in JavaScript exactly when it is 0 (or NaN). */
  predicate Truthy(n: real) {
    n != 0.0
  }

  /** `value ?? fallback` on an optional number. */
  function OrElse(value: Option<real>, fallback: real): real {
    if value.Some? then value.value else fallback
  }

  /** `value || fallback` on an optional number: 0 falls back as well. */
  function OrIfFalsy(value: Option<real>, fallback: real): (r: real)
    ensures value.Some? && Truthy(value.value) ==> r == value.value
    ensures value.None? || !Truthy(value.value) ==> r == fallback
  {
    if value.Some? && Truthy(value.value) then value.value else fallback
  }

  /** `s || fallback` on an optional string: the empty string falls back. */
  function StrOrIfEmpty(s: Option<string>, fallback: string): (r: string)
    ensures s.Some? && s.value != "" ==> r == s.value
    ensures s.None? || s.value == "" ==> r == fallback
  {
    if s.Some? && s.value != "" then s.value else fallback
  }

  /**
   * `typeof raw === "number" ? raw : parseFloat(raw) || fallback` with
   * `raw = value ?? fallback`: a number is kept as it is (0 included), a
   * string is parsed and falls back when it is NaN or 0.
   */
  function NumberOrParsed(value: Option<NumOrStr>, fallback: real): real {
    match value
    case None => fallback
    case Some(Num(n)) => n
    case Some(Str(s)) => OrIfFalsy(ParseFloat(s), fallback)
  }

  /** `xs.filter(keep)`: the kept elements, in their order. */
  function Filter<T(!new)>(xs: seq<T>, keep: T -> bool): (r: seq<T>)
    ensures |r| <= |xs|
    ensures forall x :: x in r <==> x in xs && keep(x)
  {
    if xs == [] then []
    else
      var init := xs[..|xs| - 1];
      var last := xs[|xs| - 1];
      assert xs == init + [last];
      Filter(init, keep) + (if keep(last) then [last] else [])
  }

  /** Concatenation regrouped; called where the solver would otherwise prove it element by element. */
  lemma AppendAssociates<T>(a: seq<T>, b: seq<T>, c: seq<T>)
    ensures a + b + c == a + (b + c)
  {
  }

  /** `Math.abs` */
  function Abs(x: real): (r: real)
    ensures r >= 0.0 && (r == x || r == -x)
  {
    if x >= 0.0 then x else -x
  }

  /** `Math.min` on two finite numbers. */
  function Min(a: real, b: real): (r: real)
    ensures r <= a && r <= b && (r == a || r == b)
  {
    if a <= b then a else b
  }

  /** `Math.max` on two finite numbers. */
  function Max(a: real, b: real): (r: real)
    ensures r >= a && r >= b && (r == a || r == b)
  {
    if a >= b then a else b
  }

  // ---------------------------------------------------------------------
  // Characters and strings

  /** The characters `\s` matches and `String#trim` removes. */
  predicate IsWhitespace(c: char) {
    c == ' ' || c == '\t' || c == '\n' || c == '\r' || c == '\U{B}' || c == '\U{C}'
    || c == '\U{A0}' || c == '\U{1680}' || ('\U{2000}' <= c <= '\U{200A}')
    || c == '\U{2028}' || c == '\U{2029}' || c == '\U{202F}' || c == '\U{205F}'
    || c == '\U{3000}' || c == '\U{FEFF}'
  }

  predicate IsDigit(c: char) {
    '0' <= c <= '9'
  }

  function TrimStart(s: string): (r: string)
    ensures |r| <= |s| && r == s[|s| - |r|..]
    ensures r == [] || !IsWhitespace(r[0])
    ensures forall i :: 0 <= i < |s| - |r| ==> IsWhitespace(s[i])
  {
    if s != [] && IsWhitespace(s[0]) then TrimStart(s[1..]) else s
  }

  function TrimEnd(s: string): (r: string)
    ensures |r| <= |s| && r == s[..|r|]
    ensures r == [] || !IsWhitespace(r[|r| - 1])
    ensures forall i :: |r| <= i < |s| ==> IsWhitespace(s[i])
  {
    if s != [] && IsWhitespace(s[|s| - 1]) then TrimEnd(s[..|s| - 1]) else s
  }

  /** `String#trim` */
  function Trim(s: string): (r: string)
    ensures r == [] || (!IsWhitespace(r[0]) && !IsWhitespace(r[|r| - 1]))
  {
    TrimEnd(TrimStart(s))
  }

  /** `String#toLowerCase`, on the ASCII letters. */
  function LowerChar(c: char): (r: char)
    ensures 'A' <= c <= 'Z' ==> 'a' <= r <= 'z'
    ensures !('A' <= c <= 'Z') ==> r == c
  {
    if 'A' <= c <= 'Z' then (c as int + 32) as char else c
  }

  function ToLowerCase(s: string): (r: string)
    ensures |r| == |s|
    ensures forall i :: 0 <= i < |s| ==> r[i] == LowerChar(s[i])
  {
    if s == [] then [] else [LowerChar(s[0])] + ToLowerCase(s[1..])
  }

  /** `s.startsWith(p)` */
  predicate StartsWith(s: string, p: string) {
    |p| <= |s| && s[..|p|] == p
  }

  /** `s.endsWith(p)` */
  predicate EndsWith(s: string, p: string) {
    |p| <= |s| && s[|s| - |p|..] == p
  }

  /** `s.includes(sub)` */
  predicate Includes(s: string, sub: string)
    decreases |s|
  {
    StartsWith(s, sub) || (s != [] && Includes(s[1..], sub))
  }

  /** A text lacking one of the characters of `sub` does not include `sub`. */
  lemma {:induction false} MissingCharNotIncluded(s: string, sub: string, k: nat)
    requires k < |sub|
    requires forall i :: 0 <= i < |s| ==> s[i] != sub[k]
    ensures !Includes(s, sub)
    decreases |s|
  {
    if |sub| <= |s| {
      assert s[..|sub|][k] == s[k];
    }
    if s != [] {
      MissingCharNotIncluded(s[1..], sub, k);
    }
  }

  // ---------------------------------------------------------------------
  // Decimal numbers

  /** The value of a decimal digit; other characters never reach it and count as 0. */
  function DigitValue(c: char): nat {
    if IsDigit(c) then c as int - '0' as int else 0
  }

  function DigitChar(d: nat): (c: char)
    requires d < 10
    ensures IsDigit(c) && DigitValue(c) == d
  {
    ('0' as int + d) as char
  }

  /** The value of a string of decimal digits, most significant first. */
  function DigitsValue(d: string): nat {
    if d == [] then 0 else DigitsValue(d[..|d| - 1]) * 10 + DigitValue(d[|d| - 1])
  }

  /** `String(n)` for a non-negative integer: its shortest decimal spelling. */
  function NatToString(n: nat): (s: string)
    ensures |s| >= 1
    ensures forall i :: 0 <= i < |s| ==> IsDigit(s[i])
  {
    if n < 10 then [DigitChar(n)] else NatToString(n / 10) + [DigitChar(n % 10)]
  }

  /** Reading back the decimal spelling of an index gives the index. */
  lemma {:induction false} NatToStringValue(n: nat)
    ensures DigitsValue(NatToString(n)) == n
  {
    var s := NatToString(n);
    if n >= 10 {
      NatToStringValue(n / 10);
      assert s[..|s| - 1] == NatToString(n / 10);
    }
  }

  /** Distinct indices are spelled differently, so index-based keys never collide. */
  lemma NatToStringInjective(m: nat, n: nat)
    requires NatToString(m) == NatToString(n)
    ensures m == n
  {
    NatToStringValue(m);
    NatToStringValue(n);
  }

  /**
   * The phases of reading a decimal literal, as `parseFloat` reads one:
   * white space and an optional sign, then at least one digit, before or
   * after an optional `.`.
   */
  datatype Phase =
    | Leading   // skipping white space; a sign may come next
    | Unsigned  // after the sign: a digit or a `.` must come next
    | Whole     // inside the integer digits, at least one read
    | Dot       // after a `.` with no integer digit before it: a digit must come next
    | Fraction  // after a `.` that follows a digit, or inside the fraction digits

  /**
   * `Number.parseFloat` on a decimal literal: leading white space, an
   * optional sign, digits with an optional fraction; whatever follows the
   * literal is ignored. `None` stands for the NaN that parseFloat returns
   * when no digit starts the text.
   */
  function ParseFloat(s: string): Option<real> {
    Scan(s, Leading, false, 0.0, 1.0)
  }

  /**
   * Reads `s` from the given phase, left to right. `acc` is the magnitude
   * read so far and `scale` the place value of the next fraction digit;
   * the first character that cannot continue the literal ends it.
   */
  function Scan(s: string, phase: Phase, negative: bool, acc: real, scale: real): Option<real>
    decreases |s|, if phase == Leading then 1 else 0
  {
    var digit := s != [] && IsDigit(s[0]);
    var d := if digit then DigitValue(s[0]) as real else 0.0;
    var point := s != [] && s[0] == '.';
    match phase
    case Leading =>
      if s != [] && IsWhitespace(s[0]) then Scan(s[1..], Leading, negative, acc, scale)
      else if s != [] && (s[0] == '-' || s[0] == '+') then Scan(s[1..], Unsigned, s[0] == '-', acc, scale)
      else Scan(s, Unsigned, false, acc, scale)
    case Unsigned =>
      if digit then Scan(s[1..], Whole, negative, d, scale)
      else if point then Scan(s[1..], Dot, negative, acc, 0.1)
      else None
    case Whole =>
      if digit then Scan(s[1..], Whole, negative, acc * 10.0 + d, scale)
      else if point then Scan(s[1..], Fraction, negative, acc, 0.1)
      else Some(if negative then -acc else acc)
    case Dot =>
      if digit then Scan(s[1..], Fraction, negative, acc + d * scale, scale / 10.0)
      else None
    case Fraction =>
      if digit then Scan(s[1..], Fraction, negative, acc + d * scale, scale / 10.0)
      else Some(if negative then -acc else acc)
  }

  /** A number is only read from text that holds a digit. */
  lemma ParseFloatNeedsDigit(s: string)
    ensures ParseFloat(s).Some? ==> exists i :: 0 <= i < |s| && IsDigit(s[i])
  {
    ScanNeedsDigit(s, Leading, false, 0.0, 1.0);
  }

  /** Until a digit has been read, the scan gives a number only if a digit is still to come. */
  lemma {:induction false} ScanNeedsDigit(s: string, phase: Phase, negative: bool, acc: real, scale: real)
    requires phase == Leading || phase == Unsigned || phase == Dot
    ensures Scan(s, phase, negative, acc, scale).Some? ==> exists i :: 0 <= i < |s| && IsDigit(s[i])
    decreases |s|, if phase == Leading then 1 else 0
  {
    if s != [] && IsDigit(s[0]) {
      assert IsDigit(s[0]);
    } else if phase == Leading {
      if s != [] && IsWhitespace(s[0]) {
        ScanNeedsDigit(s[1..], Leading, negative, acc, scale);
        DigitInTail(s, Scan(s, phase, negative, acc, scale).Some?);
      } else if s != [] && (s[0] == '-' || s[0] == '+') {
        ScanNeedsDigit(s[1..], Unsigned, s[0] == '-', acc, scale);
        DigitInTail(s, Scan(s, phase, negative, acc, scale).Some?);
      } else {
        ScanNeedsDigit(s, Unsigned, false, acc, scale);
      }
    } else if phase == Unsigned && s != [] && s[0] == '.' {
      ScanNeedsDigit(s[1..], Dot, negative, acc, 0.1);
      DigitInTail(s, Scan(s, phase, negative, acc, scale).Some?);
    }
  }

  /** When `holds`, a digit of the tail is a digit of the whole text. */
  lemma DigitInTail(s: string, holds: bool)
    requires s != []
    requires holds ==> exists i :: 0 <= i < |s[1..]| && IsDigit(s[1..][i])
    ensures holds ==> exists i :: 0 <= i < |s| && IsDigit(s[i])
  {
    if holds {
      var i :| 0 <= i < |s[1..]| && IsDigit(s[1..][i]);
      assert IsDigit(s[i + 1]);
    }
  }

  /** The text of an index parses back to the index. */
  lemma ParseFloatOfNatToString(n: nat)
    ensures ParseFloat(NatToString(n)) == Some(n as real)
  {
    ParseFloatOfDigits(NatToString(n));
    NatToStringValue(n);
  }

  /** A non-empty run of digits parses to its decimal value. */
  lemma ParseFloatOfDigits(s: string)
    requires |s| >= 1 && forall i :: 0 <= i < |s| ==> IsDigit(s[i])
    ensures ParseFloat(s) == Some(DigitsValue(s) as real)
  {
    DigitsAreUntrimmed(s);
    var first := DigitValue(s[0]) as real;
    assert ParseFloat(s) == Scan(s, Unsigned, false, 0.0, 1.0);
    assert Scan(s, Unsigned, false, 0.0, 1.0) == Scan(s[1..], Whole, false, first, 1.0);
    assert Scan(s, Whole, false, 0.0, 1.0) == Scan(s[1..], Whole, false, 0.0 * 10.0 + first, 1.0);
    ScanOfDigits(s);
  }

  lemma DigitsAreUntrimmed(s: string)
    requires |s| >= 1 && IsDigit(s[0])
    ensures !IsWhitespace(s[0]) && s[0] != '-' && s[0] != '+' && s[0] != '.'
  {
  }

  /** Read as integer digits, a run of digits has its decimal value. */
  lemma {:induction false} ScanOfDigits(d: string)
    requires forall i :: 0 <= i < |d| ==> IsDigit(d[i])
    ensures Scan(d, Whole, false, 0.0, 1.0) == Some(DigitsValue(d) as real)
  {
    if d != [] {
      var init := d[..|d| - 1];
      ScanOfDigits(init);
      ScanAppendDigit(init, d[|d| - 1], 0.0);
      assert init + [d[|d| - 1]] == d;
    }
  }

  /** One more integer digit at the end shifts the value read by one place. */
  lemma {:induction false} ScanAppendDigit(d: string, c: char, acc: real)
    requires forall i :: 0 <= i < |d| ==> IsDigit(d[i])
    requires IsDigit(c)
    ensures Scan(d, Whole, false, acc, 1.0).Some?
    ensures Scan(d + [c], Whole, false, acc, 1.0)
            == Some(Scan(d, Whole, false, acc, 1.0).value * 10.0 + DigitValue(c) as real)
  {
    if d == [] {
      assert [c][1..] == [];
    } else {
      assert (d + [c])[1..] == d[1..] + [c];
      ScanAppendDigit(d[1..], c, acc * 10.0 + DigitValue(d[0]) as real);
    }
  }

  /** Text with no digit at all parses to NaN. */
  lemma ParseFloatWithoutDigits(s: string)
    requires forall i :: 0 <= i < |s| ==> !IsDigit(s[i])
    ensures ParseFloat(s) == None
  {
    ParseFloatNeedsDigit(s);
  }

}
