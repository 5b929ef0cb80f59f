/**
 * The few pieces of JavaScript runtime behaviour that the pages rely on:
 * optional values (`null`/`undefined`), numbers that may be NaN, truthiness,
 * strict equality, `Number(string)`, `Number.prototype.toString` on integers
 * and `String.prototype.split` with a one-character separator.
 */
module Js {

  /** A value that may be absent (`null` or `undefined` in the source). */
  datatype Option<T> = None | Some(value: T)

  /** A JavaScript number as far as the pages use one: an integer or NaN. */
  datatype JsNumber = Num(n: int) | NaN

  /** Truthiness of a number (`!x` is false exactly for these): 0 and NaN are falsy. */
  predicate Truthy(x: JsNumber) {
    x.Num? && x.n != 0
  }

  /** Truthiness of an optional string: `null`, `undefined` and "" are falsy. */
  predicate TruthyText(s: Option<string>) {
    s.Some? && s.value != ""
  }

  /** `a === b` on numbers: NaN is equal to nothing, itself included. */
  predicate StrictEquals(a: JsNumber, b: JsNumber) {
    a.Num? && b.Num? && a.n == b.n
  }

  // ---------------------------------------------------------------------
  // Decimal text of integers: `n.toString()` and `Number(text)`
  // ---------------------------------------------------------------------

  predicate IsDigit(c: char) {
    '0' <= c <= '9'
  }

  predicate AllDigits(s: string) {
    forall i :: 0 <= i < |s| ==> IsDigit(s[i])
  }

  function DigitValue(c: char): (d: nat)
    requires IsDigit(c)
    ensures d < 10
  {
    c as int - '0' as int
  }

  function DigitChar(d: nat): (c: char)
    requires d < 10
    ensures IsDigit(c) && DigitValue(c) == d
  {
    (d + '0' as int) as char
  }

  /** The decimal digits of a natural number, most significant first, without leading zeros. */
  function NatToString(n: nat): (s: string)
    ensures |s| > 0 && AllDigits(s)
    ensures s[0] == '0' ==> n == 0
    decreases n
  {
    if n < 10 then [DigitChar(n)] else NatToString(n / 10) + [DigitChar(n % 10)]
  }

  /** The value of a string of decimal digits (leading zeros allowed, "" is 0). */
  function ParseDigits(s: string): nat
    requires AllDigits(s)
  {
    if s == [] then 0 else 10 * ParseDigits(s[..|s| - 1]) + DigitValue(s[|s| - 1])
  }

  /** `n.toString()` for an integer `n`. */
  function IntToString(n: int): (s: string)
    ensures |s| > 0
    ensures s[0] == '-' <==> n < 0
  {
    if n < 0 then "-" + NatToString(-n) else NatToString(n)
  }

  /**
   * `Number(item)` where `item` is what `localStorage.getItem` returned:
   * `Number(null)` and `Number("")` are 0, an optionally negated string of
   * decimal digits is its value, and any other string is NaN.
   */
  function NumberOf(item: Option<string>): JsNumber {
    match item
    case None => Num(0)
    case Some(s) =>
      if s == "" then Num(0)
      else if s[0] == '-' && |s| > 1 && AllDigits(s[1..]) then Num(-(ParseDigits(s[1..]) as int))
      else if AllDigits(s) then Num(ParseDigits(s))
      else NaN
  }

  lemma {:induction false} ParseNatToString(n: nat)
    ensures ParseDigits(NatToString(n)) == n
  {
    if n >= 10 {
      var s := NatToString(n);
      assert s[..|s| - 1] == NatToString(n / 10);
      ParseNatToString(n / 10);
    }
  }

  /** Reading back what `n.toString()` wrote gives `n` again. */
  lemma NumberOfIntToString(n: int)
    ensures NumberOf(Some(IntToString(n))) == Num(n)
  {
    var s := IntToString(n);
    if n < 0 {
      assert s[1..] == NatToString(-n);
      ParseNatToString(-n);
    } else {
      ParseNatToString(n);
    }
  }

  // ---------------------------------------------------------------------
  // `String.prototype.split` with a one-character separator
  // ---------------------------------------------------------------------

  /** The position of the first `c` in `s`. */
  function IndexOf(s: string, c: char): (i: nat)
    requires c in s
    ensures i < |s| && s[i] == c && c !in s[..i]
  {
    if s[0] == c then 0 else 1 + IndexOf(s[1..], c)
  }

  /** `parts.join(sep)`, also what a template literal `${a}-${b}` builds. */
  function Join(parts: seq<string>, sep: char): string
    requires |parts| >= 1
  {
    if |parts| == 1 then parts[0] else parts[0] + [sep] + Join(parts[1..], sep)
  }

  /** A join of two or more pieces starts with the first two pieces and the separator between them. */
  lemma JoinPrefix(parts: seq<string>, sep: char)
    requires |parts| >= 2
    ensures parts[0] + [sep] + parts[1] <= Join(parts, sep)
  {
    var tail := Join(parts[1..], sep);
    assert Join(parts, sep) == parts[0] + [sep] + tail;
    if |parts| == 2 {
      assert tail == parts[1];
    } else {
      assert parts[1..][1..] == parts[2..];
      assert tail == parts[1] + [sep] + Join(parts[2..], sep);
      assert Join(parts, sep) == (parts[0] + [sep] + parts[1]) + ([sep] + Join(parts[2..], sep));
    }
  }

  /** `s.split(sep)`: the maximal pieces of `s` between occurrences of `sep`. */
  function Split(s: string, sep: char): (parts: seq<string>)
    ensures |parts| >= 1
    ensures forall i :: 0 <= i < |parts| ==> sep !in parts[i]
    ensures Join(parts, sep) == s
    decreases |s|
  {
    if sep !in s then [s]
    else
      var i := IndexOf(s, sep);
      [s[..i]] + Split(s[i + 1..], sep)
  }

  /** Splitting a join of separator-free pieces gives the pieces back. */
  lemma {:induction false} SplitJoin(parts: seq<string>, sep: char)
    requires |parts| >= 1
    requires forall i :: 0 <= i < |parts| ==> sep !in parts[i]
    ensures Split(Join(parts, sep), sep) == parts
  {
    if |parts| > 1 {
      var s := Join(parts, sep);
      var rest := Join(parts[1..], sep);
      assert s == parts[0] + [sep] + rest;
      assert sep in s by { assert s[|parts[0]|] == sep; }
      var i := IndexOf(s, sep);
      assert s[..|parts[0]|] == parts[0];
      assert i == |parts[0]|;
      assert s[..i] == parts[0];
      assert s[i + 1..] == rest;
      SplitJoin(parts[1..], sep);
    }
  }
}
