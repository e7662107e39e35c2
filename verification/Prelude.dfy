/** Vocabulary shared by every module: optional values, results, decimal text. */
module Prelude {
  datatype Option<T> = None | Some(value: T) {
    function GetOr(default: T): T {
      if Some? then value else default
    }
  }

  datatype Result<+T, +E> = Ok(value: T) | Err(error: E)

  function SaturatingSub(a: nat, b: nat): nat {
    if a < b then 0 else a - b
  }

  /** Unicode White_Space, as Rust's `trim` uses it. */
  predicate IsWhitespace(c: char) {
    || '\U{9}' <= c <= '\U{d}' || c in {' ', '\U{85}', '\U{a0}', '\U{1680}'}
    || '\U{2000}' <= c <= '\U{200a}' || c in {'\U{2028}', '\U{2029}', '\U{202f}', '\U{205f}', '\U{3000}'}
  }

  predicate Blank(s: string) {
    forall i | 0 <= i < |s| :: IsWhitespace(s[i])
  }

  /** Decimal digits of a natural number, as Rust's `{}` prints it. */
  function Digits(n: nat): (s: string)
    ensures s != [] && forall i | 0 <= i < |s| :: IsDigit(s[i])
    ensures s[0] == '0' ==> n == 0
  {
    if n < 10 then [DigitChar(n)] else Digits(n / 10) + [DigitChar(n % 10)]
  }

  predicate IsDigit(c: char) {
    '0' <= c <= '9'
  }

  function DigitChar(d: nat): (c: char)
    requires d < 10
    ensures IsDigit(c) && DigitValue(c) == d
  {
    '0' + d as char
  }

  function DigitValue(c: char): (d: nat)
    requires IsDigit(c)
    ensures d < 10
  {
    (c - '0') as nat
  }

  /** The number a run of digits denotes. */
  function Number(s: string): (n: nat)
    requires forall i | 0 <= i < |s| :: IsDigit(s[i])
  {
    if s == [] then 0 else 10 * Number(s[..|s| - 1]) + DigitValue(s[|s| - 1])
  }

  lemma {:induction false} NumberOfDigits(n: nat)
    ensures Number(Digits(n)) == n
  {
    var s := Digits(n);
    if n < 10 {
      assert s[..|s| - 1] == [];
    } else {
      NumberOfDigits(n / 10);
      assert s[..|s| - 1] == Digits(n / 10);
    }
  }

  /** The number some digits say, up to a largest value. */
  function Unsigned(digits: string, max: nat): (r: Option<nat>)
    ensures r.Some? ==> r.value <= max
  {
    if digits != [] && (forall i | 0 <= i < |digits| :: IsDigit(digits[i])) && Number(digits) <= max then Some(Number(digits))
    else None
  }

  /** An unsigned number as Rust parses it: an optional plus sign, then digits, up to a largest value. */
  function ParseUnsigned(s: string, max: nat): (r: Option<nat>)
    ensures r.Some? ==> r.value <= max
  {
    Unsigned(if s != [] && s[0] == '+' then s[1..] else s, max)
  }

  /** A set of numbers that is not empty has a least one. */
  lemma {:induction false} LeastExists(keys: set<nat>) returns (least: nat)
    requires keys != {}
    ensures least in keys && forall k | k in keys :: least <= k
    decreases |keys|
  {
    var k :| k in keys;
    if keys == {k} {
      least := k;
    } else {
      var other := LeastExists(keys - {k});
      least := if k < other then k else other;
      forall j | j in keys ensures least <= j {
        assert j == k || j in keys - {k};
      }
    }
  }
}
