/** The Option datatype used for JavaScript's `null`/`undefined`/NaN. */
module Wrappers {

  datatype Option<+T> = None | Some(value: T)
}

/**
 * The handful of JavaScript operator semantics the game logic relies on,
 * written out over unbounded integers: 32-bit conversion, the truncating
 * remainder, truthiness of optional numbers and strings, `Math.floor` of a
 * random draw, `String.prototype.includes` and the `YYYY-MM-DD` prefix of an
 * ISO timestamp.
 */
module JsOps {
  import opened Wrappers

  const TWO_31: int := 0x8000_0000
  const TWO_32: int := 0x1_0000_0000

  predicate IsInt32(x: int) {
    -TWO_31 <= x < TWO_31
  }

  /** ECMAScript ToInt32 on an integer: wrap modulo 2^32 into the signed range. */
  function ToInt32(x: int): (r: int)
    ensures IsInt32(r)
    ensures (x - r) % TWO_32 == 0
  {
    var m := x % TWO_32;
    if m >= TWO_31 then m - TWO_32 else m
  }

  /** ToInt32 is the identity on signed 32-bit values. */
  lemma ToInt32OfInt32(x: int)
    requires IsInt32(x)
    ensures ToInt32(x) == x
  {
    if x < 0 {
      assert x % TWO_32 == x + TWO_32;
    }
  }

  /** Two integers congruent modulo 2^32 have the same ToInt32. */
  lemma ToInt32Congruent(x: int, y: int)
    requires (x - y) % TWO_32 == 0
    ensures ToInt32(x) == ToInt32(y)
  {
    var k := (x - y) / TWO_32;
    assert x == y + k * TWO_32;
    ModuloShift(y, k);
  }

  lemma ModuloShift(y: int, k: int)
    ensures (y + k * TWO_32) % TWO_32 == y % TWO_32
  {
  }

  function Abs(x: int): (r: nat)
    ensures r == x || r == -x
  {
    if x < 0 then -x else x
  }

  /**
   * The `%` operator of JavaScript on integers, for a positive divisor: the
   * remainder of truncating division, carrying the sign of the dividend.
   */
  function JsRem(a: int, b: int): (r: int)
    requires b > 0
    ensures Abs(r) == Abs(a) % b
    ensures a >= 0 ==> r >= 0
    ensures a <= 0 ==> r <= 0
  {
    if a >= 0 then a % b else -((-a) % b)
  }

  /** The truncating remainder is odd in its dividend. */
  lemma JsRemNegate(a: int, b: int)
    requires b > 0
    ensures JsRem(-a, b) == -JsRem(a, b)
  {
  }

  /** Truthiness of an optional number: `undefined`, `null` and `0` are falsy. */
  predicate Truthy(x: Option<int>) {
    x.Some? && x.value != 0
  }

  /** Truthiness of an optional string: `undefined`, `null` and `""` are falsy. */
  predicate TruthyString(s: Option<string>) {
    s.Some? && s.value != ""
  }

  /** `x || d` for an optional number. */
  function OrElse(x: Option<int>, d: int): (r: int)
    ensures Truthy(x) ==> r == x.value
    ensures !Truthy(x) ==> r == d
  {
    if Truthy(x) then x.value else d
  }

  function Min(a: int, b: int): (r: int)
    ensures r <= a && r <= b && (r == a || r == b)
  {
    if a <= b then a else b
  }

  function Max(a: int, b: int): (r: int)
    ensures r >= a && r >= b && (r == a || r == b)
  {
    if a >= b then a else b
  }

  /** `best ? Math.min(best, value) : value`: a running minimum where a falsy best (missing or 0) is unset. */
  function TruthyMin(best: Option<int>, value: int): (r: int)
    ensures Truthy(best) ==> r == Min(best.value, value)
    ensures !Truthy(best) ==> r == value
    ensures r <= value
  {
    if Truthy(best) then Min(best.value, value) else value
  }

  /** `Math.floor(r * n)` for a draw `r` of `Math.random()`, read as an exact real. */
  function FloorDraw(r: real, n: int): (k: int)
    requires 0.0 <= r < 1.0
    ensures n >= 1 ==> 0 <= k < n
  {
    DrawBelow(r, n);
    (r * n as real).Floor
  }

  lemma DrawBelow(r: real, n: int)
    requires 0.0 <= r < 1.0
    ensures n >= 1 ==> 0.0 <= r * n as real < n as real
  {
    if n >= 1 {
      assert r * n as real <= 1.0 * n as real by {
        assert (1.0 - r) * n as real >= 0.0;
      }
      assert (1.0 - r) * n as real > 0.0;
    }
  }

  /** `s.includes(sub)`: `sub` occurs in `s` as a contiguous block. */
  predicate Includes(s: string, sub: string)
    decreases |s|
  {
    (|sub| <= |s| && s[..|sub|] == sub) || (|s| > 0 && Includes(s[1..], sub))
  }

  /** `s.split('T')[0]`: the part of `s` before its first `T`. */
  function DatePart(s: string): (d: string)
    ensures d <= s
    ensures 'T' !in d
    ensures |d| < |s| ==> s[|d|] == 'T'
  {
    if s == [] || s[0] == 'T' then [] else [s[0]] + DatePart(s[1..])
  }
}
