/**
 Integer helpers that give Dafny's unbounded integers the meaning the
 firmware's C++ operators have on `int16_t`/`int32_t` values: division that
 truncates toward zero, arithmetic right shift, and the firmware's
 `constrain` macro.
 */
module FixedPoint {

  predicate IsInt16(x: int) {
    -0x8000 <= x < 0x8000
  }

  predicate IsInt32(x: int) {
    -0x8000_0000 <= x < 0x8000_0000
  }

  function Abs(x: int): (r: nat)
    ensures r == x || r == -x
  {
    if x < 0 then -x else x
  }

  function Min(a: int, b: int): int {
    if a <= b then a else b
  }

  function Max(a: int, b: int): int {
    if a <= b then b else a
  }

  /** Integer division as C and C++ define it: the quotient is truncated
      toward zero, so the remainder `a - q * b` is smaller than the divisor
      in magnitude and never has the opposite sign of the dividend. Dafny's
      own `/` is Euclidean (its remainder is never negative), so a negative
      dividend that leaves a remainder takes the quotient one step toward
      zero. */
  function CDiv(a: int, b: int): (q: int)
    requires b != 0
    ensures Abs(a - q * b) < Abs(b)
    ensures a - q * b == 0 || (a - q * b < 0 <==> a < 0)
  {
    var e := a / b;
    assert a == e * b + a % b;
    if 0 <= a || a % b == 0 then
      e
    else if 0 < b then
      assert (e + 1) * b == e * b + b;
      e + 1
    else
      assert (e - 1) * b == e * b - b;
      e - 1
  }

  lemma MulNonnegative(a: int, b: int)
    requires 0 <= a && 0 <= b
    ensures 0 <= a * b
  {
  }

  lemma AbsProductAtLeast(k: int, d: int)
    requires k != 0
    ensures Abs(k * d) >= Abs(d)
  {
    if k > 0 {
      MulNonnegative(k - 1, Abs(d));
      assert k * Abs(d) == (k - 1) * Abs(d) + Abs(d);
      assert Abs(k * d) == k * Abs(d);
    } else {
      MulNonnegative(-k - 1, Abs(d));
      assert (-k) * Abs(d) == (-k - 1) * Abs(d) + Abs(d);
      assert Abs(k * d) == (-k) * Abs(d);
    }
  }

  lemma CDivOfZero(b: int)
    requires b != 0
    ensures CDiv(0, b) == 0
  {
  }

  lemma AsrOfZero(k: nat)
    ensures Asr(0, k) == 0
  {
  }

  /** Dividing an exact multiple gives the factor back. */
  lemma CDivOfMultiple(x: int, d: int)
    requires d > 0
    ensures CDiv(x * d, d) == x
  {
    CDivBetween(x * d, x, x, d);
  }

  /** A truncated quotient of a value lying between `lo * d` and `hi * d`
      lies between `lo` and `hi`. */
  lemma CDivBetween(v: int, lo: int, hi: int, d: int)
    requires d > 0
    requires lo * d <= v <= hi * d
    ensures lo <= CDiv(v, d) <= hi
  {
    var q := CDiv(v, d);
    if q > hi {
      MulNonnegative(q - hi - 1, d);
      assert false;
    }
    if q < lo {
      MulNonnegative(lo - 1 - q, d);
      assert false;
    }
  }

  /** The magnitude of a truncated quotient never exceeds the dividend's. */
  lemma CDivShrinks(a: int, b: int)
    requires b != 0
    ensures Abs(CDiv(a, b)) <= Abs(a)
  {
    var q := CDiv(a, b);
    if q != 0 {
      var p := q * b;
      AbsProductAtLeast(q, b);
      AbsProductAtLeast(b, q);
      assert b * q == p;
      assert Abs(p) >= Abs(q);
      var r := a - p;
      assert Abs(r) < Abs(b) <= Abs(p);
      assert Abs(p) <= Abs(a);
    }
  }

  function Pow2(k: nat): (p: nat)
    ensures p >= 1
  {
    if k == 0 then 1 else 2 * Pow2(k - 1)
  }

  /** `x >> k` on a signed integer. The targets the firmware is built for
      shift signed values arithmetically, which is floor division by 2^k
      (Dafny's `/` by a positive divisor rounds down as well). */
  function Asr(x: int, k: nat): (r: int)
    ensures r * Pow2(k) <= x < (r + 1) * Pow2(k)
  {
    var p := Pow2(k);
    assert x == (x / p) * p + x % p;
    x / p
  }

  /** The firmware's `constrain(val, lo, hi)` macro, used as a complete
      expression: `val < lo ? lo : (val > hi ? hi : val)`. */
  function Constrain(val: int, lo: int, hi: int): (r: int)
    ensures lo <= hi ==> lo <= r <= hi
    ensures lo <= val <= hi ==> r == val
    ensures val < lo ==> r == lo
    ensures lo <= val && hi < val ==> r == hi
  {
    if val < lo then lo else if val > hi then hi else val
  }

  /** Quotient and remainder are unique: any `q * c + r` with `r` in
      `[0, c)` is Dafny's division of `a` by `c`. */
  lemma DivModUnique(a: int, c: int, q: int, r: int)
    requires 0 < c && 0 <= r < c
    requires a == q * c + r
    ensures a / c == q && a % c == r
  {
    var q', r' := a / c, a % c;
    assert a == q' * c + r';
    assert (q - q') * c == r' - r;
    if q != q' {
      AbsProductAtLeast(q - q', c);
      assert false;
    }
  }

  /** Counting modulo `c`: one more step wraps to zero exactly when the
      remainder reaches `c`. */
  lemma ModSuccessor(a: int, c: int)
    requires 0 < c
    ensures (a + 1) % c == if a % c + 1 == c then 0 else a % c + 1
  {
    var q, r := a / c, a % c;
    assert a == q * c + r;
    if r + 1 == c {
      DivModUnique(a + 1, c, q + 1, 0);
    } else {
      DivModUnique(a + 1, c, q, r + 1);
    }
  }

  lemma AbsOfProduct(a: int, b: int)
    ensures Abs(a * b) == Abs(a) * Abs(b)
  {
    if a < 0 && b < 0 {
      assert a * b == (-a) * (-b);
    } else if a < 0 {
      assert a * b == -((-a) * b);
    } else if b < 0 {
      assert a * b == -(a * (-b));
    }
  }

  lemma MulMonotone(x: int, bound: int, y: int)
    requires x <= bound && 0 <= y
    ensures x * y <= bound * y
  {
    MulNonnegative(bound - x, y);
    assert bound * y - x * y == (bound - x) * y;
  }

  lemma MulBound(a: int, boundA: nat, b: int, boundB: nat)
    requires Abs(a) <= boundA && Abs(b) <= boundB
    ensures Abs(a * b) <= boundA * boundB
  {
    AbsOfProduct(a, b);
    MulMonotone(Abs(a), boundA, Abs(b));
    MulMonotone(Abs(b), boundB, boundA);
    assert Abs(b) * boundA == boundA * Abs(b);
    assert boundB * boundA == boundA * boundB;
  }

  /** The truncated quotient times the divisor never exceeds the dividend
      in magnitude. */
  lemma CDivMagnitude(a: int, b: int)
    requires b != 0
    ensures Abs(CDiv(a, b) * b) <= Abs(a)
  {
    var q := CDiv(a, b);
    if q != 0 {
      var p := q * b;
      AbsProductAtLeast(q, b);
      var r := a - p;
      assert Abs(r) < Abs(b) <= Abs(p);
    }
  }

  /** An arithmetic shift never grows a value's magnitude. */
  lemma AsrShrinks(x: int, k: nat)
    ensures Abs(Asr(x, k)) <= Abs(x)
  {
    var r, p := Asr(x, k), Pow2(k);
    if r > 0 {
      MulNonnegative(r, p - 1);
      assert r <= r * p <= x;
    } else if r < 0 {
      MulNonnegative(-r - 1, p - 1);
      assert (r + 1) * p <= r + 1;
    }
  }
}
