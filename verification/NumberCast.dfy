/** The cast from a JavaScript number to an unsigned 64-bit integer.

    A finite double is a real number on the grid of IEEE 754 binary64: m * 2^e with |m| < 2^53 and
    -1074 <= e <= 971. The cast relies on `nextafter`, which is described by what it is, the nearest
    grid point in a direction. */
module NumberCast {
  datatype Double = NaN | Infinite(negative: bool) | Finite(value: real)

  const TWO_64: int := 0x1_0000_0000_0000_0000
  const MAX_UINT64: int := 0xFFFF_FFFF_FFFF_FFFF
  const MAX_SAFE_INTEGER: int := 0x1F_FFFF_FFFF_FFFF

  newtype uint64 = x: int | 0 <= x < TWO_64

  function Pow2(n: nat): (r: int)
    ensures r >= 1
  {
    if n == 0 then 1 else 2 * Pow2(n - 1)
  }

  function Scaled(m: int, e: int): real {
    if e >= 0 then (m * Pow2(e)) as real else m as real / Pow2(-e) as real
  }

  ghost predicate OnGrid(x: real) {
    exists m, e :: -0x20_0000_0000_0000 < m < 0x20_0000_0000_0000 && -1074 <= e <= 971 && Scaled(m, e) == x
  }

  // The grid is finite.
  ghost function Grid(): (g: set<real>)
    ensures forall x :: x in g <==> OnGrid(x)
  {
    set m, e | -0x20_0000_0000_0000 < m < 0x20_0000_0000_0000 && -1074 <= e <= 971 :: Scaled(m, e)
  }

  // What the proofs need of the grid of doubles.
  ghost predicate HasPowers(g: set<real>) {
    TWO_64 as real in g && 0.0 in g && 0.0 - 0.5 in g
  }

  ghost predicate Least(s: set<real>, y: real) {
    y in s && forall x :: x in s ==> y <= x
  }

  ghost predicate Greatest(s: set<real>, y: real) {
    y in s && forall x :: x in s ==> x <= y
  }

  ghost function GridAbove(g: set<real>, v: real): set<real> {
    set x | x in g && x > v
  }

  ghost function GridBelow(g: set<real>, v: real): set<real> {
    set x | x in g && x < v
  }

  // `up` is nextafter(d, infinity): the nearest double above d.
  ghost predicate IsNextUp(g: set<real>, d: Double, up: Double) {
    match d
    case NaN => up.NaN?
    case Infinite(negative) => if negative then up.Finite? && Least(g, up.value) else up == d
    case Finite(v) =>
      if exists x :: x in GridAbove(g, v) then up.Finite? && Least(GridAbove(g, v), up.value) else up == Infinite(false)
  }

  // `next` is nextafter(d, -0.0): one step towards zero. Zero itself goes to minus zero, which is
  // not smaller than zero.
  ghost predicate IsNextToZero(g: set<real>, d: Double, next: Double) {
    match d
    case NaN => next.NaN?
    case Infinite(negative) => next.Finite? && (if negative then Least(g, next.value) else Greatest(g, next.value))
    case Finite(v) =>
      if v == 0.0 then next == d
      else if v < 0.0 then next.Finite? && Least(GridAbove(g, v), next.value)
      else next.Finite? && Greatest(GridBelow(g, v), next.value)
  }

  lemma Power64()
    ensures Pow2(64) == TWO_64
  {
    assert Pow2(8) == 256;
    assert Pow2(16) == 0x1_0000 by { PowAdd(8, 8); }
    assert Pow2(32) == 0x1_0000_0000 by { PowAdd(16, 16); }
    PowAdd(32, 32);
  }

  lemma PowersOnGrid()
    ensures HasPowers(Grid())
  {
    Power64();
    assert Scaled(1, 64) == TWO_64 as real;
    assert Pow2(0) == 1 && Scaled(0, 0) == 0.0;
    assert Pow2(1) == 2 && Scaled(-1, -1) == 0.0 - 0.5;
  }

  lemma {:induction false} PowAdd(a: nat, b: nat)
    ensures Pow2(a + b) == Pow2(a) * Pow2(b)
  {
    if a > 0 {
      PowAdd(a - 1, b);
    }
  }

  // ----- nextafter is defined for every double -----------------------------------------------------

  lemma {:induction false} LeastExists(s: set<real>)
    requires exists x :: x in s
    ensures exists y :: Least(s, y)
    decreases |s|
  {
    var x :| x in s;
    if forall w :: w in s ==> w == x {
      assert Least(s, x);
    } else {
      var other :| other in s && other != x;
      var rest := s - {x};
      assert other in rest;
      LeastExists(rest);
      var z :| Least(rest, z);
      forall w | w in s ensures w == x || w in rest {}
      assert Least(s, if z < x then z else x);
    }
  }

  lemma {:induction false} GreatestExists(s: set<real>)
    requires exists x :: x in s
    ensures exists y :: Greatest(s, y)
    decreases |s|
  {
    var x :| x in s;
    if forall w :: w in s ==> w == x {
      assert Greatest(s, x);
    } else {
      var other :| other in s && other != x;
      var rest := s - {x};
      assert other in rest;
      GreatestExists(rest);
      var z :| Greatest(rest, z);
      forall w | w in s ensures w == x || w in rest {}
      assert Greatest(s, if z > x then z else x);
    }
  }

  // Both neighbours of every double exist, on any finite grid that has zero.
  lemma NextAfterExists(g: set<real>, d: Double)
    requires 0.0 in g
    ensures exists up :: IsNextUp(g, d, up)
    ensures exists next :: IsNextToZero(g, d, next)
  {
    LeastExists(g);
    GreatestExists(g);
    var least :| Least(g, least);
    var greatest :| Greatest(g, greatest);
    match d
    case NaN =>
      assert IsNextUp(g, d, NaN) && IsNextToZero(g, d, NaN);
    case Infinite(negative) =>
      assert IsNextUp(g, d, if negative then Finite(least) else d);
      assert IsNextToZero(g, d, Finite(if negative then least else greatest));
    case Finite(v) =>
      NextUpExists(g, v);
      NextToZeroExists(g, v);
  }

  lemma NextUpExists(g: set<real>, v: real)
    ensures exists up :: IsNextUp(g, Finite(v), up)
  {
    if forall x :: x !in GridAbove(g, v) {
      assert IsNextUp(g, Finite(v), Infinite(false));
    } else {
      LeastExists(GridAbove(g, v));
      var y :| Least(GridAbove(g, v), y);
      assert IsNextUp(g, Finite(v), Finite(y));
    }
  }

  lemma NextToZeroExists(g: set<real>, v: real)
    requires 0.0 in g
    ensures exists next :: IsNextToZero(g, Finite(v), next)
  {
    if v < 0.0 {
      assert 0.0 in GridAbove(g, v);
      LeastExists(GridAbove(g, v));
      var y :| Least(GridAbove(g, v), y);
      assert IsNextToZero(g, Finite(v), Finite(y));
    } else if v > 0.0 {
      assert 0.0 in GridBelow(g, v);
      GreatestExists(GridBelow(g, v));
      var y :| Greatest(GridBelow(g, v), y);
      assert IsNextToZero(g, Finite(v), Finite(y));
    } else {
      assert IsNextToZero(g, Finite(v), Finite(v));
    }
  }

  // Comparisons with NaN are false.
  predicate Below(d: Double, x: real) {
    match d
    case NaN => false
    case Infinite(negative) => negative
    case Finite(v) => v < x
  }

  predicate Above(d: Double, x: real) {
    match d
    case NaN => false
    case Infinite(negative) => !negative
    case Finite(v) => v > x
  }

  // static_cast<uint64_t> of a double: defined when the truncated value is in range.
  function Truncated(v: real): int {
    if v >= 0.0 then v.Floor else -((-v).Floor)
  }

  // The specified result: the number truncated and clamped to the range of the integer.
  function Clamped(d: Double): int
    requires !d.NaN?
  {
    match d
    case Infinite(negative) => if negative then 0 else MAX_UINT64
    case Finite(v) => if Truncated(v) < 0 then 0 else if Truncated(v) > MAX_UINT64 then MAX_UINT64 else Truncated(v)
  }

  // r is the whole part of a number in the range of the integer, and the end of the range for any other.
  predicate IsCast(d: Double, r: int) {
    match d
    case NaN => false
    case Infinite(negative) => r == if negative then 0 else 0xFFFF_FFFF_FFFF_FFFF
    case Finite(v) =>
      if v <= 0.0 then r == 0
      else if v >= 18446744073709551616.0 then r == 0xFFFF_FFFF_FFFF_FFFF
      else r as real <= v < r as real + 1.0
  }

  lemma ClampedIff(d: Double, r: int)
    requires !d.NaN?
    ensures Clamped(d) == r <==> IsCast(d, r)
  {
    if d.Finite? {
      var v := d.value;
      if v < 0.0 {
        TruncatedBelowZero(v);
      } else if r as real <= v < r as real + 1.0 {
        assert v.Floor == r;
      }
    }
  }

  // A larger number never becomes a smaller integer.
  lemma ClampedIsMonotone(v: real, u: real)
    requires v <= u
    ensures Clamped(Finite(v)) <= Clamped(Finite(u))
  {
    ClampedIff(Finite(v), Clamped(Finite(v)));
    ClampedIff(Finite(u), Clamped(Finite(u)));
  }

  // The first test of the cast: it catches the numbers that truncate to something negative, and
  // others whose result is zero anyway.
  lemma LowerTest(g: set<real>, d: Double, next: Double)
    requires HasPowers(g) && !d.NaN? && IsNextToZero(g, d, next)
    ensures Below(next, 0.0) ==> Clamped(d) == 0 && Below(d, 0.0)
    ensures !Below(next, 0.0) ==> d == Infinite(false) || (d.Finite? && d.value > -1.0)
  {
    match d
    case Infinite(negative) =>
      assert if negative then next.value <= 0.0 - 0.5 else next.value >= TWO_64 as real;
    case Finite(v) =>
      if v < 0.0 {
        TruncatedBelowZero(v);
        assert v <= -1.0 ==> 0.0 - 0.5 in GridAbove(g, v);
      } else if v > 0.0 {
        assert 0.0 in GridBelow(g, v);
      }
  }

  lemma TruncatedBelowZero(v: real)
    requires v < 0.0
    ensures Truncated(v) <= 0 && (v > -1.0 ==> Truncated(v) == 0)
  {
    assert (-v).Floor >= 0;
  }

  // The second test is exact, because 2^64 is on the grid.
  lemma UpperTest(g: set<real>, d: Double, up: Double)
    requires HasPowers(g) && !d.NaN? && IsNextUp(g, d, up)
    ensures Above(up, TWO_64 as real) <==> d == Infinite(false) || (d.Finite? && d.value >= TWO_64 as real)
  {
    match d
    case Infinite(negative) =>
      assert negative ==> up.value <= 0.0 - 0.5;
    case Finite(v) =>
      if v < TWO_64 as real {
        assert TWO_64 as real in GridAbove(g, v);
      }
  }

  // NumberCast<uint64_t>: for every double but NaN it gives the clamped number, and the final
  // conversion is reached only with a number it is defined for. `g` is the grid of doubles.
  method CastToUint64(value: Double, nextToZero: Double, nextUp: Double, ghost g: set<real>)
    returns (r: uint64, warned: bool)
    requires HasPowers(g) && !value.NaN? && IsNextToZero(g, value, nextToZero) && IsNextUp(g, value, nextUp)
    ensures r as int == Clamped(value) && IsCast(value, r as int)
    ensures warned <==> Above(value, MAX_SAFE_INTEGER as real)
  {
    ClampedIff(value, Clamped(value));
    LowerTest(g, value, nextToZero);
    UpperTest(g, value, nextUp);
    warned := false;
    if Below(nextToZero, 0.0) {
      return 0, false;
    }
    if Above(value, MAX_SAFE_INTEGER as real) {
      warned := true;
    }
    // The largest integer becomes 2^64 when it is compared with a double.
    if Above(nextUp, TWO_64 as real) {
      return MAX_UINT64 as uint64, warned;
    }
    if value.value < 0.0 {
      TruncatedBelowZero(value.value);
    }
    r := Truncated(value.value) as uint64;
  }
}
