/**
 * The scalar lane types of the vector tests: the fixed-width signed integers int32_t and
 * int64_t, with C++ two's-complement wrap-around and C++ division (quotient truncated
 * toward zero).
 */
module Lanes {
  import Arith

  datatype LaneType = Int32 | Int64

  function Modulus(t: LaneType): (m: int)
    ensures m > 0
  {
    match t
    case Int32 => 0x1_0000_0000
    case Int64 => 0x1_0000_0000_0000_0000
  }

  function MinValue(t: LaneType): int { -(Modulus(t) / 2) }

  function MaxValue(t: LaneType): int { Modulus(t) / 2 - 1 }

  predicate InRange(t: LaneType, x: int) { MinValue(t) <= x <= MaxValue(t) }

  /** Every int32 value is an int64 value. */
  lemma Int32WithinAll(t: LaneType, x: int)
    requires InRange(Int32, x)
    ensures InRange(t, x)
  {
  }

  /** Two's-complement reduction of an exact integer result to the width of `t`. */
  function Wrap(t: LaneType, x: int): (r: int)
    ensures InRange(t, r)
    ensures (x - r) % Modulus(t) == 0
  {
    var h := Modulus(t) / 2;
    (x + h) % Modulus(t) - h
  }

  /** The conversion of an integer value to the lane type `t` (an assignment or
      initialisation of a T from a wider or narrower integer): the value itself when it fits,
      and otherwise the value of `t` congruent to it modulo 2^bits. */
  function Convert(t: LaneType, x: int): (r: int)
    ensures InRange(t, r)
    ensures (x - r) % Modulus(t) == 0
    ensures InRange(t, x) ==> r == x
  {
    if InRange(t, x) then x else Wrap(t, x)
  }

  /** `Wrap` is the only value of the lane type congruent to `x`: it is exactly what the
      hardware produces, whatever representative of the residue class is asked for. */
  lemma {:induction false} WrapUnique(t: LaneType, x: int, y: int)
    requires InRange(t, y) && (x - y) % Modulus(t) == 0
    ensures Wrap(t, x) == y
  {
    var m, r := Modulus(t), Wrap(t, x);
    var d := (r - y) / m;
    assert (r - y) % m == 0 by {
      assert (x - r) % m == 0;
      assert x - r == m * ((x - r) / m);
      assert x - y == m * ((x - y) / m);
      assert r - y == m * ((x - y) / m - (x - r) / m);
    }
    assert r - y == d * m;
    if d >= 1 {
      Arith.MulAtLeast(d, m);
      assert false;
    } else if d <= -1 {
      Arith.MulAtLeast(-d, m);
      assert false;
    }
  }

  function Abs(x: int): nat { if x < 0 then -x else x }

  /** C++ integer division: the exact quotient with its fractional part discarded. */
  function TruncDiv(a: int, b: int): (q: int)
    requires b != 0
    ensures Abs(q) * Abs(b) <= Abs(a) < (Abs(q) + 1) * Abs(b)
    ensures q == 0 || ((q < 0) <==> ((a < 0) != (b < 0)))
  {
    Arith.DivBrackets(Abs(a), Abs(b));
    var q0 := Abs(a) / Abs(b);
    if (a < 0) == (b < 0) then q0 else -q0
  }

  /** The C++ division identity: `(a/b)*b + a%b == a` with a remainder smaller than the
      divisor and carrying the sign of the dividend. */
  lemma {:induction false} TruncDivRemainder(a: int, b: int)
    requires b != 0
    ensures var r := a - TruncDiv(a, b) * b;
      Abs(r) < Abs(b) && (r == 0 || (r < 0) == (a < 0))
  {
    var q0, r0 := Abs(a) / Abs(b), Abs(a) % Abs(b);
    assert Abs(a) == q0 * Abs(b) + r0;
    var q := TruncDiv(a, b);
    assert q * b == if a < 0 then -(q0 * Abs(b)) else q0 * Abs(b) by {
      if (a < 0) == (b < 0) {
        assert q == q0;
      } else {
        assert q == -q0;
      }
    }
    assert a - q * b == if a < 0 then -r0 else r0;
  }

  /** Truncating division is odd in the dividend, which Euclidean division is not. */
  lemma TruncDivOdd(a: int, b: int)
    requires b != 0
    ensures TruncDiv(-a, b) == -TruncDiv(a, b)
  {
    var q := Abs(a) / Abs(b);
    assert Abs(-a) == Abs(a);
    if a == 0 {
      assert q == 0;
    } else if (a < 0) == (b < 0) {
      assert TruncDiv(a, b) == q && TruncDiv(-a, b) == -q;
    } else {
      assert TruncDiv(a, b) == -q && TruncDiv(-a, b) == q;
    }
  }

  /** On non-negative operands truncating and Euclidean division agree. */
  lemma TruncDivNonNegative(a: int, b: int)
    requires a >= 0 && b > 0
    ensures TruncDiv(a, b) == a / b
  {
  }

  /** The quotient is no larger in magnitude than the dividend. */
  lemma {:induction false} TruncDivShrinks(a: int, b: int)
    requires b != 0
    ensures Abs(TruncDiv(a, b)) <= Abs(a)
    ensures Abs(b) >= 2 ==> 2 * Abs(TruncDiv(a, b)) <= Abs(a)
  {
    var n, m := Abs(a), Abs(b);
    var q0 := n / m;
    assert Abs(TruncDiv(a, b)) == q0;
    assert q0 * m <= n by {
      assert n == q0 * m + n % m;
    }
    Arith.MulMonotone(1, m, q0);
    if m >= 2 {
      Arith.MulMonotone(2, m, q0);
    }
  }

  /** The binary operators exercised by the tests. */
  datatype Op = Add | Sub | Mul | Div

  /** The assignment operators: plain `=` and the compound `OP=`. */
  datatype AsgnOp = Set | Update(op: Op)

  /** The scalar operation is defined in C++: operands are values of `t`, and a division has a
      non-zero divisor and is not MIN / -1 (both undefined behaviour). */
  predicate Defined(t: LaneType, aop: AsgnOp, x: int, y: int)
  {
    && InRange(t, x)
    && InRange(t, y)
    && (aop == Update(Div) ==> y != 0 && !(x == MinValue(t) && y == -1))
  }

  /** A defined division of two lane values never leaves the lane type. */
  lemma {:induction false} DivisionInRange(t: LaneType, x: int, y: int)
    requires Defined(t, Update(Div), x, y)
    ensures InRange(t, TruncDiv(x, y))
  {
    TruncDivShrinks(x, y);
    if y == -1 {
      assert TruncDiv(x, y) == -x;
    } else if y == 1 {
      assert TruncDiv(x, y) == x;
    }
  }

  /** The one excluded division overflows: MIN / -1 is MAX + 1. */
  lemma MinByMinusOneOverflows(t: LaneType)
    ensures TruncDiv(MinValue(t), -1) == MaxValue(t) + 1
    ensures !InRange(t, TruncDiv(MinValue(t), -1))
  {
  }

  /** The mathematically exact result of a binary operator. */
  function Exact(op: Op, x: int, y: int): int
    requires op == Div ==> y != 0
  {
    match op
    case Add => x + y
    case Sub => x - y
    case Mul => x * y
    case Div => TruncDiv(x, y)
  }

  /** `x OP y` evaluated in the lane type `t`. */
  function Apply(t: LaneType, op: Op, x: int, y: int): (r: int)
    requires Defined(t, Update(op), x, y)
    ensures InRange(t, r)
  {
    match op
    case Add => Wrap(t, x + y)
    case Sub => Wrap(t, x - y)
    case Mul => Wrap(t, x * y)
    case Div => DivisionInRange(t, x, y); TruncDiv(x, y)
  }

  /** The lane result is the exact result reduced modulo 2^bits, and it is the exact result
      itself whenever that fits: wrap-around is the only deviation from exact arithmetic. */
  lemma ApplyWrapsExact(t: LaneType, op: Op, x: int, y: int)
    requires Defined(t, Update(op), x, y)
    ensures (Exact(op, x, y) - Apply(t, op, x, y)) % Modulus(t) == 0
    ensures InRange(t, Exact(op, x, y)) ==> Apply(t, op, x, y) == Exact(op, x, y)
  {
    var e := Exact(op, x, y);
    if op == Div {
      assert Apply(t, op, x, y) == e;
    } else {
      assert Apply(t, op, x, y) == Wrap(t, e);
      if InRange(t, e) {
        WrapUnique(t, e, e);
      }
    }
  }

  /** `x = y` or `x OP= y` evaluated in the lane type `t`: the new value of `x`. */
  function Combine(t: LaneType, aop: AsgnOp, x: int, y: int): (r: int)
    requires Defined(t, aop, x, y)
    ensures InRange(t, r)
    ensures aop.Update? ==> (Exact(aop.op, x, y) - r) % Modulus(t) == 0
    ensures aop.Update? && InRange(t, Exact(aop.op, x, y)) ==> r == Exact(aop.op, x, y)
  {
    match aop
    case Set => y
    case Update(op) => ApplyWrapsExact(t, op, x, y); Apply(t, op, x, y)
  }
}
