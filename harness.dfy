/**
 * `test_vec<T, vlen, vecptrtype, lims>`: the differential self-test of the vector type.
 *
 * It fills two input arrays from fixed formulas, computes a scalar reference into `out2`
 * with T's own operators, computes the same thing through a vector code path into `out1`,
 * and compares the two (`TESTEQ`), logging at most one warning per comparison and going on.
 *
 * The first half of this module states what the test computes, as functions of the
 * configuration and of the vector library (`Kernel`); the class `TestVec` performs the test
 * step by step on arrays and is proved to log exactly the warnings those functions predict.
 */
module Harness {
  import opened Lanes
  import opened Limits
  import opened Adapters
  import opened Vectors

  /** `numvecs`: the number of vectors in each test array. */
  const NumVecs: nat := 10

  /** The value `TESTEQ` overwrites `out1` with after comparing. */
  const Poison: int := 12376

  /** One instantiation of `test_vec`: lane type, vector width, pointer type, limits table. */
  datatype Config = Config(t: LaneType, vlen: nat, kind: PtrKind, lims: Table)

  /** `numel`: the number of elements in each test array. */
  function Numel(c: Config): nat { NumVecs * c.vlen }

  /** The vector width is positive, `numel` is a valid `int` constant, and the limits table
      holds values of its own type; with a `float` table, the products of the input formulas
      are exact. */
  predicate ValidConfig(c: Config)
  {
    && c.vlen > 0
    && Numel(c) <= MaxValue(Int32)
    && Fits(c.lims)
    && (c.lims.vt == FloatValues ==> FloatExact(c))
  }

  /** With a `float` table every product of the input formulas is an integer of magnitude at
      most 2^24, which `float` arithmetic computes without rounding. */
  predicate FloatExact(c: Config)
  {
    Numel(c) * Numel(c) * (Abs(c.lims.scale1) + Abs(c.lims.scale2)) <= FloatExactLimit
  }

  /** The adapter the test builds over each of its arrays (`vIn1`, `vIn2`, `vOut1`). */
  function ViewOf(c: Config): View { Get(c.kind, NumVecs, Numel(c)) }

  /** Vector `i` of an array, loaded through the test's adapter. */
  function GatherAt(c: Config, s: seq<int>, i: nat): (r: seq<int>)
    requires ValidConfig(c) && |s| == Numel(c) && i < NumVecs
    ensures |r| == c.vlen
  {
    Gather(ViewOf(c), NumVecs, c.vlen, s, i)
  }

  // ---------------------------------------------------------------------------------------
  // Input synthesis

  /** `x * s` for an `int` value `x` and a value `s` of the table, computed in their common
      type: the table's integer type (`int32_t` and `int64_t` are both at least as wide as
      `int`) with wrap-around, or `float`, which is exact under `FloatExact`. */
  function TableProduct(l: Table, x: int, s: int): (r: int)
    requires Fits(l) && InRange(Int32, x)
    requires l.vt.IntValues? ==> InRange(l.vt.lane, s)
    ensures l.vt.IntValues? ==> InRange(l.vt.lane, r) && (x * s - r) % Modulus(l.vt.lane) == 0
    ensures l.vt.IntValues? && InRange(l.vt.lane, x * s) ==> r == x * s
  {
    match l.vt
    case IntValues(u) =>
      Int32WithinAll(u, x);
      ApplyWrapsExact(u, Mul, x, s);
      Apply(u, Mul, x, s)
    case FloatValues => x * s
  }

  /** `in1[i] = (i-3)*scale1`: the product in the table's type, converted to T. */
  function In1At(c: Config, i: nat): (r: int)
    requires ValidConfig(c) && i < Numel(c)
    ensures InRange(c.t, r)
  {
    Convert(c.t, TableProduct(c.lims, i - 3, c.lims.scale1))
  }

  /** `numel*(numel-1)/2 - i*i`, an expression of type `int` (32-bit). */
  function TriangleMinusSquare(numel: int, i: int): (r: int)
    requires InRange(Int32, numel) && InRange(Int32, numel - 1) && InRange(Int32, i)
    ensures InRange(Int32, r)
  {
    var pairs := Apply(Int32, Mul, numel, numel - 1);
    var half := Apply(Int32, Div, pairs, 2);
    Apply(Int32, Sub, half, Apply(Int32, Mul, i, i))
  }

  /** `in2[i] = (numel*(numel-1)/2 - i*i)*scale2`: the `int` subexpression times `scale2` in
      the table's type, converted to T. */
  function In2At(c: Config, i: nat): (r: int)
    requires ValidConfig(c) && i < Numel(c)
    ensures InRange(c.t, r)
  {
    Convert(c.t, TableProduct(c.lims, TriangleMinusSquare(Numel(c), i), c.lims.scale2))
  }

  function In1(c: Config): (s: seq<int>)
    requires ValidConfig(c)
    ensures |s| == Numel(c)
    ensures forall i | 0 <= i < |s| :: InRange(c.t, s[i])
  {
    seq(Numel(c), i requires 0 <= i < Numel(c) => In1At(c, i))
  }

  function In2(c: Config): (s: seq<int>)
    requires ValidConfig(c)
    ensures |s| == Numel(c)
    ensures forall i | 0 <= i < |s| :: InRange(c.t, s[i])
  {
    seq(Numel(c), i requires 0 <= i < Numel(c) => In2At(c, i))
  }

  // ---------------------------------------------------------------------------------------
  // Scalar reference

  /** The right operand of a comparison: the array `in2`, or a constant of the table. */
  datatype Rhs = FromIn2 | Scalar(c: int)

  function RhsAt(rhs: Rhs, b: seq<int>, j: nat): int
    requires rhs.FromIn2? ==> j < |b|
  {
    match rhs
    case FromIn2 => b[j]
    case Scalar(x) => x
  }

  /** Every scalar operation of a reference run is defined in C++. */
  predicate RefDefined(t: LaneType, aop: AsgnOp, a: seq<int>, rhs: Rhs, b: seq<int>)
  {
    && |a| == |b|
    && forall j | 0 <= j < |a| :: Defined(t, aop, a[j], RhsAt(rhs, b, j))
  }

  /** The scalar reference run: `out2[i] = a[i] OP rhs` (or `out2[i] = a[i]; out2[i] OP= rhs`),
      element by element with T's own operator. */
  function Reference(t: LaneType, aop: AsgnOp, a: seq<int>, rhs: Rhs, b: seq<int>): (r: seq<int>)
    requires RefDefined(t, aop, a, rhs, b)
    ensures |r| == |a|
  {
    seq(|a|, j requires 0 <= j < |a| => Combine(t, aop, a[j], RhsAt(rhs, b, j)))
  }

  /** With `=` the reference is the right operand itself: `in2` for the checks that assign
      `in2`, and the constant in every element for the one that assigns a scalar. */
  lemma {:induction false} ReferenceOfSet(t: LaneType, a: seq<int>, rhs: Rhs, b: seq<int>)
    requires RefDefined(t, Set, a, rhs, b)
    ensures rhs == FromIn2 ==> Reference(t, Set, a, rhs, b) == b
    ensures rhs.Scalar? ==> Reference(t, Set, a, rhs, b) == seq(|a|, j => rhs.c)
  {
    var r := Reference(t, Set, a, rhs, b);
    forall j | 0 <= j < |a|
      ensures r[j] == RhsAt(rhs, b, j)
    {
    }
  }

  // ---------------------------------------------------------------------------------------
  // Vector runs

  /** The right operand of vector `i`: vector `i` of `in2`, or the broadcast constant. */
  function RhsVec(c: Config, rhs: Rhs, b: seq<int>, i: nat): (r: Operand)
    requires ValidConfig(c) && |b| == Numel(c) && i < NumVecs
    ensures OperandWidth(r, c.vlen)
  {
    match rhs
    case FromIn2 => VecArg(GatherAt(c, b, i))
    case Scalar(x) => ScalarArg(x)
  }

  lemma {:induction false} VectorDefined(c: Config, aop: AsgnOp, a: seq<int>, rhs: Rhs, b: seq<int>, i: nat)
    requires ValidConfig(c) && |a| == Numel(c) && RefDefined(c.t, aop, a, rhs, b) && i < NumVecs
    ensures LanesDefined(c.t, aop, GatherAt(c, a, i), RhsVec(c, rhs, b, i))
  {
    var v, w := ViewOf(c), c.vlen;
    forall k | 0 <= k < w
      ensures Defined(c.t, aop, GatherAt(c, a, i)[k], OperandLane(RhsVec(c, rhs, b, i), k))
    {
      AddrInverse(v, NumVecs, w, i, k);
    }
  }

  /** What a lane-wise library computes for vector `i`. */
  function ReferenceVector(c: Config, aop: AsgnOp, a: seq<int>, rhs: Rhs, b: seq<int>, i: nat): (r: seq<int>)
    requires ValidConfig(c) && |a| == Numel(c) && RefDefined(c.t, aop, a, rhs, b) && i < NumVecs
    ensures |r| == c.vlen
  {
    VectorDefined(c, aop, a, rhs, b, i);
    LaneMap(c.t, aop, GatherAt(c, a, i), RhsVec(c, rhs, b, i))
  }

  function ReferenceVectors(c: Config, aop: AsgnOp, a: seq<int>, rhs: Rhs, b: seq<int>): (vs: seq<seq<int>>)
    requires ValidConfig(c) && |a| == Numel(c) && RefDefined(c.t, aop, a, rhs, b)
    ensures Adapters.Shaped(NumVecs, c.vlen, vs)
  {
    seq(NumVecs, i requires 0 <= i < NumVecs => ReferenceVector(c, aop, a, rhs, b, i))
  }

  /** What the library computes for every vector on a binary-operator path. */
  function BinaryVectors(c: Config, k: Kernel, p: BinaryPath, op: Op, a: seq<int>, rhs: Rhs, b: seq<int>): (vs: seq<seq<int>>)
    requires ValidConfig(c) && Vectors.Shaped(k, c.vlen) && |a| == Numel(c) && |b| == Numel(c)
    ensures Adapters.Shaped(NumVecs, c.vlen, vs)
  {
    var vs := seq(NumVecs, i requires 0 <= i < NumVecs => k.binary(p, op, GatherAt(c, a, i), RhsVec(c, rhs, b, i)));
    assert forall i | 0 <= i < NumVecs :: vs[i] == k.binary(p, op, GatherAt(c, a, i), RhsVec(c, rhs, b, i));
    vs
  }

  /** What the library computes for every vector on an assignment path. */
  function AssignVectors(c: Config, k: Kernel, p: AssignPath, aop: AsgnOp, a: seq<int>, rhs: Rhs, b: seq<int>): (vs: seq<seq<int>>)
    requires ValidConfig(c) && Vectors.Shaped(k, c.vlen) && |a| == Numel(c) && |b| == Numel(c)
    ensures Adapters.Shaped(NumVecs, c.vlen, vs)
  {
    var vs := seq(NumVecs, i requires 0 <= i < NumVecs => k.assign(p, aop, GatherAt(c, a, i), RhsVec(c, rhs, b, i)));
    assert forall i | 0 <= i < NumVecs :: vs[i] == k.assign(p, aop, GatherAt(c, a, i), RhsVec(c, rhs, b, i));
    vs
  }

  /** `out1` after a binary-operator path has stored every vector. */
  function BinaryBatch(c: Config, k: Kernel, p: BinaryPath, op: Op, a: seq<int>, rhs: Rhs, b: seq<int>): (s: seq<int>)
    requires ValidConfig(c) && Vectors.Shaped(k, c.vlen) && |a| == Numel(c) && |b| == Numel(c)
    ensures |s| == Numel(c)
  {
    Scatter(ViewOf(c), NumVecs, c.vlen, BinaryVectors(c, k, p, op, a, rhs, b))
  }

  /** `out1` after an assignment path has stored every vector. */
  function AssignBatch(c: Config, k: Kernel, p: AssignPath, aop: AsgnOp, a: seq<int>, rhs: Rhs, b: seq<int>): (s: seq<int>)
    requires ValidConfig(c) && Vectors.Shaped(k, c.vlen) && |a| == Numel(c) && |b| == Numel(c)
    ensures |s| == Numel(c)
  {
    Scatter(ViewOf(c), NumVecs, c.vlen, AssignVectors(c, k, p, aop, a, rhs, b))
  }

  /** The scalar reference is what storing the lane-wise vectors through the adapter gives. */
  lemma {:induction false} ReferenceIsScatter(c: Config, aop: AsgnOp, a: seq<int>, rhs: Rhs, b: seq<int>)
    requires ValidConfig(c) && |a| == Numel(c) && RefDefined(c.t, aop, a, rhs, b)
    ensures Reference(c.t, aop, a, rhs, b) == Scatter(ViewOf(c), NumVecs, c.vlen, ReferenceVectors(c, aop, a, rhs, b))
  {
    var v, w := ViewOf(c), c.vlen;
    var r, s := Reference(c.t, aop, a, rhs, b), Scatter(v, NumVecs, w, ReferenceVectors(c, aop, a, rhs, b));
    forall j | 0 <= j < Numel(c)
      ensures r[j] == s[j]
    {
      IndexInverse(v, NumVecs, w, j);
    }
  }

  /** Comparing whole arrays compares every vector: an array of vectors stored through the
      adapter equals the scalar reference exactly when each vector equals its lane-wise
      reference. */
  lemma {:induction false} ScatterMatchesReference(c: Config, vs: seq<seq<int>>, aop: AsgnOp, a: seq<int>, rhs: Rhs, b: seq<int>)
    requires ValidConfig(c) && |a| == Numel(c) && RefDefined(c.t, aop, a, rhs, b)
    requires Adapters.Shaped(NumVecs, c.vlen, vs)
    ensures Scatter(ViewOf(c), NumVecs, c.vlen, vs) == Reference(c.t, aop, a, rhs, b)
      <==> forall i | 0 <= i < NumVecs :: vs[i] == ReferenceVector(c, aop, a, rhs, b, i)
  {
    var rv := ReferenceVectors(c, aop, a, rhs, b);
    ReferenceIsScatter(c, aop, a, rhs, b);
    ScatterInjective(ViewOf(c), NumVecs, c.vlen, vs, rv);
    assert vs == rv <==> forall i | 0 <= i < NumVecs :: vs[i] == rv[i];
  }

  // ---------------------------------------------------------------------------------------
  // The warnings the test logs

  /** A `WARNMSG` of `TESTEQ`: the operator and the number of the check that differed. */
  datatype Warning = Warning(symbol: string, test: nat)

  function OpSymbol(op: Op): string
  {
    match op
    case Add => "+"
    case Sub => "-"
    case Mul => "*"
    case Div => "/"
  }

  function AsgnSymbol(aop: AsgnOp): string
  {
    match aop
    case Set => "="
    case Update(Add) => "+="
    case Update(Sub) => "-="
    case Update(Mul) => "*="
    case Update(Div) => "/="
  }

  function BinaryTestNumber(p: BinaryPath): nat
  {
    match p
    case VecOpVec => 1
    case PtrOpPtr => 2
    case PtrOpScalar => 4
    case VecOpScalar => 5
  }

  function AssignTestNumber(p: AssignPath): nat
  {
    match p
    case HelperAsgnVec => 11
    case HelperAsgnHelper => 12
    case VecAsgnVec => 13
    case VecAsgnScalar => 15
  }

  /** Checks 1 and 2 combine `in1` with `in2`; checks 4 and 5 combine `in2` with the constant. */
  function BinaryLhs(c: Config, p: BinaryPath): seq<int>
    requires ValidConfig(c)
  {
    if p == PtrOpScalar || p == VecOpScalar then In2(c) else In1(c)
  }

  function BinaryRhs(p: BinaryPath, x: int): Rhs
  {
    if p == PtrOpScalar || p == VecOpScalar then Scalar(x) else FromIn2
  }

  /** Checks 11 to 13 assign `in2` into a copy of `in1`; check 15 assigns the constant. */
  function AssignRhs(p: AssignPath, x: int): Rhs
  {
    if p == VecAsgnScalar then Scalar(x) else FromIn2
  }

  predicate BinaryDefined(c: Config, op: Op, x: int)
    requires ValidConfig(c)
  {
    && RefDefined(c.t, Update(op), In1(c), FromIn2, In2(c))
    && RefDefined(c.t, Update(op), In2(c), Scalar(x), In2(c))
  }

  predicate AssignDefined(c: Config, aop: AsgnOp, x: int)
    requires ValidConfig(c)
  {
    && RefDefined(c.t, aop, In1(c), FromIn2, In2(c))
    && RefDefined(c.t, aop, In1(c), Scalar(x), In2(c))
  }

  /** Apart from division, every operation on the synthetic inputs is defined. */
  lemma InputsDefined(c: Config, aop: AsgnOp, x: int)
    requires ValidConfig(c) && InRange(c.t, x) && aop != Update(Div)
    ensures aop.Update? ==> BinaryDefined(c, aop.op, x)
    ensures AssignDefined(c, aop, x)
  {
  }

  /** Every warning of `r` names an operator of `syms` and a check of `nums`. */
  predicate Mentions(r: seq<Warning>, syms: set<string>, nums: set<nat>)
  {
    forall i | 0 <= i < |r| :: r[i].symbol in syms && r[i].test in nums
  }

  /** The warnings of `r` come in increasing order of their check numbers. */
  predicate Increasing(r: seq<Warning>)
  {
    forall i, j | 0 <= i < j < |r| :: r[i].test < r[j].test
  }

  /** Appending the outcome of a check numbered above every earlier one keeps a log of one
      operator in increasing check order. */
  lemma {:induction false} AppendCheck(acc: seq<Warning>, w: seq<Warning>, sym: string, nums: set<nat>, n: nat)
    requires Mentions(acc, {sym}, nums) && Increasing(acc)
    requires forall m | m in nums :: m < n
    requires w == [] || w == [Warning(sym, n)]
    ensures Mentions(acc + w, {sym}, nums + {n}) && Increasing(acc + w)
    ensures |acc + w| <= |acc| + 1
  {
    var r := acc + w;
    forall i | 0 <= i < |r|
      ensures r[i].symbol in {sym} && r[i].test in nums + {n}
    {
      if i >= |acc| {
        assert r[i] == Warning(sym, n);
      }
    }
    forall i, j | 0 <= i < j < |r|
      ensures r[i].test < r[j].test
    {
      if j >= |acc| {
        assert r[j] == Warning(sym, n);
        assert r[i] == acc[i];
        assert acc[i].test in nums;
      }
    }
  }

  /** Joining two logs whose warnings all lie in the same sets. */
  lemma {:induction false} MentionsAppend(a: seq<Warning>, b: seq<Warning>, syms: set<string>, nums: set<nat>)
    requires Mentions(a, syms, nums) && Mentions(b, syms, nums)
    ensures Mentions(a + b, syms, nums)
  {
    forall i | 0 <= i < |a + b|
      ensures (a + b)[i].symbol in syms && (a + b)[i].test in nums
    {
      if i >= |a| {
        assert (a + b)[i] == b[i - |a|];
      }
    }
  }

  lemma MentionsWiden(r: seq<Warning>, syms: set<string>, nums: set<nat>, syms': set<string>, nums': set<nat>)
    requires Mentions(r, syms, nums) && syms <= syms' && nums <= nums'
    ensures Mentions(r, syms', nums')
  {
  }

  /** The seven logs of `test()`, one per operator, joined. */
  lemma {:induction false} TestLogShape(b1: seq<Warning>, b2: seq<Warning>, b3: seq<Warning>,
                                        a1: seq<Warning>, a2: seq<Warning>, a3: seq<Warning>, a4: seq<Warning>)
    requires |b1| <= 4 && Mentions(b1, {OpSymbol(Add)}, {1, 2, 4, 5})
    requires |b2| <= 4 && Mentions(b2, {OpSymbol(Sub)}, {1, 2, 4, 5})
    requires |b3| <= 4 && Mentions(b3, {OpSymbol(Mul)}, {1, 2, 4, 5})
    requires |a1| <= 4 && Mentions(a1, {AsgnSymbol(Set)}, {11, 12, 13, 15})
    requires |a2| <= 4 && Mentions(a2, {AsgnSymbol(Update(Add))}, {11, 12, 13, 15})
    requires |a3| <= 4 && Mentions(a3, {AsgnSymbol(Update(Sub))}, {11, 12, 13, 15})
    requires |a4| <= 4 && Mentions(a4, {AsgnSymbol(Update(Mul))}, {11, 12, 13, 15})
    ensures var r := b1 + b2 + b3 + a1 + a2 + a3 + a4;
      |r| <= 28 && Mentions(r, {"+", "-", "*", "=", "+=", "-=", "*="}, {1, 2, 4, 5, 11, 12, 13, 15})
  {
    var syms, nums := {"+", "-", "*", "=", "+=", "-=", "*="}, {1, 2, 4, 5, 11, 12, 13, 15};
    MentionsWiden(b1, {OpSymbol(Add)}, {1, 2, 4, 5}, syms, nums);
    MentionsWiden(b2, {OpSymbol(Sub)}, {1, 2, 4, 5}, syms, nums);
    MentionsWiden(b3, {OpSymbol(Mul)}, {1, 2, 4, 5}, syms, nums);
    MentionsWiden(a1, {AsgnSymbol(Set)}, {11, 12, 13, 15}, syms, nums);
    MentionsWiden(a2, {AsgnSymbol(Update(Add))}, {11, 12, 13, 15}, syms, nums);
    MentionsWiden(a3, {AsgnSymbol(Update(Sub))}, {11, 12, 13, 15}, syms, nums);
    MentionsWiden(a4, {AsgnSymbol(Update(Mul))}, {11, 12, 13, 15}, syms, nums);
    MentionsAppend(b1, b2, syms, nums);
    MentionsAppend(b1 + b2, b3, syms, nums);
    MentionsAppend(b1 + b2 + b3, a1, syms, nums);
    MentionsAppend(b1 + b2 + b3 + a1, a2, syms, nums);
    MentionsAppend(b1 + b2 + b3 + a1 + a2, a3, syms, nums);
    MentionsAppend(b1 + b2 + b3 + a1 + a2 + a3, a4, syms, nums);
  }

  /** The warning (if any) that one `TESTEQ` of a binary-operator test logs. */
  function BinaryCheck(c: Config, k: Kernel, op: Op, x: int, p: BinaryPath): (r: seq<Warning>)
    requires ValidConfig(c) && Vectors.Shaped(k, c.vlen) && BinaryDefined(c, op, x)
    ensures r == [] || r == [Warning(OpSymbol(op), BinaryTestNumber(p))]
  {
    var a, rhs := BinaryLhs(c, p), BinaryRhs(p, x);
    if BinaryBatch(c, k, p, op, a, rhs, In2(c)) != Reference(c.t, Update(op), a, rhs, In2(c))
    then [Warning(OpSymbol(op), BinaryTestNumber(p))]
    else []
  }

  /** The warning (if any) that one `TESTEQ` of an assignment test logs. */
  function AssignCheck(c: Config, k: Kernel, aop: AsgnOp, x: int, p: AssignPath): (r: seq<Warning>)
    requires ValidConfig(c) && Vectors.Shaped(k, c.vlen) && AssignDefined(c, aop, x)
    ensures r == [] || r == [Warning(AsgnSymbol(aop), AssignTestNumber(p))]
  {
    var rhs := AssignRhs(p, x);
    if AssignBatch(c, k, p, aop, In1(c), rhs, In2(c)) != Reference(c.t, aop, In1(c), rhs, In2(c))
    then [Warning(AsgnSymbol(aop), AssignTestNumber(p))]
    else []
  }

  /** `TEST_BINARY_OP(OP, CVAL)`: checks 1, 2, 4, 5 in that order. */
  function BinaryWarnings(c: Config, k: Kernel, op: Op, x: int): (r: seq<Warning>)
    requires ValidConfig(c) && Vectors.Shaped(k, c.vlen) && BinaryDefined(c, op, x)
    ensures |r| <= 4 && Mentions(r, {OpSymbol(op)}, {1, 2, 4, 5}) && Increasing(r)
  {
    var w1, w2 := BinaryCheck(c, k, op, x, VecOpVec), BinaryCheck(c, k, op, x, PtrOpPtr);
    var w3, w4 := BinaryCheck(c, k, op, x, PtrOpScalar), BinaryCheck(c, k, op, x, VecOpScalar);
    var sym := OpSymbol(op);
    AppendCheck([], w1, sym, {}, 1);
    assert [] + w1 == w1;
    AppendCheck(w1, w2, sym, {1}, 2);
    AppendCheck(w1 + w2, w3, sym, {1, 2}, 4);
    AppendCheck(w1 + w2 + w3, w4, sym, {1, 2, 4}, 5);
    assert {1, 2, 4} + {5} == {1, 2, 4, 5};
    w1 + w2 + w3 + w4
  }

  /** `TEST_ASGN_OP(OP, CVAL)`: checks 11, 12, 13, 15 in that order. */
  function AssignWarnings(c: Config, k: Kernel, aop: AsgnOp, x: int): (r: seq<Warning>)
    requires ValidConfig(c) && Vectors.Shaped(k, c.vlen) && AssignDefined(c, aop, x)
    ensures |r| <= 4 && Mentions(r, {AsgnSymbol(aop)}, {11, 12, 13, 15}) && Increasing(r)
  {
    var w1, w2 := AssignCheck(c, k, aop, x, HelperAsgnVec), AssignCheck(c, k, aop, x, HelperAsgnHelper);
    var w3, w4 := AssignCheck(c, k, aop, x, VecAsgnVec), AssignCheck(c, k, aop, x, VecAsgnScalar);
    var sym := AsgnSymbol(aop);
    AppendCheck([], w1, sym, {}, 11);
    assert [] + w1 == w1;
    AppendCheck(w1, w2, sym, {11}, 12);
    AppendCheck(w1 + w2, w3, sym, {11, 12}, 13);
    AppendCheck(w1 + w2 + w3, w4, sym, {11, 12, 13}, 15);
    assert {11, 12, 13} + {15} == {11, 12, 13, 15};
    w1 + w2 + w3 + w4
  }

  /** `test()`: `+ - *` and then `= += -= *=`, with the constants of the limits table, each
      converted to T (`T c = CVAL`). */
  function TestWarnings(c: Config, k: Kernel): (r: seq<Warning>)
    requires ValidConfig(c) && Vectors.Shaped(k, c.vlen)
    ensures |r| <= 28
    ensures Mentions(r, {"+", "-", "*", "=", "+=", "-=", "*="}, {1, 2, 4, 5, 11, 12, 13, 15})
  {
    var l := c.lims;
    var plus, minus, multiply := Convert(c.t, l.plus), Convert(c.t, l.minus), Convert(c.t, l.multiply);
    var isValue, plusis := Convert(c.t, l.isValue), Convert(c.t, l.plusis);
    var minusis, multiplyis := Convert(c.t, l.minusis), Convert(c.t, l.multiplyis);
    InputsDefined(c, Update(Add), plus);
    InputsDefined(c, Update(Sub), minus);
    InputsDefined(c, Update(Mul), multiply);
    InputsDefined(c, Set, isValue);
    InputsDefined(c, Update(Add), plusis);
    InputsDefined(c, Update(Sub), minusis);
    InputsDefined(c, Update(Mul), multiplyis);
    var b1, b2, b3 := BinaryWarnings(c, k, Add, plus), BinaryWarnings(c, k, Sub, minus), BinaryWarnings(c, k, Mul, multiply);
    var a1, a2 := AssignWarnings(c, k, Set, isValue), AssignWarnings(c, k, Update(Add), plusis);
    var a3, a4 := AssignWarnings(c, k, Update(Sub), minusis), AssignWarnings(c, k, Update(Mul), multiplyis);
    TestLogShape(b1, b2, b3, a1, a2, a3, a4);
    b1 + b2 + b3 + a1 + a2 + a3 + a4
  }

  /** Every division of `test_division()` is defined: no divisor is zero and no quotient is
      MIN / -1. */
  predicate DivisionDefined(c: Config)
    requires ValidConfig(c)
  {
    BinaryDefined(c, Div, Convert(c.t, c.lims.divide)) && AssignDefined(c, Update(Div), Convert(c.t, c.lims.divideis))
  }

  /** `test_division()`: `/` and then `/=`. */
  function DivisionWarnings(c: Config, k: Kernel): (r: seq<Warning>)
    requires ValidConfig(c) && Vectors.Shaped(k, c.vlen) && DivisionDefined(c)
    ensures |r| <= 8
    ensures Mentions(r, {"/", "/="}, {1, 2, 4, 5, 11, 12, 13, 15})
  {
    var b := BinaryWarnings(c, k, Div, Convert(c.t, c.lims.divide));
    var a := AssignWarnings(c, k, Update(Div), Convert(c.t, c.lims.divideis));
    var syms, nums := {"/", "/="}, {1, 2, 4, 5, 11, 12, 13, 15};
    MentionsWiden(b, {OpSymbol(Div)}, {1, 2, 4, 5}, syms, nums);
    MentionsWiden(a, {AsgnSymbol(Update(Div))}, {11, 12, 13, 15}, syms, nums);
    MentionsAppend(b, a, syms, nums);
    b + a
  }

  // ---------------------------------------------------------------------------------------
  // What the warnings mean

  /** A binary-operator check warns exactly when the library's result for some vector
      differs from the lane-wise reference for that vector. */
  lemma {:induction false} BinaryCheckExact(c: Config, k: Kernel, op: Op, x: int, p: BinaryPath)
    requires ValidConfig(c) && Vectors.Shaped(k, c.vlen) && BinaryDefined(c, op, x)
    ensures BinaryCheck(c, k, op, x, p) == [] <==>
      forall i | 0 <= i < NumVecs ::
        k.binary(p, op, GatherAt(c, BinaryLhs(c, p), i), RhsVec(c, BinaryRhs(p, x), In2(c), i))
        == ReferenceVector(c, Update(op), BinaryLhs(c, p), BinaryRhs(p, x), In2(c), i)
  {
    var a, rhs := BinaryLhs(c, p), BinaryRhs(p, x);
    var vs := BinaryVectors(c, k, p, op, a, rhs, In2(c));
    ScatterMatchesReference(c, vs, Update(op), a, rhs, In2(c));
  }

  /** An assignment check warns exactly when the library's result for some vector differs
      from the lane-wise reference for that vector. */
  lemma {:induction false} AssignCheckExact(c: Config, k: Kernel, aop: AsgnOp, x: int, p: AssignPath)
    requires ValidConfig(c) && Vectors.Shaped(k, c.vlen) && AssignDefined(c, aop, x)
    ensures AssignCheck(c, k, aop, x, p) == [] <==>
      forall i | 0 <= i < NumVecs ::
        k.assign(p, aop, GatherAt(c, In1(c), i), RhsVec(c, AssignRhs(p, x), In2(c), i))
        == ReferenceVector(c, aop, In1(c), AssignRhs(p, x), In2(c), i)
  {
    var rhs := AssignRhs(p, x);
    var vs := AssignVectors(c, k, p, aop, In1(c), rhs, In2(c));
    ScatterMatchesReference(c, vs, aop, In1(c), rhs, In2(c));
  }

  lemma {:induction false} LaneWiseBinarySilent(c: Config, k: Kernel, op: Op, x: int)
    requires ValidConfig(c) && Vectors.Shaped(k, c.vlen) && IsLaneWise(k, c.t, c.vlen)
    requires BinaryDefined(c, op, x)
    ensures BinaryWarnings(c, k, op, x) == []
  {
    forall p: BinaryPath
      ensures BinaryCheck(c, k, op, x, p) == []
    {
      var a, rhs := BinaryLhs(c, p), BinaryRhs(p, x);
      forall i | 0 <= i < NumVecs
        ensures k.binary(p, op, GatherAt(c, a, i), RhsVec(c, rhs, In2(c), i))
             == ReferenceVector(c, Update(op), a, rhs, In2(c), i)
      {
        VectorDefined(c, Update(op), a, rhs, In2(c), i);
      }
      BinaryCheckExact(c, k, op, x, p);
    }
  }

  lemma {:induction false} LaneWiseAssignSilent(c: Config, k: Kernel, aop: AsgnOp, x: int)
    requires ValidConfig(c) && Vectors.Shaped(k, c.vlen) && IsLaneWise(k, c.t, c.vlen)
    requires AssignDefined(c, aop, x)
    ensures AssignWarnings(c, k, aop, x) == []
  {
    forall p: AssignPath
      ensures AssignCheck(c, k, aop, x, p) == []
    {
      var rhs := AssignRhs(p, x);
      forall i | 0 <= i < NumVecs
        ensures k.assign(p, aop, GatherAt(c, In1(c), i), RhsVec(c, rhs, In2(c), i))
             == ReferenceVector(c, aop, In1(c), rhs, In2(c), i)
      {
        VectorDefined(c, aop, In1(c), rhs, In2(c), i);
      }
      AssignCheckExact(c, k, aop, x, p);
    }
  }

  /** The main theorem: a library whose every code path is lane-wise, wrap-around included,
      never makes `test()` warn. */
  lemma {:induction false} LaneWiseKernelPassesTest(c: Config, k: Kernel)
    requires ValidConfig(c) && Vectors.Shaped(k, c.vlen) && IsLaneWise(k, c.t, c.vlen)
    ensures TestWarnings(c, k) == []
  {
    var l := c.lims;
    var plus, minus, multiply := Convert(c.t, l.plus), Convert(c.t, l.minus), Convert(c.t, l.multiply);
    var isValue, plusis := Convert(c.t, l.isValue), Convert(c.t, l.plusis);
    var minusis, multiplyis := Convert(c.t, l.minusis), Convert(c.t, l.multiplyis);
    InputsDefined(c, Update(Add), plus);
    InputsDefined(c, Update(Sub), minus);
    InputsDefined(c, Update(Mul), multiply);
    InputsDefined(c, Set, isValue);
    InputsDefined(c, Update(Add), plusis);
    InputsDefined(c, Update(Sub), minusis);
    InputsDefined(c, Update(Mul), multiplyis);
    LaneWiseBinarySilent(c, k, Add, plus);
    LaneWiseBinarySilent(c, k, Sub, minus);
    LaneWiseBinarySilent(c, k, Mul, multiply);
    LaneWiseAssignSilent(c, k, Set, isValue);
    LaneWiseAssignSilent(c, k, Update(Add), plusis);
    LaneWiseAssignSilent(c, k, Update(Sub), minusis);
    LaneWiseAssignSilent(c, k, Update(Mul), multiplyis);
  }

  /** ... and never makes `test_division()` warn either, when its divisions are defined. */
  lemma {:induction false} LaneWiseKernelPassesDivisionTest(c: Config, k: Kernel)
    requires ValidConfig(c) && Vectors.Shaped(k, c.vlen) && IsLaneWise(k, c.t, c.vlen)
    requires DivisionDefined(c)
    ensures DivisionWarnings(c, k) == []
  {
    LaneWiseBinarySilent(c, k, Div, Convert(c.t, c.lims.divide));
    LaneWiseAssignSilent(c, k, Update(Div), Convert(c.t, c.lims.divideis));
  }

  lemma AppendAssoc<T>(a: seq<T>, b: seq<T>, c: seq<T>)
    ensures a + b + c == a + (b + c)
  {
  }

  lemma AppendAssoc4<T>(l: seq<T>, a: seq<T>, b: seq<T>, c: seq<T>, d: seq<T>)
    ensures l + a + b + c + d == l + (a + b + c + d)
  {
  }

  // ---------------------------------------------------------------------------------------
  // The test, step by step

  /** The state of one instantiation of `test_vec`: its four arrays and the warning log. */
  class TestVec {
    const cfg: Config
    const kernel: Kernel
    const in1: array<int>
    const in2: array<int>
    const out1: array<int>
    const out2: array<int>
    /** The warnings sent to `WARNMSG`, oldest first. */
    var log: seq<Warning>

    ghost predicate Valid()
    {
      && ValidConfig(cfg)
      && Vectors.Shaped(kernel, cfg.vlen)
      && in1.Length == Numel(cfg) && in2.Length == Numel(cfg)
      && out1.Length == Numel(cfg) && out2.Length == Numel(cfg)
      && in1 != in2 && in1 != out1 && in1 != out2
      && in2 != out1 && in2 != out2 && out1 != out2
    }

    constructor (cfg: Config, kernel: Kernel)
      requires ValidConfig(cfg) && Vectors.Shaped(kernel, cfg.vlen)
      ensures Valid() && this.cfg == cfg && this.kernel == kernel && log == []
      ensures fresh(in1) && fresh(in2) && fresh(out1) && fresh(out2)
    {
      this.cfg := cfg;
      this.kernel := kernel;
      in1 := new int[Numel(cfg)];
      in2 := new int[Numel(cfg)];
      out1 := new int[Numel(cfg)];
      out2 := new int[Numel(cfg)];
      log := [];
    }

    /** The input arrays hold the synthetic inputs. */
    ghost predicate Ready()
      reads in1, in2
    {
      Valid() && in1[..] == In1(cfg) && in2[..] == In2(cfg)
    }

    /** `INIT_TESTS`: fill the input arrays. */
    method InitTests()
      requires Valid()
      modifies in1, in2
      ensures Ready()
    {
      var i := 0;
      while i < in1.Length
        invariant 0 <= i <= in1.Length
        invariant forall j | 0 <= j < i :: in1[j] == In1At(cfg, j) && in2[j] == In2At(cfg, j)
      {
        in1[i] := In1At(cfg, i);
        in2[i] := In2At(cfg, i);
        i := i + 1;
      }
    }

    /** `TESTEQ`: compare `out1` with `out2`, warn on the first difference only, and overwrite
        every element of `out1` with the poison value. */
    method TestEq(symbol: string, test: nat)
      requires Valid()
      modifies out1, this`log
      ensures (exists j | 0 <= j < out1.Length :: old(out1[j]) != out2[j]) <==> old(out1[..]) != out2[..]
      ensures log == old(log) + if old(out1[..]) != out2[..] then [Warning(symbol, test)] else []
      ensures forall j | 0 <= j < out1.Length :: out1[j] == Poison
    {
      var didNotYetWarn := true;
      var i := 0;
      while i < out1.Length
        invariant 0 <= i <= out1.Length
        invariant forall j | 0 <= j < i :: out1[j] == Poison
        invariant forall j | i <= j < out1.Length :: out1[j] == old(out1[j])
        invariant didNotYetWarn <==> forall j | 0 <= j < i :: old(out1[j]) == out2[j]
        invariant log == old(log) + if didNotYetWarn then [] else [Warning(symbol, test)]
      {
        if out1[i] != out2[i] && didNotYetWarn {
          log := log + [Warning(symbol, test)];
          didNotYetWarn := false;
        }
        out1[i] := Poison;
        i := i + 1;
      }
      assert didNotYetWarn <==> old(out1[..]) == out2[..];
    }

    /** Store vector `i` through the adapter (`vOut1[i] = v`, `*(vOut1+i) = v`). */
    method Store(a: array<int>, i: nat, v: seq<int>)
      requires Valid() && a.Length == Numel(cfg) && i < NumVecs && |v| == cfg.vlen
      modifies a
      ensures forall j | 0 <= j < a.Length ::
        a[j] == if VecIndex(ViewOf(cfg), NumVecs, cfg.vlen, j) == i
                then v[LaneIndex(ViewOf(cfg), NumVecs, cfg.vlen, j)]
                else old(a[j])
    {
      var view, w := ViewOf(cfg), cfg.vlen;
      forall k | 0 <= k < w
        ensures Admits(view, a.Length, Addr(view, w, i, k))
        ensures VecIndex(view, NumVecs, w, Addr(view, w, i, k)) == i
        ensures LaneIndex(view, NumVecs, w, Addr(view, w, i, k)) == k
      {
        AddrInverse(view, NumVecs, w, i, k);
      }
      forall k | 0 <= k < w {
        a[Addr(view, w, i, k)] := v[k];
      }
      forall j | 0 <= j < a.Length && VecIndex(view, NumVecs, w, j) == i
        ensures a[j] == v[LaneIndex(view, NumVecs, w, j)]
      {
        IndexInverse(view, NumVecs, w, j);
      }
    }

    /** The scalar reference run of a binary operator into `out2`. */
    method ReferenceBinary(op: Op, lhs: array<int>, rhs: Rhs)
      requires Valid() && (lhs == in1 || lhs == in2)
      requires RefDefined(cfg.t, Update(op), lhs[..], rhs, in2[..])
      modifies out2
      ensures out2[..] == Reference(cfg.t, Update(op), lhs[..], rhs, in2[..])
    {
      var i := 0;
      while i < out2.Length
        invariant 0 <= i <= out2.Length
        invariant forall j | 0 <= j < i ::
          out2[j] == Combine(cfg.t, Update(op), lhs[j], RhsAt(rhs, in2[..], j))
      {
        var y := if rhs.FromIn2? then in2[i] else rhs.c;
        out2[i] := Apply(cfg.t, op, lhs[i], y);
        i := i + 1;
      }
    }

    /** The set-up of an assignment test: `out1 = in1`, and `out2 = in1; out2 OP= rhs`. */
    method ReferenceAssign(aop: AsgnOp, rhs: Rhs)
      requires Valid() && RefDefined(cfg.t, aop, in1[..], rhs, in2[..])
      modifies out1, out2
      ensures out1[..] == in1[..]
      ensures out2[..] == Reference(cfg.t, aop, in1[..], rhs, in2[..])
    {
      var i := 0;
      while i < out2.Length
        invariant 0 <= i <= out2.Length
        invariant forall j | 0 <= j < i :: out1[j] == in1[j]
        invariant forall j | 0 <= j < i ::
          out2[j] == Combine(cfg.t, aop, in1[j], RhsAt(rhs, in2[..], j))
      {
        var y := if rhs.FromIn2? then in2[i] else rhs.c;
        out1[i] := in1[i];
        out2[i] := in1[i];
        out2[i] := Combine(cfg.t, aop, out2[i], y);
        i := i + 1;
      }
    }

    /** Re-initialise `out1` from `in1`. */
    method ResetOut1()
      requires Valid()
      modifies out1
      ensures out1[..] == in1[..]
    {
      var i := 0;
      while i < out1.Length
        invariant 0 <= i <= out1.Length
        invariant forall j | 0 <= j < i :: out1[j] == in1[j]
      {
        out1[i] := in1[i];
        i := i + 1;
      }
    }

    /** One vector run of a binary operator: for every vector, load the operands, apply the
        operator on path `p`, store the result into `out1`. */
    method VectorBinary(p: BinaryPath, op: Op, lhs: array<int>, rhs: Rhs)
      requires Valid() && (lhs == in1 || lhs == in2)
      modifies out1
      ensures out1[..] == BinaryBatch(cfg, kernel, p, op, lhs[..], rhs, in2[..])
    {
      var view, w := ViewOf(cfg), cfg.vlen;
      ghost var vs := BinaryVectors(cfg, kernel, p, op, lhs[..], rhs, in2[..]);
      var i := 0;
      while i < NumVecs
        invariant 0 <= i <= NumVecs
        invariant forall j | 0 <= j < out1.Length && VecIndex(view, NumVecs, w, j) < i ::
          out1[j] == vs[VecIndex(view, NumVecs, w, j)][LaneIndex(view, NumVecs, w, j)]
      {
        var v1 := GatherAt(cfg, lhs[..], i);
        var v2 := RhsVec(cfg, rhs, in2[..], i);
        var o1 := kernel.binary(p, op, v1, v2);
        Store(out1, i, o1);
        i := i + 1;
      }
      assert out1[..] == Scatter(view, NumVecs, w, vs);
    }

    /** One vector run of an assignment operator on `out1` (which holds `in1`): for every
        vector, load it, apply `OP=` on path `p`, store it back. */
    method VectorAssign(p: AssignPath, aop: AsgnOp, rhs: Rhs)
      requires Valid() && out1[..] == in1[..]
      modifies out1
      ensures out1[..] == AssignBatch(cfg, kernel, p, aop, in1[..], rhs, in2[..])
    {
      var view, w := ViewOf(cfg), cfg.vlen;
      ghost var vs := AssignVectors(cfg, kernel, p, aop, in1[..], rhs, in2[..]);
      var i := 0;
      while i < NumVecs
        invariant 0 <= i <= NumVecs
        invariant forall j | 0 <= j < out1.Length && VecIndex(view, NumVecs, w, j) < i ::
          out1[j] == vs[VecIndex(view, NumVecs, w, j)][LaneIndex(view, NumVecs, w, j)]
        invariant forall j | 0 <= j < out1.Length && VecIndex(view, NumVecs, w, j) >= i ::
          out1[j] == in1[j]
      {
        var cur := GatherAt(cfg, out1[..], i);
        forall k | 0 <= k < w
          ensures cur[k] == GatherAt(cfg, in1[..], i)[k]
        {
          AddrInverse(view, NumVecs, w, i, k);
        }
        assert cur == GatherAt(cfg, in1[..], i);
        var o1 := kernel.assign(p, aop, cur, RhsVec(cfg, rhs, in2[..], i));
        Store(out1, i, o1);
        i := i + 1;
      }
      assert out1[..] == Scatter(view, NumVecs, w, vs);
    }

    /** One binary-operator check: the vector run on path `p` into `out1`, then `TESTEQ`
        against the reference already in `out2`. */
    method BinaryCheckStep(p: BinaryPath, op: Op, x: int)
      requires Ready() && BinaryDefined(cfg, op, x)
      requires out2[..] == Reference(cfg.t, Update(op), BinaryLhs(cfg, p), BinaryRhs(p, x), In2(cfg))
      modifies out1, this`log
      ensures log == old(log) + BinaryCheck(cfg, kernel, op, x, p)
    {
      var lhs := if p == PtrOpScalar || p == VecOpScalar then in2 else in1;
      VectorBinary(p, op, lhs, BinaryRhs(p, x));
      TestEq(OpSymbol(op), BinaryTestNumber(p));
    }

    /** One assignment check: the vector run on path `p` over `out1` (holding `in1`), then
        `TESTEQ` against the reference already in `out2`. */
    method AssignCheckStep(p: AssignPath, aop: AsgnOp, x: int)
      requires Ready() && AssignDefined(cfg, aop, x)
      requires out1[..] == in1[..]
      requires out2[..] == Reference(cfg.t, aop, In1(cfg), AssignRhs(p, x), In2(cfg))
      modifies out1, this`log
      ensures log == old(log) + AssignCheck(cfg, kernel, aop, x, p)
    {
      VectorAssign(p, aop, AssignRhs(p, x));
      TestEq(AsgnSymbol(aop), AssignTestNumber(p));
    }

    /** Half of `TEST_BINARY_OP`: the scalar reference run for paths `p1` and `p2` into
        `out2`, then their two checks. */
    method BinaryCheckPair(op: Op, x: int, p1: BinaryPath, p2: BinaryPath)
      requires Ready() && BinaryDefined(cfg, op, x)
      requires BinaryLhs(cfg, p2) == BinaryLhs(cfg, p1) && BinaryRhs(p2, x) == BinaryRhs(p1, x)
      modifies out1, out2, this`log
      ensures log == old(log) + BinaryCheck(cfg, kernel, op, x, p1) + BinaryCheck(cfg, kernel, op, x, p2)
    {
      var lhs := if p1 == PtrOpScalar || p1 == VecOpScalar then in2 else in1;
      ReferenceBinary(op, lhs, BinaryRhs(p1, x));
      BinaryCheckStep(p1, op, x);
      BinaryCheckStep(p2, op, x);
    }

    /** `TEST_BINARY_OP(OP, x)`: checks 1 and 2 against `in1 OP in2`, then checks 4 and 5
        against `in2 OP x`. */
    method TestBinaryOp(op: Op, x: int)
      requires Ready() && BinaryDefined(cfg, op, x)
      modifies out1, out2, this`log
      ensures log == old(log) + BinaryWarnings(cfg, kernel, op, x)
    {
      BinaryCheckPair(op, x, VecOpVec, PtrOpPtr);
      BinaryCheckPair(op, x, PtrOpScalar, VecOpScalar);
      AppendAssoc4(old(log), BinaryCheck(cfg, kernel, op, x, VecOpVec), BinaryCheck(cfg, kernel, op, x, PtrOpPtr),
        BinaryCheck(cfg, kernel, op, x, PtrOpScalar), BinaryCheck(cfg, kernel, op, x, VecOpScalar));
    }

    /** Checks 11, 12 and 13 of `TEST_ASGN_OP`: `out1 = in1` and `out2 = in1 OP in2`, then
        three paths of `out1 OP= in2`, `out1` being re-initialised from `in1` before the
        second and the third. */
    method AssignVectorChecks(aop: AsgnOp, x: int)
      requires Ready() && AssignDefined(cfg, aop, x)
      modifies out1, out2, this`log
      ensures log == old(log) + AssignCheck(cfg, kernel, aop, x, HelperAsgnVec)
        + AssignCheck(cfg, kernel, aop, x, HelperAsgnHelper) + AssignCheck(cfg, kernel, aop, x, VecAsgnVec)
    {
      ReferenceAssign(aop, FromIn2);
      AssignCheckStep(HelperAsgnVec, aop, x);
      ResetOut1();
      AssignCheckStep(HelperAsgnHelper, aop, x);
      ResetOut1();
      AssignCheckStep(VecAsgnVec, aop, x);
    }

    /** Check 15 of `TEST_ASGN_OP`: `out1 = in1` and `out2 = in1 OP x`, `out1` re-initialised
        once more, then `out1 OP= x` vector by vector. */
    method AssignScalarCheck(aop: AsgnOp, x: int)
      requires Ready() && AssignDefined(cfg, aop, x)
      modifies out1, out2, this`log
      ensures log == old(log) + AssignCheck(cfg, kernel, aop, x, VecAsgnScalar)
    {
      ReferenceAssign(aop, Scalar(x));
      ResetOut1();
      AssignCheckStep(VecAsgnScalar, aop, x);
    }

    /** `TEST_ASGN_OP(OP, x)`. */
    method TestAssignOp(aop: AsgnOp, x: int)
      requires Ready() && AssignDefined(cfg, aop, x)
      modifies out1, out2, this`log
      ensures log == old(log) + AssignWarnings(cfg, kernel, aop, x)
    {
      AssignVectorChecks(aop, x);
      AssignScalarCheck(aop, x);
      AppendAssoc4(old(log), AssignCheck(cfg, kernel, aop, x, HelperAsgnVec),
        AssignCheck(cfg, kernel, aop, x, HelperAsgnHelper), AssignCheck(cfg, kernel, aop, x, VecAsgnVec),
        AssignCheck(cfg, kernel, aop, x, VecAsgnScalar));
    }

    /** `test()`: the seven operators without division (see `LaneWiseKernelPassesTest`). */
    method Test()
      requires Valid()
      modifies in1, in2, out1, out2, this`log
      ensures log == old(log) + TestWarnings(cfg, kernel)
    {
      InitTests();
      var l := cfg.lims;
      var plus, minus, multiply := Convert(cfg.t, l.plus), Convert(cfg.t, l.minus), Convert(cfg.t, l.multiply);
      var isValue, plusis := Convert(cfg.t, l.isValue), Convert(cfg.t, l.plusis);
      var minusis, multiplyis := Convert(cfg.t, l.minusis), Convert(cfg.t, l.multiplyis);
      InputsDefined(cfg, Update(Add), plus);
      InputsDefined(cfg, Update(Sub), minus);
      InputsDefined(cfg, Update(Mul), multiply);
      InputsDefined(cfg, Set, isValue);
      InputsDefined(cfg, Update(Add), plusis);
      InputsDefined(cfg, Update(Sub), minusis);
      InputsDefined(cfg, Update(Mul), multiplyis);
      ghost var log0 := log;
      TestBinaryOp(Add, plus);
      ghost var acc := BinaryWarnings(cfg, kernel, Add, plus);
      TestBinaryOp(Sub, minus);
      ghost var w := BinaryWarnings(cfg, kernel, Sub, minus);
      AppendAssoc(log0, acc, w);
      acc := acc + w;
      TestBinaryOp(Mul, multiply);
      w := BinaryWarnings(cfg, kernel, Mul, multiply);
      AppendAssoc(log0, acc, w);
      acc := acc + w;
      TestAssignOp(Set, isValue);
      w := AssignWarnings(cfg, kernel, Set, isValue);
      AppendAssoc(log0, acc, w);
      acc := acc + w;
      TestAssignOp(Update(Add), plusis);
      w := AssignWarnings(cfg, kernel, Update(Add), plusis);
      AppendAssoc(log0, acc, w);
      acc := acc + w;
      TestAssignOp(Update(Sub), minusis);
      w := AssignWarnings(cfg, kernel, Update(Sub), minusis);
      AppendAssoc(log0, acc, w);
      acc := acc + w;
      TestAssignOp(Update(Mul), multiplyis);
      w := AssignWarnings(cfg, kernel, Update(Mul), multiplyis);
      AppendAssoc(log0, acc, w);
      acc := acc + w;
    }

    /** `test_division()`: `/` and `/=`, for configurations whose divisions are defined (see
        `LaneWiseKernelPassesDivisionTest`). */
    method TestDivision()
      requires Valid() && DivisionDefined(cfg)
      modifies in1, in2, out1, out2, this`log
      ensures log == old(log) + DivisionWarnings(cfg, kernel)
    {
      InitTests();
      ghost var log0 := log;
      var divide, divideis := Convert(cfg.t, cfg.lims.divide), Convert(cfg.t, cfg.lims.divideis);
      TestBinaryOp(Div, divide);
      ghost var b := BinaryWarnings(cfg, kernel, Div, divide);
      TestAssignOp(Update(Div), divideis);
      AppendAssoc(log0, b, AssignWarnings(cfg, kernel, Update(Div), divideis));
    }
  }
}
