/**
 * The vector type `vec<T, W>` seen from the tests: a value of W lanes, with binary operators
 * (`vec OP vec`, `vec OP scalar`) and assignment operators (`=`, `OP=`), reachable through
 * several code paths (values, pointer dereferences, store helpers).
 *
 * The vector library itself is not part of this model. A `Kernel` stands for one
 * implementation of it: for each code path the tests exercise, the W lanes it produces.
 * The contract the library is meant to meet is `IsLaneWise`: every path computes, lane by
 * lane, what the scalar operator of `T` computes.
 */
module Vectors {
  import opened Lanes

  /** The right operand of a vector operator: another vector, or a scalar broadcast to every
      lane. */
  datatype Operand = VecArg(lanes: seq<int>) | ScalarArg(c: int)

  predicate OperandWidth(b: Operand, w: nat)
  {
    b.VecArg? ==> |b.lanes| == w
  }

  function OperandLane(b: Operand, k: nat): int
    requires b.VecArg? ==> k < |b.lanes|
  {
    match b
    case VecArg(lanes) => lanes[k]
    case ScalarArg(c) => c
  }

  /** Every lane operation is defined in C++. */
  predicate LanesDefined(t: LaneType, aop: AsgnOp, a: seq<int>, b: Operand)
  {
    && OperandWidth(b, |a|)
    && forall k | 0 <= k < |a| :: Defined(t, aop, a[k], OperandLane(b, k))
  }

  /** The lane-wise result of `a = b` or `a OP= b`: W independent scalar operations. */
  function LaneMap(t: LaneType, aop: AsgnOp, a: seq<int>, b: Operand): (r: seq<int>)
    requires LanesDefined(t, aop, a, b)
    ensures |r| == |a|
  {
    seq(|a|, k requires 0 <= k < |a| => Combine(t, aop, a[k], OperandLane(b, k)))
  }

  /** The code paths of the binary-operator tests:
      1 `vec OP vec`, 2 `vecptr[i] OP vecptr[i]`, 4 `vecptr[i] OP scalar`, 5 `vec OP scalar`. */
  datatype BinaryPath = VecOpVec | PtrOpPtr | PtrOpScalar | VecOpScalar

  /** The code paths of the assignment tests: 11 `*(ptr+i) OP= vec`,
      12 `ptr[i] OP= ptr[i]`, 13 `vec OP= vec`, 15 `vec OP= scalar`. */
  datatype AssignPath = HelperAsgnVec | HelperAsgnHelper | VecAsgnVec | VecAsgnScalar

  /** One implementation of the vector library: the lanes each code path produces from the
      lanes of its left operand and its right operand. */
  datatype Kernel = Kernel(
    binary: (BinaryPath, Op, seq<int>, Operand) -> seq<int>,
    assign: (AssignPath, AsgnOp, seq<int>, Operand) -> seq<int>)

  /** `vec<T, W>` always has W lanes. */
  ghost predicate Shaped(k: Kernel, w: nat)
  {
    && (forall p, op, a, b :: |k.binary(p, op, a, b)| == w)
    && (forall p, aop, a, b :: |k.assign(p, aop, a, b)| == w)
  }

  /** Every code path equals W independent applications of the scalar operator of `t`,
      wrap-around included, wherever those are defined. */
  ghost predicate IsLaneWise(k: Kernel, t: LaneType, w: nat)
  {
    && (forall p, op, a, b | |a| == w && LanesDefined(t, Update(op), a, b) ::
          k.binary(p, op, a, b) == LaneMap(t, Update(op), a, b))
    && (forall p, aop, a, b | |a| == w && LanesDefined(t, aop, a, b) ::
          k.assign(p, aop, a, b) == LaneMap(t, aop, a, b))
  }

  /** The vector library as specified: lane-wise on every path (with zero lanes where an
      operation is undefined). */
  function ReferenceKernel(t: LaneType, w: nat): (k: Kernel)
    ensures Shaped(k, w)
  {
    Kernel(
      (p: BinaryPath, op: Op, a: seq<int>, b: Operand) =>
        if |a| == w && LanesDefined(t, Update(op), a, b) then LaneMap(t, Update(op), a, b)
        else seq(w, _ => 0),
      (p: AssignPath, aop: AsgnOp, a: seq<int>, b: Operand) =>
        if |a| == w && LanesDefined(t, aop, a, b) then LaneMap(t, aop, a, b)
        else seq(w, _ => 0))
  }

  /** The specified library meets the lane-wise contract. */
  lemma ReferenceKernelIsLaneWise(t: LaneType, w: nat)
    ensures IsLaneWise(ReferenceKernel(t, w), t, w)
  {
  }
}
