/**
 * The pointer adapters through which the tests see a plain array of `numel` lanes as
 * `numvecs` vectors of `w` lanes: `vecptr` (contiguous), `vecptr_step` (strided) and
 * either of them behind a `guard_pointer` bounded to the array.
 *
 * The lane layouts of the adapters belong to the vector library, which is not part of this
 * model; they are taken to be: lane k of vector i is element `i*w + k` (contiguous) or
 * element `k*step + i` (strided), and `p + i` addresses the same vector as `p[i]`.
 */
module Adapters {
  import opened Optional
  import Arith

  datatype Layout = Contiguous | Strided(step: int)

  /** The half-open range `[lo, hi)` a guarded pointer admits. */
  datatype Bounds = Bounds(lo: int, hi: int)

  /** A vector pointer over an array, with indices relative to the array's first element. */
  datatype View = View(layout: Layout, guard: Option<Bounds>)

  /** The four pointer types the tests are instantiated with. */
  datatype PtrKind = VecPtr | GuardedVecPtr | StepPtr | GuardedStepPtr

  predicate IsGuarded(kind: PtrKind) { kind == GuardedVecPtr || kind == GuardedStepPtr }

  predicate IsStrided(kind: PtrKind) { kind == StepPtr || kind == GuardedStepPtr }

  /** `wrapptr<vecptrtype, T>::get(ptr, numtests, numel)`: the adapter over the array at `ptr`. */
  function Get(kind: PtrKind, numtests: int, numel: int): (v: View)
    ensures forall w: nat | numtests > 0 && w > 0 && numel == numtests * w :: Tiles(v, numtests, w)
  {
    var layout := if IsStrided(kind) then Strided(numtests) else Contiguous;
    var guard := if IsGuarded(kind) then Some(Bounds(0, numel)) else None;
    View(layout, guard)
  }

  /** The element holding lane `k` of vector `i`. */
  function Addr(v: View, w: nat, i: nat, k: nat): (a: int)
    ensures v.layout.Contiguous? && k < w ==> a / w == i && a % w == k
    ensures v.layout.Strided? && i < v.layout.step ==> a / v.layout.step == k && a % v.layout.step == i
  {
    match v.layout
    case Contiguous =>
      if k < w then Arith.DivModUnique(i * w + k, w, i, k); i * w + k else i * w + k
    case Strided(step) =>
      if i < step then Arith.DivModUnique(k * step + i, step, k, i); k * step + i else k * step + i
  }

  /** The view splits `n*w` elements into `n` vectors of `w` lanes, and a guard, if any,
      admits exactly those elements. */
  predicate Tiles(v: View, n: nat, w: nat)
  {
    && n > 0
    && w > 0
    && (v.layout.Strided? ==> v.layout.step == n)
    && (v.guard.Some? ==> v.guard.value == Bounds(0, n * w))
  }

  /** The address lies inside the array and inside the guard of the view. */
  predicate Admits(v: View, numel: int, a: int)
  {
    && 0 <= a < numel
    && (v.guard.Some? ==> v.guard.value.lo <= a < v.guard.value.hi)
  }

  /** The vector an element belongs to. */
  function VecIndex(v: View, n: nat, w: nat, j: int): (i: int)
    requires Tiles(v, n, w) && 0 <= j < n * w
    ensures 0 <= i < n
  {
    match v.layout
    case Contiguous => Arith.DivBelow(j, n, w); j / w
    case Strided(step) => j % step
  }

  /** The lane of its vector an element is. */
  function LaneIndex(v: View, n: nat, w: nat, j: int): (k: int)
    requires Tiles(v, n, w) && 0 <= j < n * w
    ensures 0 <= k < w
  {
    match v.layout
    case Contiguous => j % w
    case Strided(step) => Arith.DivBelow(j, w, n); j / step
  }

  lemma {:induction false} AddrInverse(v: View, n: nat, w: nat, i: nat, k: nat)
    requires Tiles(v, n, w) && i < n && k < w
    ensures Admits(v, n * w, Addr(v, w, i, k))
    ensures VecIndex(v, n, w, Addr(v, w, i, k)) == i
    ensures LaneIndex(v, n, w, Addr(v, w, i, k)) == k
  {
    match v.layout
    case Contiguous =>
      Arith.RowMajor(n, w, i, k);
    case Strided(step) =>
      Arith.RowMajor(w, n, k, i);
  }

  lemma {:induction false} IndexInverse(v: View, n: nat, w: nat, j: int)
    requires Tiles(v, n, w) && 0 <= j < n * w
    ensures 0 <= VecIndex(v, n, w, j) < n && 0 <= LaneIndex(v, n, w, j) < w
    ensures Addr(v, w, VecIndex(v, n, w, j), LaneIndex(v, n, w, j)) == j
  {
    match v.layout
    case Contiguous =>
      assert j == (j / w) * w + j % w;
    case Strided(step) =>
      assert j == (j / n) * n + j % n;
  }

  /** Under the layouts the wrappers build with `numtests == numvecs` and
      `numel == numvecs * w`, every lane of every vector is an element inside the array and
      inside the guard, and every element of the array is exactly one lane of one vector. */
  lemma {:induction false} GetCoversExactlyOnce(kind: PtrKind, numvecs: nat, w: nat)
    requires numvecs > 0 && w > 0
    ensures Tiles(Get(kind, numvecs, numvecs * w), numvecs, w)
    ensures var v := Get(kind, numvecs, numvecs * w);
      forall i, k | 0 <= i < numvecs && 0 <= k < w ::
        && Admits(v, numvecs * w, Addr(v, w, i, k))
        && VecIndex(v, numvecs, w, Addr(v, w, i, k)) == i
        && LaneIndex(v, numvecs, w, Addr(v, w, i, k)) == k
    ensures var v := Get(kind, numvecs, numvecs * w);
      forall j | 0 <= j < numvecs * w ::
        && 0 <= VecIndex(v, numvecs, w, j) < numvecs
        && 0 <= LaneIndex(v, numvecs, w, j) < w
        && Addr(v, w, VecIndex(v, numvecs, w, j), LaneIndex(v, numvecs, w, j)) == j
  {
    var v := Get(kind, numvecs, numvecs * w);
    forall i, k | 0 <= i < numvecs && 0 <= k < w
      ensures Admits(v, numvecs * w, Addr(v, w, i, k))
      ensures VecIndex(v, numvecs, w, Addr(v, w, i, k)) == i
      ensures LaneIndex(v, numvecs, w, Addr(v, w, i, k)) == k
    {
      AddrInverse(v, numvecs, w, i, k);
    }
    forall j | 0 <= j < numvecs * w
      ensures 0 <= VecIndex(v, numvecs, w, j) < numvecs
      ensures 0 <= LaneIndex(v, numvecs, w, j) < w
      ensures Addr(v, w, VecIndex(v, numvecs, w, j), LaneIndex(v, numvecs, w, j)) == j
    {
      IndexInverse(v, numvecs, w, j);
    }
  }

  /** Loading vector `i`: its `w` lanes read through the view. */
  function Gather(v: View, n: nat, w: nat, s: seq<int>, i: nat): (r: seq<int>)
    requires Tiles(v, n, w) && |s| == n * w && i < n
    ensures |r| == w
  {
    seq(w, k requires 0 <= k < w => AddrInverse(v, n, w, i, k); s[Addr(v, w, i, k)])
  }

  predicate Shaped(n: nat, w: nat, vs: seq<seq<int>>)
  {
    |vs| == n && forall i | 0 <= i < n :: |vs[i]| == w
  }

  /** The array obtained by storing vector `vs[i]` through the view for every `i`. */
  function Scatter(v: View, n: nat, w: nat, vs: seq<seq<int>>): (s: seq<int>)
    requires Tiles(v, n, w) && Shaped(n, w, vs)
    ensures |s| == n * w
  {
    seq(n * w, j requires 0 <= j < n * w =>
      IndexInverse(v, n, w, j); vs[VecIndex(v, n, w, j)][LaneIndex(v, n, w, j)])
  }

  /** Storing vectors and loading one back gives that vector. */
  lemma {:induction false} GatherScatter(v: View, n: nat, w: nat, vs: seq<seq<int>>, i: nat)
    requires Tiles(v, n, w) && Shaped(n, w, vs) && i < n
    ensures Gather(v, n, w, Scatter(v, n, w, vs), i) == vs[i]
  {
    var s := Scatter(v, n, w, vs);
    forall k | 0 <= k < w
      ensures Gather(v, n, w, s, i)[k] == vs[i][k]
    {
      AddrInverse(v, n, w, i, k);
    }
  }

  /** Loading every vector of an array and storing them back gives the array. */
  lemma {:induction false} ScatterGather(v: View, n: nat, w: nat, s: seq<int>)
    requires Tiles(v, n, w) && |s| == n * w
    ensures Scatter(v, n, w, seq(n, i requires 0 <= i < n => Gather(v, n, w, s, i))) == s
  {
    var vs := seq(n, i requires 0 <= i < n => Gather(v, n, w, s, i));
    var r := Scatter(v, n, w, vs);
    forall j | 0 <= j < n * w
      ensures r[j] == s[j]
    {
      IndexInverse(v, n, w, j);
    }
  }

  /** Two families of vectors are stored as the same array only if they are equal. */
  lemma {:induction false} ScatterInjective(v: View, n: nat, w: nat, vs: seq<seq<int>>, us: seq<seq<int>>)
    requires Tiles(v, n, w) && Shaped(n, w, vs) && Shaped(n, w, us)
    ensures Scatter(v, n, w, vs) == Scatter(v, n, w, us) <==> vs == us
  {
    if Scatter(v, n, w, vs) == Scatter(v, n, w, us) {
      forall i | 0 <= i < n
        ensures vs[i] == us[i]
      {
        GatherScatter(v, n, w, vs, i);
        GatherScatter(v, n, w, us, i);
      }
    }
  }
}
