/**
 * Two helpers of the transformix filter tests: the default "Direction" parameter (the
 * identity matrix, as strings) and the transform name derived from an ITK class name by
 * dropping the dimension ("Euler2DTransform" becomes "EulerTransform").
 */
module Transformix {
  import opened Optional
  import Arith

  // ---------------------------------------------------------------------------------------
  // The default direction

  /** Entry (`r`, `c`) of a `d` by `d` matrix stored row by row. */
  function At(values: seq<string>, d: nat, r: nat, c: nat): string
    requires |values| == d * d && r < d && c < d
  {
    Arith.RowMajor(d, d, r, c);
    values[r * d + c]
  }

  /** The element `r*d + c` of a `d` by `d` matrix lies on the diagonal exactly when it is a
      multiple of `d + 1`. */
  lemma {:induction false} DiagonalStride(d: nat, r: nat, c: nat)
    requires r < d && c < d
    ensures (r * d + c) % (d + 1) == 0 <==> r == c
  {
    var j := r * d + c;
    assert j == r * (d + 1) + (c - r);
    if r == c {
      Arith.DivModUnique(j, d + 1, r, 0);
    } else if r < c {
      Arith.DivModUnique(j, d + 1, r, c - r);
    } else {
      assert j == (r - 1) * (d + 1) + (d + 1 + c - r);
      Arith.DivModUnique(j, d + 1, r - 1, d + 1 + c - r);
    }
  }

  /** Between two consecutive multiples `i` and `i + step` of `step`, only `i` is one. */
  lemma StrideStep(i: nat, step: nat, j: int)
    requires step > 0 && i % step == 0 && i <= j < i + step
    ensures j % step == 0 <==> j == i
    ensures (i + step) % step == 0
  {
    Arith.DivModUnique(j, step, i / step, j - i);
    Arith.DivModUnique(i + step, step, i / step + 1, 0);
  }

  /** A row-major `d` by `d` matrix with "1" exactly at the multiples of `d + 1` is the
      identity matrix. */
  lemma {:induction false} StrideIsIdentity(values: seq<string>, d: nat)
    requires |values| == d * d
    requires forall j | 0 <= j < d * d :: values[j] == if j % (d + 1) == 0 then "1" else "0"
    ensures forall r, c | 0 <= r < d && 0 <= c < d ::
      At(values, d, r, c) == if r == c then "1" else "0"
  {
    forall r, c | 0 <= r < d && 0 <= c < d
      ensures At(values, d, r, c) == if r == c then "1" else "0"
    {
      Arith.RowMajor(d, d, r, c);
      DiagonalStride(d, r, c);
      assert At(values, d, r, c) == values[r * d + c];
    }
  }

  /** `CreateDefaultDirectionParameterValues<d>()`: `d*d` strings "0", with "1" written at
      every `(d+1)`-th position. The result is the `d` by `d` identity matrix. */
  method CreateDefaultDirectionParameterValues(d: nat) returns (values: seq<string>)
    ensures |values| == d * d
    ensures forall r, c | 0 <= r < d && 0 <= c < d ::
      At(values, d, r, c) == if r == c then "1" else "0"
  {
    var numberOfValues := d * d;
    var step := d + 1;
    values := seq(numberOfValues, _ => "0");
    var i := 0;
    while i < numberOfValues
      invariant i % step == 0
      invariant |values| == numberOfValues
      invariant forall j | 0 <= j < numberOfValues ::
        values[j] == if j < i && j % step == 0 then "1" else "0"
      decreases numberOfValues - i
    {
      ghost var previous := values;
      values := values[i := "1"];
      forall j | 0 <= j < numberOfValues
        ensures values[j] == if j < i + step && j % step == 0 then "1" else "0"
      {
        if i <= j < i + step {
          StrideStep(i, step, j);
        } else {
          assert values[j] == previous[j];
        }
      }
      StrideStep(i, step, i);
      i := i + step;
    }
    StrideIsIdentity(values, d);
  }

  // ---------------------------------------------------------------------------------------
  // Decimal strings

  predicate IsDigit(ch: char) { '0' <= ch <= '9' }

  function DigitChar(n: nat): (ch: char)
    requires n < 10
    ensures IsDigit(ch)
  {
    "0123456789"[n]
  }

  function DigitValue(ch: char): nat
    requires IsDigit(ch)
  {
    (ch as int) - ('0' as int)
  }

  /** `std::to_string` on a non-negative integer: its decimal digits, without leading zeros. */
  function DecimalString(n: nat): (s: string)
    ensures 1 <= |s|
    ensures forall i | 0 <= i < |s| :: IsDigit(s[i])
    ensures |s| == 1 <==> n < 10
  {
    if n < 10 then [DigitChar(n)] else DecimalString(n / 10) + [DigitChar(n % 10)]
  }

  /** The value of a string of decimal digits. */
  function ParseDecimal(s: string): nat
    requires forall i | 0 <= i < |s| :: IsDigit(s[i])
  {
    if s == [] then 0 else ParseDecimal(s[..|s| - 1]) * 10 + DigitValue(s[|s| - 1])
  }

  /** Reading back the digits of `DecimalString(n)` gives `n`, and the first digit is not a
      zero unless `n` is. */
  lemma {:induction false} DecimalRoundTrip(n: nat)
    ensures ParseDecimal(DecimalString(n)) == n
    ensures DecimalString(n)[0] == '0' <==> n == 0
  {
    var s := DecimalString(n);
    if n < 10 {
      assert s[..0] == [];
    } else {
      DecimalRoundTrip(n / 10);
      assert s[..|s| - 1] == DecimalString(n / 10);
    }
  }

  // ---------------------------------------------------------------------------------------
  // Finding and erasing

  predicate MatchesAt(s: string, p: string, i: nat)
  {
    i + |p| <= |s| && s[i..i + |p|] == p
  }

  /** The first position at or after `from` where `p` occurs in `s`. */
  function FindFrom(s: string, p: string, from: nat): (r: Option<nat>)
    ensures r.Some? ==> from <= r.value && MatchesAt(s, p, r.value)
    ensures forall i | from <= i && (r.None? || i < r.value) :: !MatchesAt(s, p, i)
    decreases |s| - from
  {
    if from + |p| > |s| then None
    else if s[from..from + |p|] == p then Some(from)
    else FindFrom(s, p, from + 1)
  }

  /** `std::string::find`: the first position where `p` occurs in `s`, if any. */
  function Find(s: string, p: string): (r: Option<nat>)
    ensures r.Some? ==> MatchesAt(s, p, r.value)
    ensures forall i | 0 <= i && (r.None? || i < r.value) :: !MatchesAt(s, p, i)
  {
    FindFrom(s, p, 0)
  }

  /** The text the dimension is looked up by: "2DTransform" for dimension 2. */
  function DimensionPattern(d: nat): string
  {
    DecimalString(d) + "DTransform"
  }

  /** The renaming in `CreateTransformixFilter`: the first occurrence of the dimension
      followed by "DTransform" loses its first two characters; a name without one is kept. */
  function NormalizeTransformName(name: string, d: nat): (r: string)
    ensures Find(name, DimensionPattern(d)).None? ==> r == name
    ensures Find(name, DimensionPattern(d)).Some? ==>
      var pos := Find(name, DimensionPattern(d)).value;
      |r| == |name| - 2 && r[..pos] == name[..pos] && r[pos..] == name[pos + 2..]
  {
    match Find(name, DimensionPattern(d))
    case None => name
    case Some(pos) => name[..pos] + name[pos + 2..]
  }

  /** The dimension erasure as the comment beside it describes it: the dimension's digits and
      the "D" go, whatever the number of digits. */
  function NormalizeTransformNameByDigits(name: string, d: nat): (r: string)
    ensures Find(name, DimensionPattern(d)).None? ==> r == name
  {
    match Find(name, DimensionPattern(d))
    case None => name
    case Some(pos) => name[..pos] + name[pos + |DecimalString(d)| + 1..]
  }

  /** In a class name `base` + "<d>DTransform" whose `base` has no "D", the pattern first
      occurs right after `base`. */
  lemma {:induction false} PatternFirstAfterBase(base: string, d: nat)
    requires 'D' !in base
    ensures Find(base + DimensionPattern(d), DimensionPattern(d)) == Some(|base|)
  {
    var p, s := DimensionPattern(d), base + DimensionPattern(d);
    var n := |DecimalString(d)|;
    assert s[|base|..|base| + |p|] == p;
    assert p[n] == 'D';
    assert MatchesAt(s, p, |base|);
    forall i | 0 <= i < |base|
      ensures !MatchesAt(s, p, i)
    {
    }
  }

  /** The intended renaming drops exactly the dimension: "<base><d>DTransform" becomes
      "<base>Transform", for every dimension. */
  lemma {:induction false} ByDigitsDropsDimension(base: string, d: nat)
    requires 'D' !in base
    ensures NormalizeTransformNameByDigits(base + DimensionPattern(d), d) == base + "Transform"
  {
    PatternFirstAfterBase(base, d);
    var s := base + DimensionPattern(d);
    var n := |DecimalString(d)|;
    assert s[..|base|] == base;
    assert s[|base| + n + 1..] == "Transform";
  }

  /** As written, the renaming of "<base><d>DTransform" drops the first two characters of
      the pattern, whatever the number of digits. */
  lemma {:induction false} ErasesFirstTwoOfPattern(base: string, d: nat)
    requires 'D' !in base
    ensures NormalizeTransformName(base + DimensionPattern(d), d) == base + DimensionPattern(d)[2..]
  {
    PatternFirstAfterBase(base, d);
    var s := base + DimensionPattern(d);
    assert s[..|base|] == base;
    assert s[|base| + 2..] == DimensionPattern(d)[2..];
  }

  /** For one-digit dimensions, which are the ones the tests instantiate, the renaming as
      written drops exactly the dimension, as the intended one does. */
  lemma {:induction false} SingleDigitDropsDimension(base: string, d: nat)
    requires 'D' !in base && d < 10
    ensures NormalizeTransformName(base + DimensionPattern(d), d) == base + "Transform"
    ensures NormalizeTransformName(base + DimensionPattern(d), d)
         == NormalizeTransformNameByDigits(base + DimensionPattern(d), d)
  {
    ErasesFirstTwoOfPattern(base, d);
    ByDigitsDropsDimension(base, d);
    var dec := DecimalString(d);
    assert |dec| == 1;
    assert DimensionPattern(d)[2..] == "DTransform"[1..];
  }

  /** From ten dimensions on, the renaming as written erases the first two digits and keeps
      the rest of the number and the "D", so it differs from the intended one. */
  lemma {:induction false} MultiDigitKeepsD(base: string, d: nat)
    requires 'D' !in base && d >= 10
    ensures NormalizeTransformName(base + DimensionPattern(d), d)
         == base + DecimalString(d)[2..] + "DTransform"
    ensures NormalizeTransformName(base + DimensionPattern(d), d)
         != NormalizeTransformNameByDigits(base + DimensionPattern(d), d)
  {
    var dec := DecimalString(d);
    var r := NormalizeTransformName(base + DimensionPattern(d), d);
    ErasesFirstTwoOfPattern(base, d);
    ByDigitsDropsDimension(base, d);
    assert (dec + "DTransform")[2..] == dec[2..] + "DTransform";
    assert |r| == |base| + |dec| + 8;
  }

  /** The two-digit counterexample spelled out: for "Euler10DTransform", which is "Euler"
      followed by the pattern of dimension 10, `MultiDigitKeepsD` gives "EulerDTransform"
      where `ByDigitsDropsDimension` gives "EulerTransform". */
  lemma TwoDigitDimensionKeepsD()
    ensures "Euler" + DimensionPattern(10) == "Euler10DTransform"
    ensures "Euler" + DecimalString(10)[2..] + "DTransform" == "EulerDTransform"
  {
    assert DecimalString(1) == "1";
    assert DecimalString(10)[2..] == [];
  }

  /** A text cannot occur where its first character does not. */
  lemma NoMatchWithoutFirst(s: string, p: string, i: nat)
    requires |p| > 0 && p[0] !in s
    ensures !MatchesAt(s, p, i)
  {
  }

  /** A name without the dimension pattern, such as "AffineTransform", is kept. */
  lemma AffineNameKept()
    ensures NormalizeTransformName("AffineTransform", 2) == "AffineTransform"
  {
    var s, p := "AffineTransform", DimensionPattern(2);
    assert p[0] == '2';
    forall i | 0 <= i
      ensures !MatchesAt(s, p, i)
    {
      NoMatchWithoutFirst(s, p, i);
    }
  }
}
