/**
 * Concrete values of one instantiation, `test_vec<int32_t, 4, vecptr<int32_t*, 4>,
 * testLims<int32_t>>`: forty elements per array, inputs and references that wrap around.
 */
module Oracle {
  import Arith
  import opened Lanes
  import opened Limits
  import opened Adapters
  import opened Vectors
  import opened Harness

  function Int32Config(): (c: Config)
    ensures ValidConfig(c) && Numel(c) == 40
  {
    Config(Int32, 4, VecPtr, Int32Table())
  }

  /** The first element of `in2`: `(40*39/2 - 0)*45007 = 780*45007`, which fits. */
  lemma Int32FirstIn2()
    ensures In2(Int32Config())[0] == 35105460
  {
    var c := Int32Config();
    WrapUnique(Int32, 1560, 1560);
    WrapUnique(Int32, 0, 0);
    WrapUnique(Int32, 780, 780);
    assert Apply(Int32, Mul, 40, 39) == 1560;
    assert Apply(Int32, Div, 1560, 2) == 780;
    assert Apply(Int32, Mul, 0, 0) == 0;
    assert TriangleMinusSquare(40, 0) == 780;
    assert In2At(c, 0) == Wrap(Int32, 780 * 45007);
    WrapUnique(Int32, 780 * 45007, 35105460);
  }

  /** Element 8 of `in1`: `5*429496751` leaves the int32 range and wraps to a negative
      value. */
  lemma Int32EighthIn1()
    ensures In1(Int32Config())[8] == -2147483541
    ensures !InRange(Int32, 5 * Int32Config().lims.scale1)
  {
    var c := Int32Config();
    assert In1At(c, 8) == Wrap(Int32, 5 * 429496751);
    WrapUnique(Int32, 5 * 429496751, -2147483541);
  }

  /** The reference of check 4 for `+`: `in2[0] + plus` leaves the int32 range and wraps. */
  lemma Int32PlusWraps()
    ensures var c := Int32Config();
      && !InRange(Int32, In2(c)[0] + c.lims.plus)
      && RefDefined(Int32, Update(Add), In2(c), Scalar(Convert(Int32, c.lims.plus)), In2(c))
      && Reference(Int32, Update(Add), In2(c), Scalar(Convert(Int32, c.lims.plus)), In2(c))[0] == -2112378190
  {
    var c := Int32Config();
    Int32FirstIn2();
    InputsDefined(c, Update(Add), Convert(Int32, c.lims.plus));
    var r := Reference(Int32, Update(Add), In2(c), Scalar(Convert(Int32, c.lims.plus)), In2(c));
    assert r[0] == Apply(Int32, Add, 35105460, 2147483646);
    WrapUnique(Int32, 35105460 + 2147483646, -2112378190);
  }

  /** The specified library produces that wrapped value in lane 0 of vector 0. */
  lemma Int32PlusVectorLane()
    ensures var c := Int32Config();
      var k := ReferenceKernel(Int32, 4);
      BinaryBatch(c, k, PtrOpScalar, Add, In2(c), Scalar(Convert(Int32, c.lims.plus)), In2(c))[0] == -2112378190
  {
    var c := Int32Config();
    var k := ReferenceKernel(Int32, 4);
    ReferenceKernelIsLaneWise(Int32, 4);
    Int32PlusWraps();
    var v := ViewOf(c);
    var vs := BinaryVectors(c, k, PtrOpScalar, Add, In2(c), Scalar(Convert(Int32, c.lims.plus)), In2(c));
    AddrInverse(v, NumVecs, 4, 0, 0);
    VectorDefined(c, Update(Add), In2(c), Scalar(Convert(Int32, c.lims.plus)), In2(c), 0);
    assert vs[0] == LaneMap(Int32, Update(Add), GatherAt(c, In2(c), 0), ScalarArg(Convert(Int32, c.lims.plus)));
  }

  /** With the int32_t table on int64_t lanes the product `(i-3)*scale1` is still computed in
      `int`: element 8 of `in1` wraps at 32 bits before it is widened. */
  lemma Int32TableOnInt64Lanes()
    ensures var c := Config(Int64, 4, VecPtr, Int32Table());
      ValidConfig(c) && In1(c)[8] == -2147483541
  {
    var c := Config(Int64, 4, VecPtr, Int32Table());
    assert TableProduct(c.lims, 5, 429496751) == Wrap(Int32, 5 * 429496751);
    WrapUnique(Int32, 5 * 429496751, -2147483541);
    assert In1At(c, 8) == Convert(Int64, -2147483541);
  }

  /** `numel*(numel-1)/2 - i*i` for the forty elements of the width-4 instantiation. */
  lemma Int32Triangle(j: nat)
    requires j < 40
    ensures -741 <= 780 - j * j <= 780
    ensures TriangleMinusSquare(40, j) == 780 - j * j
  {
    Arith.MulMonotone(j, 39, j);
    Arith.MulMonotone(j, 39, 39);
    WrapUnique(Int32, 1560, 1560);
    WrapUnique(Int32, j * j, j * j);
    WrapUnique(Int32, 780 - j * j, 780 - j * j);
    assert Apply(Int32, Mul, 40, 39) == 1560;
    assert Apply(Int32, Div, 1560, 2) == 780;
  }

  /** 780 lies strictly between the squares 27*27 and 28*28. */
  lemma NotSquare780(j: nat)
    ensures j * j != 780
  {
    if j <= 27 {
      Arith.MulMonotone(j, 27, j);
      Arith.MulMonotone(j, 27, 27);
    } else {
      Arith.MulMonotone(28, j, j);
      Arith.MulMonotone(28, j, 28);
    }
  }

  /** Every element of `in2` of the width-4 instantiation is a non-zero multiple of 45007. */
  lemma Int32In2At(j: nat)
    requires j < 40
    ensures In2(Int32Config())[j] == (780 - j * j) * 45007
    ensures In2(Int32Config())[j] != 0 && In2(Int32Config())[j] != -1
  {
    var c := Int32Config();
    var e := 780 - j * j;
    Int32Triangle(j);
    NotSquare780(j);
    Arith.MulMonotone(-741, e, 45007);
    Arith.MulMonotone(e, 780, 45007);
    assert TableProduct(c.lims, e, 45007) == e * 45007;
    assert In2At(c, j) == e * 45007;
    if e > 0 {
      Arith.MulAtLeast(e, 45007);
    } else {
      Arith.MulAtLeast(-e, 45007);
      assert (-e) * 45007 == -(e * 45007);
    }
  }

  /** `test_division()` is well defined for the width-4 instantiation: no element of `in2` is
      0 or -1, and the constants 3 and 5 are neither. */
  lemma Int32DivisionDefined()
    ensures DivisionDefined(Int32Config())
  {
    var c := Int32Config();
    forall j | 0 <= j < 40
      ensures In2(c)[j] != 0 && In2(c)[j] != -1
    {
      Int32In2At(j);
    }
  }

  /** With vlen = 5, `numel*(numel-1)/2` is 1225 = 35*35, so `in2[35]` is 0 and
      `test_division()` divides by zero in its very first reference run. */
  lemma Width5DividesByZero()
    ensures var c := Config(Int32, 5, VecPtr, Int32Table());
      && ValidConfig(c) && In2(c)[35] == 0 && !DivisionDefined(c)
  {
    var c := Config(Int32, 5, VecPtr, Int32Table());
    Width5In2(c);
    assert !Defined(Int32, Update(Div), In1(c)[35], In2(c)[35]);
  }

  /** With 50 lanes, lane 35 of `in2` is `(1225 - 35*35) * scale2 == 0`. */
  lemma Width5In2(c: Config)
    requires c == Config(Int32, 5, VecPtr, Int32Table())
    ensures ValidConfig(c) && In2(c)[35] == 0
  {
    Width5Triangle();
    assert TableProduct(c.lims, 0, 45007) == 0;
  }

  /** `numel*(numel-1)/2 - 35*35` is 0 for `numel == 50`, computed in int32_t. */
  lemma Width5Triangle()
    ensures TriangleMinusSquare(50, 35) == 0
  {
    WrapUnique(Int32, 2450, 2450);
    WrapUnique(Int32, 1225, 1225);
    WrapUnique(Int32, 0, 0);
    assert Apply(Int32, Mul, 50, 49) == 2450;
    assert Apply(Int32, Div, 2450, 2) == 1225;
    assert Apply(Int32, Mul, 35, 35) == 1225;
  }

  /** The default `float` table on int32_t lanes: the products are exact, so `in1[8]` is 5. */
  lemma DefaultTableOnInt32Lanes()
    ensures var c := Config(Int32, 4, VecPtr, DefaultTable());
      ValidConfig(c) && In1(c)[8] == 5
  {
    var c := Config(Int32, 4, VecPtr, DefaultTable());
    assert FloatExact(c);
    assert TableProduct(c.lims, 5, 1) == 5;
  }
}
