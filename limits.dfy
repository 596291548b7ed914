/**
 * `testLims`: the per-type constant tables of the vector tests. Two scale factors shape the
 * synthetic inputs; the other nine values are the right operands of the scalar variants of
 * `+ - * /` and `= += -= *= /=`. The int32_t and int64_t tables are chosen so that the
 * scalar results wrap around.
 */
module Limits {
  import opened Lanes

  /** The type of a table's values: `float` for the default table, or one of the integer
      lane types for the specialised ones. */
  datatype ValueType = FloatValues | IntValues(lane: LaneType)

  /** The largest magnitude up to which every integer is a `float` value (2^24). */
  const FloatExactLimit: int := 0x100_0000

  /** One table. The value the source calls `is` (the right operand of `= c`) is `isValue`
      here, `is` being a keyword. */
  datatype Table = Table(
    vt: ValueType,
    scale1: int, scale2: int,
    plus: int, minus: int, multiply: int, divide: int,
    isValue: int, plusis: int, minusis: int, multiplyis: int, divideis: int)

  /** Every constant of the table is a value of the table's own type: of its integer type,
      or an integer that a `float` holds exactly. */
  predicate Fits(l: Table)
  {
    match l.vt
    case IntValues(t) => FitsIn(t, l)
    case FloatValues => forall x | x in Constants(l) :: -FloatExactLimit <= x <= FloatExactLimit
  }

  function Constants(l: Table): seq<int>
  {
    [l.scale1, l.scale2, l.plus, l.minus, l.multiply, l.divide,
     l.isValue, l.plusis, l.minusis, l.multiplyis, l.divideis]
  }

  /** Every constant of the table is a value of the integer type `t`. */
  predicate FitsIn(t: LaneType, l: Table)
  {
    && InRange(t, l.scale1) && InRange(t, l.scale2)
    && InRange(t, l.plus) && InRange(t, l.minus) && InRange(t, l.multiply) && InRange(t, l.divide)
    && InRange(t, l.isValue) && InRange(t, l.plusis) && InRange(t, l.minusis)
    && InRange(t, l.multiplyis) && InRange(t, l.divideis)
  }

  /** The default table, `testLims<float>`, meant for floating-point lanes; its values are
      small integers. */
  function DefaultTable(): (l: Table)
    ensures l.vt == FloatValues && Fits(l)
    ensures FitsIn(Int32, l) && FitsIn(Int64, l)
    ensures l.divide != 0 && l.divideis != 0
  {
    Table(FloatValues, 1, 1, 123, 134, 12, 3, 123, 15435, 12344, 73, 5)
  }

  /** The int32_t table. */
  function Int32Table(): (l: Table)
    ensures l.vt == IntValues(Int32) && Fits(l)
    ensures l.divide != 0 && l.divideis != 0
  {
    Table(IntValues(Int32), 429496751, 45007,
          2147483646, 2147483645, 5052911, 3,
          123, -2147483646, -2147483643, -715827883, 5)
  }

  /** The int64_t table. */
  function Int64Table(): (l: Table)
    ensures l.vt == IntValues(Int64) && Fits(l)
    ensures l.divide != 0 && l.divideis != 0
  {
    Table(IntValues(Int64), 429496751, 613566757,
          9223372036854775806, 9223372036854775805, 3074457345618258603, 3,
          123, -9223372036854775806, -9223372036854775805, -3074457345618258603, 5)
  }

  /** The integer tables sit at the edges of their types: adding `plus` to any operand above 1,
      or `plusis` to any operand below -2, leaves the type, and so does tripling
      `multiplyis`. */
  lemma IntegerTablesAtTheEdge(t: LaneType)
    ensures var l := if t == Int32 then Int32Table() else Int64Table();
      && l.plus == MaxValue(t) - 1
      && l.plusis == MinValue(t) + 2
      && !InRange(t, 3 * l.multiplyis)
  {
  }
}
