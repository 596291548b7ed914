# Vector self-test and transformix test helpers, modelled in Dafny

This project models two pieces of the elastix code base.

**The differential self-test of the SSE vector type** (`test_vec` in
`src/Common/SSEvec/emm_vec_tests.hxx`). One instantiation of the test fixes:

- a lane type T;
- a vector width `vlen`;
- a pointer adapter: `vecptr`, `vecptr_step`, or either of them behind a `guard_pointer`;
- a `testLims` table of constants.

The test then runs as follows:

1. It fills two arrays of `numel = 10 * vlen` elements from fixed formulas (`INIT_TESTS`).
2. For every operator it writes into `out2` what the scalar operator of T computes.
3. It writes into `out1`, vector by vector, what a vector code path computes.
4. It compares the two (`TESTEQ`). It logs at most one warning per comparison, overwrites `out1` with a sentinel and carries on.

The vector library (`emm_vec.hxx`) is not part of this model. `Vectors.Kernel` stands for any implementation of it: one function per code path the tests exercise. `Vectors.IsLaneWise` is the contract the library is meant to meet.

The results proved are:

- Every check of `test()` and `test_division()` warns **exactly when** the library's vectors differ from the lane-wise reference for some vector (`Harness.BinaryCheckExact`, `Harness.AssignCheckExact`).
- A lane-wise library therefore never makes either test warn, wrap-around included (`Harness.LaneWiseKernelPassesTest`, `Harness.LaneWiseKernelPassesDivisionTest`).
- The class `Harness.TestVec` runs the test step by step on arrays and is proved to log exactly those warnings.

The lane types are `int32_t` and `int64_t`:

- Their arithmetic is two's complement with wrap-around (`Lanes.Wrap`).
- Their division truncates toward zero (`Lanes.TruncDiv`); Dafny's own `/` is Euclidean.
- The expression `numel*(numel-1)/2 - i*i` of `INIT_TESTS` has type `int`, so it is evaluated at 32 bits.
- The scale factors of a `testLims` table have the table's own type: `float` for the default table, `int32_t` or `int64_t` for the specialised ones. So `(i-3)*scale1` and `(…)*scale2` are computed in that type and only then converted to T (`Harness.TableProduct`, `Lanes.Convert`). The same holds for the constants, which the test converts with `T c = CVAL`.

**Two helpers of the transformix filter tests** (`Core/Main/GTesting/itkTransformixFilterGTest.cxx`):

- `CreateDefaultDirectionParameterValues<d>()` is proved to build the `d` by `d` identity matrix, as strings.
- The renaming of an ITK transform class name in `CreateTransformixFilter` ("Euler2DTransform" becomes "EulerTransform") is modelled with `std::string::find` (`Transformix.Find`) and `std::to_string` (`Transformix.DecimalString`).

The adapters' lane layouts belong to the vector library, so they are assumptions of this model:

- lane `k` of vector `i` is element `i*vlen + k` for `vecptr`;
- it is element `k*step + i` for `vecptr_step`, whose step is the `numtests` that `wrapptr` passes (10);
- `p + i` designates the same vector as `p[i]`;
- a guard admits exactly the elements of its array.

Under these layouts every lane of every vector is inside the array and inside the guard, and every element is exactly one lane of one vector (`Adapters.GetCoversExactlyOnce`).

Modules:

- `Arith`: division facts;
- `Lanes`: lane types and scalar operators;
- `Optional`;
- `Adapters`: pointer adapters, loads and stores;
- `Vectors`: the library seen from the tests;
- `Limits`: the `testLims` tables;
- `Harness`: the test itself;
- `Oracle`: concrete values of the `int32_t`, width-4 instantiation;
- `Transformix`.

## Model

| member | source | states |
|---|---|---|
| Lanes.Wrap | src/Common/SSEvec/emm_vec_tests.hxx:57 | the lane result is a value of the lane type congruent to the exact result modulo 2^32 or 2^64 (integer types wrap around) |
| Lanes.WrapUnique | src/Common/SSEvec/emm_vec_tests.hxx:57 | that value is unique: any in-range value congruent to the exact result is the wrapped one |
| Lanes.TruncDivRemainder | src/Common/SSEvec/emm_vec_tests.hxx:253-257 | the C++ quotient leaves a remainder smaller than the divisor in magnitude and with the sign of the dividend |
| Lanes.TruncDivOdd | src/Common/SSEvec/emm_vec_tests.hxx:253-257 | C++ division is odd in the dividend: `(-a)/b == -(a/b)` |
| Lanes.TruncDivNonNegative | src/Common/SSEvec/emm_vec_tests.hxx:253-257 | on non-negative operands C++ and Euclidean division agree |
| Lanes.TruncDivShrinks | src/Common/SSEvec/emm_vec_tests.hxx:253-257 | the quotient is no larger than the dividend, and at most half of it for divisors of magnitude 2 or more |
| Lanes.DivisionInRange | src/Common/SSEvec/emm_vec_tests.hxx:253-257 | a division with a non-zero divisor that is not MIN / -1 stays in the lane type |
| Lanes.MinByMinusOneOverflows | src/Common/SSEvec/emm_vec_tests.hxx:253-257 | MIN / -1 is MAX + 1, which is why it is excluded |
| Lanes.Convert | src/Common/SSEvec/emm_vec_tests.hxx:132 | converting an integer to T keeps it when it fits and otherwise yields the value of T congruent to it modulo 2^bits |
| Lanes.TruncDiv | src/Common/SSEvec/emm_vec_tests.hxx:253-257 | C++ `/` truncates toward zero: the quotient's magnitude is the largest number of whole divisors in the dividend's magnitude, and it is negative only when the signs differ |
| Lanes.Apply | src/Common/SSEvec/emm_vec_tests.hxx:113-116 | a defined binary operator on lane values yields a lane value |
| Lanes.ApplyWrapsExact | src/Common/SSEvec/emm_vec_tests.hxx:57 | the lane result is congruent to the exact result and equals it whenever the exact result fits |
| Lanes.Combine | src/Common/SSEvec/emm_vec_tests.hxx:159-164 | the new value after `=` or `OP=` is a lane value; after `OP=` it is congruent to the exact result and equals it whenever that fits |
| Lanes.Int32WithinAll | src/Common/SSEvec/emm_vec_tests.hxx:224-225 | an `int` value (32 bits) is a value of either lane type, so `i` and the `int` subexpression convert to T unchanged |
| Limits.DefaultTable | src/Common/SSEvec/emm_vec_tests.hxx:40-55 | the default table holds `float` values, all integers that `float` represents exactly, which fit both integer lane types; both divisors are non-zero |
| Limits.Int32Table | src/Common/SSEvec/emm_vec_tests.hxx:58-74 | the table holds `int32_t` values and both divisors are non-zero |
| Limits.Int64Table | src/Common/SSEvec/emm_vec_tests.hxx:77-93 | the table holds `int64_t` values and both divisors are non-zero |
| Limits.IntegerTablesAtTheEdge | src/Common/SSEvec/emm_vec_tests.hxx:57-93 | `plus` is MAX-1, `plusis` is MIN+2 and three times `multiplyis` leaves the type, in both integer tables |
| Adapters.Get | src/Common/SSEvec/emm_vec_tests.hxx:9-37 | the adapter `wrapptr::get` builds over `numtests*w` elements splits them into `numtests` vectors of `w` lanes, with the step of a strided adapter equal to `numtests` and a guard of exactly `[0, numel)` |
| Adapters.Addr | src/Common/SSEvec/emm_vec_tests.hxx:9-37 | the element of lane `k` of vector `i` determines both: dividing it by the width (contiguous) or the step (strided) gives them back |
| Adapters.VecIndex | src/Common/SSEvec/emm_vec_tests.hxx:228-230 | every element of the array belongs to one of the `numvecs` vectors |
| Adapters.LaneIndex | src/Common/SSEvec/emm_vec_tests.hxx:228-230 | every element of the array is one of the `vlen` lanes of its vector |
| Adapters.AddrInverse | src/Common/SSEvec/emm_vec_tests.hxx:9-37 | lane `k` of vector `i` lies inside the array and the guard, and maps back to vector `i`, lane `k` |
| Adapters.IndexInverse | src/Common/SSEvec/emm_vec_tests.hxx:9-37 | every element is the address of its own vector and lane |
| Adapters.GetCoversExactlyOnce | src/Common/SSEvec/emm_vec_tests.hxx:9-37 | for every adapter `wrapptr::get` builds, lanes and elements are in one-to-one correspondence, inside the array and the guard |
| Adapters.Gather | src/Common/SSEvec/emm_vec_tests.hxx:119-121 | loading a vector through the adapter yields `vlen` lanes |
| Adapters.Scatter | src/Common/SSEvec/emm_vec_tests.hxx:123-128 | storing `numvecs` vectors through the adapter yields an array of `numel` elements |
| Adapters.GatherScatter | src/Common/SSEvec/emm_vec_tests.hxx:119-128 | loading vector `i` back from stored vectors gives vector `i` |
| Adapters.ScatterGather | src/Common/SSEvec/emm_vec_tests.hxx:119-128 | storing every loaded vector gives back the array |
| Adapters.ScatterInjective | src/Common/SSEvec/emm_vec_tests.hxx:102-110 | two families of vectors give the same array if and only if they are equal, so comparing arrays compares vectors |
| Vectors.LaneMap | src/Common/SSEvec/emm_vec_tests.hxx:98 | a lane-wise operation keeps the width of its operand |
| Vectors.ReferenceKernel | src/Common/SSEvec/emm_vec_tests.hxx:98 | the specified library yields `vlen` lanes on every path |
| Vectors.ReferenceKernelIsLaneWise | src/Common/SSEvec/emm_vec_tests.hxx:98 | the specified library meets the lane-wise contract, so that contract can be met |
| Harness.GatherAt | src/Common/SSEvec/emm_vec_tests.hxx:228-230 | a vector loaded from a test array has `vlen` lanes |
| Harness.TableProduct | src/Common/SSEvec/emm_vec_tests.hxx:224-225 | the product of an `int` and a table value, computed in the table's integer type, is a value of that type congruent to the exact product, and equals it when it fits |
| Harness.In1At | src/Common/SSEvec/emm_vec_tests.hxx:224 | `in1[i] = (i-3)*scale1`, computed in the table's type and converted to T, is a value of T |
| Harness.TriangleMinusSquare | src/Common/SSEvec/emm_vec_tests.hxx:225 | `numel*(numel-1)/2 - i*i` evaluated in 32-bit `int` is an `int` value |
| Harness.In2At | src/Common/SSEvec/emm_vec_tests.hxx:225 | `in2[i]`, the `int` subexpression times `scale2` in the table's type and converted to T, is a value of T |
| Harness.In1 | src/Common/SSEvec/emm_vec_tests.hxx:223-226 | `in1` has `numel` elements, all values of T |
| Harness.In2 | src/Common/SSEvec/emm_vec_tests.hxx:223-226 | `in2` has `numel` elements, all values of T |
| Harness.Reference | src/Common/SSEvec/emm_vec_tests.hxx:115-117 | the scalar reference run has one element per input element |
| Harness.ReferenceOfSet | src/Common/SSEvec/emm_vec_tests.hxx:159-164 | the reference of `=` is `in2` itself, and that of `= c` holds `c` in every element |
| Harness.RhsVec | src/Common/SSEvec/emm_vec_tests.hxx:121 | the right operand of a vector is `vlen` lanes of `in2` or a broadcast scalar |
| Harness.VectorDefined | src/Common/SSEvec/emm_vec_tests.hxx:115-117 | if every scalar operation of the reference run is defined, so is every lane operation of every vector |
| Harness.ReferenceVector | src/Common/SSEvec/emm_vec_tests.hxx:119-124 | the lane-wise result for one vector has `vlen` lanes |
| Harness.ReferenceVectors | src/Common/SSEvec/emm_vec_tests.hxx:119-124 | the lane-wise results form `numvecs` vectors of `vlen` lanes |
| Harness.BinaryVectors | src/Common/SSEvec/emm_vec_tests.hxx:119-124 | the library's results on a binary path form `numvecs` vectors of `vlen` lanes |
| Harness.AssignVectors | src/Common/SSEvec/emm_vec_tests.hxx:167-170 | the library's results on an assignment path form `numvecs` vectors of `vlen` lanes |
| Harness.BinaryBatch | src/Common/SSEvec/emm_vec_tests.hxx:127-129 | `out1` after a binary path holds `numel` elements |
| Harness.AssignBatch | src/Common/SSEvec/emm_vec_tests.hxx:177-179 | `out1` after an assignment path holds `numel` elements |
| Harness.ReferenceIsScatter | src/Common/SSEvec/emm_vec_tests.hxx:115-124 | the scalar reference run equals the lane-wise vectors stored through the adapter |
| Harness.ScatterMatchesReference | src/Common/SSEvec/emm_vec_tests.hxx:102-110 | stored vectors equal the scalar reference if and only if every vector equals its lane-wise reference |
| Harness.InputsDefined | src/Common/SSEvec/emm_vec_tests.hxx:239-248 | with the synthetic inputs and any constant of T, every scalar `+ - * = += -= *=` is defined |
| Harness.BinaryCheck | src/Common/SSEvec/emm_vec_tests.hxx:102-110 | one `TESTEQ` of a binary test logs no warning or exactly one, naming the operator and the check number |
| Harness.AssignCheck | src/Common/SSEvec/emm_vec_tests.hxx:102-110 | one `TESTEQ` of an assignment test logs no warning or exactly one, naming `OP=` and the check number |
| Harness.BinaryWarnings | src/Common/SSEvec/emm_vec_tests.hxx:113-148 | `TEST_BINARY_OP` logs at most four warnings, all for its operator, from checks 1, 2, 4 and 5, in increasing check order |
| Harness.AssignWarnings | src/Common/SSEvec/emm_vec_tests.hxx:159-214 | `TEST_ASGN_OP` logs at most four warnings, all for its `OP=`, from checks 11, 12, 13 and 15, in increasing check order |
| Harness.TestWarnings | src/Common/SSEvec/emm_vec_tests.hxx:234-252 | `test()` logs at most 28 warnings, each for one of `+ - * = += -= *=` and one of the eight checks; it never reports a division |
| Harness.DivisionWarnings | src/Common/SSEvec/emm_vec_tests.hxx:253-258 | `test_division()` logs at most 8 warnings, each for `/` or `/=` |
| Harness.BinaryCheckExact | src/Common/SSEvec/emm_vec_tests.hxx:113-148 | a binary check (1, 2, 4 or 5) warns if and only if the library differs from the lane-wise result on some vector |
| Harness.AssignCheckExact | src/Common/SSEvec/emm_vec_tests.hxx:159-214 | an assignment check (11, 12, 13 or 15) warns if and only if the library differs from the lane-wise result on some vector |
| Harness.LaneWiseBinarySilent | src/Common/SSEvec/emm_vec_tests.hxx:113-148 | a lane-wise library makes no binary-operator check warn |
| Harness.LaneWiseAssignSilent | src/Common/SSEvec/emm_vec_tests.hxx:159-214 | a lane-wise library makes no assignment check warn |
| Harness.LaneWiseKernelPassesTest | src/Common/SSEvec/emm_vec_tests.hxx:234-248 | a lane-wise library makes `test()` log nothing, for every lane type, width, adapter and table |
| Harness.LaneWiseKernelPassesDivisionTest | src/Common/SSEvec/emm_vec_tests.hxx:253-258 | a lane-wise library makes `test_division()` log nothing whenever its divisions are defined |
| Harness.TestVec.constructor | src/Common/SSEvec/emm_vec_tests.hxx:217-221 | four fresh, distinct arrays of `numel` elements and an empty log |
| Harness.TestVec.InitTests | src/Common/SSEvec/emm_vec_tests.hxx:217-230 | `in1` and `in2` hold the synthetic inputs |
| Harness.TestVec.TestEq | src/Common/SSEvec/emm_vec_tests.hxx:102-110 | one warning is appended if and only if some element of `out1` differs from `out2`, and `out1` ends all 12376 |
| Harness.TestVec.Store | src/Common/SSEvec/emm_vec_tests.hxx:123 | storing vector `i` sets exactly its lanes and leaves every other element unchanged |
| Harness.TestVec.ReferenceBinary | src/Common/SSEvec/emm_vec_tests.hxx:115-117 | `out2` holds the scalar reference `lhs OP rhs` |
| Harness.TestVec.ReferenceAssign | src/Common/SSEvec/emm_vec_tests.hxx:161-165 | `out1` holds `in1` and `out2` holds `in1 OP= rhs` |
| Harness.TestVec.ResetOut1 | src/Common/SSEvec/emm_vec_tests.hxx:173-175 | `out1` holds `in1` |
| Harness.TestVec.VectorBinary | src/Common/SSEvec/emm_vec_tests.hxx:119-124 | `out1` holds the library's results on a binary path, stored through the adapter |
| Harness.TestVec.VectorAssign | src/Common/SSEvec/emm_vec_tests.hxx:167-170 | `out1` holds the library's `OP=` results over `in1`, stored through the adapter |
| Harness.TestVec.BinaryCheckStep | src/Common/SSEvec/emm_vec_tests.hxx:119-125 | the log grows by the warning of that binary check |
| Harness.TestVec.AssignCheckStep | src/Common/SSEvec/emm_vec_tests.hxx:167-171 | the log grows by the warning of that assignment check |
| Harness.TestVec.BinaryCheckPair | src/Common/SSEvec/emm_vec_tests.hxx:114-131 | the log grows by the warnings of the two checks sharing one reference run |
| Harness.TestVec.TestBinaryOp | src/Common/SSEvec/emm_vec_tests.hxx:113-148 | the log grows by exactly the warnings of checks 1, 2, 4, 5 in that order |
| Harness.TestVec.AssignVectorChecks | src/Common/SSEvec/emm_vec_tests.hxx:160-192 | the log grows by exactly the warnings of checks 11, 12, 13 in that order |
| Harness.TestVec.AssignScalarCheck | src/Common/SSEvec/emm_vec_tests.hxx:193-214 | the log grows by exactly the warning of check 15 |
| Harness.TestVec.TestAssignOp | src/Common/SSEvec/emm_vec_tests.hxx:159-214 | the log grows by exactly the warnings of checks 11, 12, 13, 15 in that order |
| Harness.TestVec.Test | src/Common/SSEvec/emm_vec_tests.hxx:234-252 | the log grows by exactly the warnings `TestWarnings` predicts for `+ - * = += -= *=` |
| Harness.TestVec.TestDivision | src/Common/SSEvec/emm_vec_tests.hxx:253-258 | the log grows by exactly the warnings predicted for `/` and `/=` |
| Oracle.Int32Config | src/Common/SSEvec/emm_vec_tests.hxx:95-97 | the `int32_t`, width-4 instantiation is valid and has 40 elements per array |
| Oracle.Int32FirstIn2 | src/Common/SSEvec/emm_vec_tests.hxx:225 | `in2[0]` is 780*45007 = 35105460 |
| Oracle.Int32EighthIn1 | src/Common/SSEvec/emm_vec_tests.hxx:224 | `in1[8]` is 5*429496751 wrapped, -2147483541, and the exact product does not fit |
| Oracle.Int32PlusWraps | src/Common/SSEvec/emm_vec_tests.hxx:134-136 | the reference `in2[0] + plus` does not fit `int32_t` and wraps to -2112378190 |
| Oracle.Int32PlusVectorLane | src/Common/SSEvec/emm_vec_tests.hxx:137-140 | the specified library stores that same wrapped value in element 0 on path 4 |
| Oracle.Int32TableOnInt64Lanes | src/Common/SSEvec/emm_vec_tests.hxx:224 | with the `int32_t` table on `int64_t` lanes, `in1[8]` is still wrapped at 32 bits, -2147483541, before it is widened |
| Oracle.DefaultTableOnInt32Lanes | src/Common/SSEvec/emm_vec_tests.hxx:224 | the default `float` table with `int32_t` lanes is a valid configuration, and `in1[8]` is exactly 5 |
| Oracle.Int32Triangle | src/Common/SSEvec/emm_vec_tests.hxx:225 | for 40 elements the `int` subexpression is `780 - i*i`, between -741 and 780 |
| Oracle.Int32In2At | src/Common/SSEvec/emm_vec_tests.hxx:225 | `in2[i]` is `(780 - i*i)*45007`, never 0 nor -1 |
| Oracle.Int32DivisionDefined | src/Common/SSEvec/emm_vec_tests.hxx:253-258 | every division of `test_division()` is defined for the `int32_t`, width-4 instantiation |
| Oracle.Width5DividesByZero | src/Common/SSEvec/emm_vec_tests.hxx:225 | with `vlen` 5, `numel*(numel-1)/2` is 1225 = 35*35, so `in2[35]` is 0 and `test_division()` is not defined |
| Oracle.Width5In2 | src/Common/SSEvec/emm_vec_tests.hxx:225 | with `vlen` 5 on `int32_t` lanes the configuration is valid and `in2[35]` is 0 |
| Oracle.Width5Triangle | src/Common/SSEvec/emm_vec_tests.hxx:225 | for 50 elements the `int` subexpression `numel*(numel-1)/2 - 35*35` is 0 |
| Transformix.DiagonalStride | Core/Main/GTesting/itkTransformixFilterGTest.cxx:101 | element `r*d + c` is a multiple of `d + 1` exactly when `r == c` |
| Transformix.StrideStep | Core/Main/GTesting/itkTransformixFilterGTest.cxx:101 | between two consecutive multiples of the stride only the first is one |
| Transformix.StrideIsIdentity | Core/Main/GTesting/itkTransformixFilterGTest.cxx:98-104 | "1" at the multiples of `d + 1` and "0" elsewhere is the identity matrix |
| Transformix.CreateDefaultDirectionParameterValues | Core/Main/GTesting/itkTransformixFilterGTest.cxx:94-106 | `d*d` strings forming the `d` by `d` identity matrix: "1" on the diagonal, "0" elsewhere |
| Transformix.DigitChar | Core/Main/GTesting/itkTransformixFilterGTest.cxx:182 | a number below ten is written as one decimal digit |
| Transformix.DecimalString | Core/Main/GTesting/itkTransformixFilterGTest.cxx:182 | `std::to_string` of a non-negative number is a non-empty string of digits, one digit long exactly for numbers below ten |
| Transformix.DecimalRoundTrip | Core/Main/GTesting/itkTransformixFilterGTest.cxx:182 | reading the digits back gives the number, and there is no leading zero |
| Transformix.FindFrom | Core/Main/GTesting/itkTransformixFilterGTest.cxx:182 | the result is an occurrence at or after the start with none before it, or there is none at all |
| Transformix.Find | Core/Main/GTesting/itkTransformixFilterGTest.cxx:182 | `std::string::find` yields the first occurrence, or none exists |
| Transformix.NormalizeTransformName | Core/Main/GTesting/itkTransformixFilterGTest.cxx:180-187 | a name without the pattern is kept; otherwise it loses exactly the two characters at the first occurrence |
| Transformix.NormalizeTransformNameByDigits | Core/Main/GTesting/itkTransformixFilterGTest.cxx:185 | the intended erasure also keeps a name without the pattern |
| Transformix.PatternFirstAfterBase | Core/Main/GTesting/itkTransformixFilterGTest.cxx:182 | in "<base><d>DTransform" with no "D" in the base, the first occurrence is right after the base |
| Transformix.ErasesFirstTwoOfPattern | Core/Main/GTesting/itkTransformixFilterGTest.cxx:183-187 | the renaming of "<base><d>DTransform" is the base followed by the pattern without its first two characters |
| Transformix.SingleDigitDropsDimension | Core/Main/GTesting/itkTransformixFilterGTest.cxx:185-186 | for dimensions below ten, "<base><d>DTransform" becomes "<base>Transform", as intended |
| Transformix.ByDigitsDropsDimension | Core/Main/GTesting/itkTransformixFilterGTest.cxx:185 | erasing the digits and the "D" turns "<base><d>DTransform" into "<base>Transform" for every dimension |
| Transformix.MultiDigitKeepsD | Core/Main/GTesting/itkTransformixFilterGTest.cxx:185-186 | from ten dimensions on, the renaming as written keeps the "D" and differs from the intended one |
| Transformix.TwoDigitDimensionKeepsD | Core/Main/GTesting/itkTransformixFilterGTest.cxx:185-186 | for dimension 10 the name is "Euler10DTransform", and the result `MultiDigitKeepsD` gives for it spells "EulerDTransform" |
| Transformix.NoMatchWithoutFirst | Core/Main/GTesting/itkTransformixFilterGTest.cxx:182 | a text cannot occur where its first character does not |
| Transformix.AffineNameKept | Core/Main/GTesting/itkTransformixFilterGTest.cxx:183 | "AffineTransform" has no dimension pattern and is kept as it is |

## Left out

- Floating-point lanes are not modelled. The default `testLims` table is meant for them; its constants are modelled, and the model uses them with integer lanes only.
- Harness.In1At, Harness.In2At: with the `float` default table, the products are modelled as exact. So `Harness.ValidConfig` admits a `float` table only when `numel^2` times the sum of the scale factors' magnitudes stays within 2^24 (`Harness.FloatExact`), which holds up to `vlen` 289 with the default table. Rounding of larger products is not modelled.
- Harness.TestVec.TestDivision: it requires `Harness.DivisionDefined`. The source does not ensure this: whenever `numel*(numel-1)/2` is a perfect square, some `in2[i]` is 0 and `test_division()` divides by zero. `vlen` 5 is an example (`Oracle.Width5DividesByZero`). That undefined behaviour is not modelled. `test()` never calls `test_division()`, since the call is commented out.
- The vector library `emm_vec.hxx` is not part of this model. Its code paths are the parameter `Kernel`, and the adapters' lane layouts are the assumptions stated above.
- What a `guard_pointer` does on an out-of-bounds access is not modelled. Instead the model proves that no access of the tests is out of bounds.
- `DISPMSG` is dropped: its "Testing … with pointer type …" line adds nothing to the log. `WARNMSG` is reduced to a log entry (operator, check number), without the message text, the quoted operator and the `typeid` name of the vector type.
- The `hasDivision` template parameter is not modelled: its only use, the call of `test_division()` from `test()`, is commented out. `test_division()` is modelled on its own (`Harness.TestVec.TestDivision`).
- The commented-out code is not modelled: the `scalar OP vector` check (lines 149-156) and check 14 (lines 200-203).
- Signed overflow is undefined behaviour in C++. The model gives it two's-complement wrap-around, which is what the integer tables are designed around. Division by zero and MIN / -1 are excluded by `Lanes.Defined`.
- Harness.TestVec.InitTests: the source declares the four arrays inside `INIT_TESTS`. The model allocates them in the constructor and reuses them across runs.
- Harness.TestVec.Test: its contract ties the log to `TestWarnings`. That a lane-wise library leaves the log unchanged is the separate lemma `Harness.LaneWiseKernelPassesTest`, not a clause of the method.
- Harness.TestVec.TestDivision: the same applies, through `Harness.LaneWiseKernelPassesDivisionTest`.
- Oracle: concrete values are worked out for the `int32_t`, width-4, `vecptr` instantiation, plus the two configurations of `Oracle.Int32TableOnInt64Lanes` and `Oracle.Width5DividesByZero`.
- Transformix.CreateDefaultDirectionParameterValues: `std::size_t` is modelled as an unbounded natural number. No realistic image dimension comes near its limit.
- Transformix.TwoDigitDimensionKeepsD: it states the concrete strings only. Applying `NormalizeTransformName` to them is `Transformix.MultiDigitKeepsD` with base "Euler" and dimension 10.
- The rest of `itkTransformixFilterGTest.cxx` is not modelled: the images, the transformix filter, the parameter objects and the GTest cases. Only the two helpers above are modelled.

## Findings

| source | as written | input that shows it | evidently intended | confidence | as-written member | corrected member |
|---|---|---|---|---|---|---|
| Core/Main/GTesting/itkTransformixFilterGTest.cxx:185-186 | erases two characters at the position of "<d>DTransform", whatever the number of digits of `d` | `VImageDimension` = 10 with class name "Euler10DTransform": the result is "EulerDTransform" | erase the dimension's digits and the "D" (the comment beside it reads "2D" or "3D"), giving "EulerTransform" | low, not executed; the tests only instantiate dimensions 2 and 3, where both agree | Transformix.MultiDigitKeepsD | Transformix.ByDigitsDropsDimension |
