# Integer matrix multiplication: a verified model

The repository is a teaching-style test suite for one routine,
`multiplyMatrices(A, B, C, rowsA, colsA, colsB)`, which multiplies two dense integer
matrices into a caller-supplied output. The suite also defines a helper,
`sum_matrices(A, B, C)`, which adds two matrices entry by entry and throws
`std::invalid_argument` when their sizes differ. The property tests check that the
product is the sum of products of rows with columns and that it is not commutative.
They also check associativity, distributivity over `sum_matrices` on both sides,
left and right identity (square and rectangular) and the zero product.

This project models that algebra in Dafny:

- `Vectors` (vectors.dfy): the dot product and its symmetry, linearity, zero and unit-vector facts.
- `Matrices` (matrices.dfy): a matrix is `seq<seq<int>>` with the shape predicate
  `IsMatrix(a, m, n)`. The module defines `Add`, `Multiply`, `Identity` and `ZeroMatrix`.
  `Multiply(a, b, m, n, p)` takes the dimension triple and requires it to match the
  actual shapes.
- `SumHelper` (sum_matrices.dfy): one call of `sum_matrices`, including the size test,
  the throw before any write, and the `resize` of a non-empty output.
- `MultiplyLoop` (multiply_loop.dfy): the triple-loop product writing into a pre-sized
  output, proved equal to `Multiply`.
- `Laws` (laws.dfy): the algebraic laws, for all compatible shapes.
- `Bounds` (bounds.dfy): when the product agrees with C++ 32-bit `int` arithmetic.
- `TestCases` (test_cases.dfy): the concrete matrices of the tests.

## Model

| member | source | states |
|---|---|---|
| Matrices.Multiply | test/test_matrix_multiplication.cpp:9-28 | an m x n times n x p product is m x p, and entry (i, j) is the sum over k of A[i][k]*B[k][j] |
| MultiplyLoop.MultiplyInto | test/test_matrix_multiplication.cpp:19-28 | the triple-loop accumulation overwrites every entry of a pre-sized m x p output with the sum-of-products product, whatever the output held before |
| TestCases.ProductWitness | test/test_matrix_multiplication.cpp:9-28 | [[1,2,3],[4,5,6]] times [[7,8],[9,10],[11,12]] is [[58,64],[139,154]] |
| TestCases.NotCommutative | test/test_matrix_multiplication.cpp:93-110 | for A=[[1,0],[1,-1]] and B=[[1,2],[2,4]], A·B = [[1,2],[-1,-2]] and B·A = [[3,-2],[6,-4]], so A·B differs from B·A |
| Laws.MultiplyAssociative | test/test_matrix_multiplication.cpp:112-141 | (A·B)·C = A·(B·C) for every m x n A, n x p B and p x q C |
| SumHelper.SumMatrices | test/test_matrix_multiplication.cpp:143-155 | the call throws exactly when the row counts or the first-row widths differ; on a throw the output is untouched and the error is invalid_argument("Matrices must have the same size"); otherwise the output has as many rows as A, entry (i, j) is A[i][j]+B[i][j] for every j below A's first-row width, rows kept by the resize keep their width and trailing entries, and new rows have A's first-row width |
| SumHelper.SumMatricesIsAdd | test/test_matrix_multiplication.cpp:148-154 | for two m x n matrices (m > 0) and an output that is empty or holds rows of width n, the call returns normally and leaves exactly the entrywise sum `Add` in the output |
| SumHelper.SumMatricesRejectsMismatch | test/test_matrix_multiplication.cpp:144-147 | two rectangular matrices of different shapes, at most one of them empty, are rejected with invalid_argument, and the output keeps its contents |
| Laws.LeftDistributive | test/test_matrix_multiplication.cpp:157-189 | A·(B+C) = A·B + A·C for every m x n A and n x p B, C |
| Laws.RightDistributive | test/test_matrix_multiplication.cpp:191-223 | (B+C)·A = B·A + C·A for every m x n B, C and n x p A |
| Laws.LeftIdentity | test/test_matrix_multiplication.cpp:259-276 | I·A = A for every m x n A, rectangular or square (the square test at 225-240 is the case m = n), with I the m x m identity |
| Laws.RightIdentity | test/test_matrix_multiplication.cpp:278-294 | A·I = A for every m x n A, rectangular or square (the square test at 242-257 is the case m = n), with I the n x n identity |
| Laws.MultiplyByZero | test/test_matrix_multiplication.cpp:296-315 | A times the n x p zero matrix is the m x p zero matrix, so its shape is rows(A) x cols(O) |
| TestCases.ZeroProductAsWritten | test/test_matrix_multiplication.cpp:303-317 | the 3 x 2 product A·O is not equal to the 2 x 2 O that line 317 compares it with |
| TestCases.ZeroProductCorrected | test/test_matrix_multiplication.cpp:308-315 | A·O equals ex_AO, the 3 x 2 zero matrix the test declares |
| TestCases.LargeNumberAsWritten | test/test_matrix_multiplication.cpp:320-342 | the expected matrix of the large-number test is not the product of A with the first two rows of B |
| TestCases.LargeNumberCorrected | test/test_matrix_multiplication.cpp:320-334 | the product of that test's A with the first two rows of B is [[1000000,0],[0,1],[9,-5]] |
| Bounds.TermsFitInt32 | test/test_matrix_multiplication.cpp:320-334 | if every entry of A has magnitude at most ma, every entry of B at most mb, and n·ma·mb fits in a 32-bit int, then every term A[i][k]*B[k][j] of the triple loop fits in a 32-bit int |
| Bounds.ProductFitsInt32 | test/test_matrix_multiplication.cpp:320-334 | under the same bounds, every running sum of the triple loop and every product entry fits in a 32-bit int, so unbounded and 32-bit arithmetic agree there |
| TestCases.LargeNumberFitsInt32 | test/test_matrix_multiplication.cpp:320-334 | for the large-number test's A (entries up to 1000000) and the two rows of B taken part (entries up to 1), every term, every running sum and every entry of the product fits in a 32-bit int |

## Left out

- The gtest harness and `main` (test/test_matrix_multiplication.cpp:345-348) are test-runner plumbing.
- Matrices.Multiply: does not check the declared dimension triple against the actual shapes; the triple is a precondition that must equal them. The C++ body of `multiplyMatrices` is not part of this model, and its tests disagree on what a wrong triple should do. Lines 21 and 43 pass wrong triples yet expect the correct product. Line 65 is meant to test a wrong colsB but passes the same triple (2, 1, 2) as line 43, so it never does. Lines 88-90 (`TestRowBWrong`, message "Code allows for wrong number of rowsA/colsB") expect a wrong triple to throw. That test fails for every implementation, though. `ASSERT_ANY_THROW()` at line 90 wraps an empty statement, which never throws, so the assertion always fails. If the call at line 88 throws instead, the exception escapes the test uncaught. Line 273 passes (3, 2, 3) for a 3 x 3 times 3 x 2 product. The model encodes neither reading.
- MultiplyLoop.MultiplyInto: is the standard triple loop. It is not claimed to follow the unseen C++ loop body statement by statement.
- Matrices.Multiply: does not model the wrap-around or undefined behaviour of 32-bit `int` overflow; entries are unbounded integers. `Bounds.TermsFitInt32` and `Bounds.ProductFitsInt32` state when the two agree.
- SumHelper.SumMatrices: does not model 32-bit overflow of `A[i][j] + B[i][j]`, for the same reason.
- SumHelper.SumMatrices: requires what the C++ code needs to avoid undefined behaviour. When the row counts are equal, A must be non-empty, because `A[0]` is read. When the sizes pass the test, every row of A and B, and every row of C that survives the resize, must be at least as wide as A's first row.
- The expected matrix of the large-number test is not asserted as a product; see Findings.

## Findings

| source | as written | input that shows it | evidently intended | confidence | as-written member | corrected member |
|---|---|---|---|---|---|---|
| test/test_matrix_multiplication.cpp:317 | `ASSERT_EQ(AO, O)` compares the 3 x 2 product with the 2 x 2 zero operand O, so the assertion fails for any correct product | A = [[1,0],[1,-1],[4,5]], O = [[0,0],[0,0]] | `ASSERT_EQ(AO, ex_AO)` with the 3 x 2 zero matrix declared at 308-312 | high; not executed | TestCases.ZeroProductAsWritten | TestCases.ZeroProductCorrected |
| test/test_matrix_multiplication.cpp:336-340 | the expected product is [[1000000,0],[0,2],[21,21]] | A = [[1000000,0],[1,-1],[4,5]], B = [[1,0],[1,-1],[4,5]], inner dimension 2 | [[1000000,0],[0,1],[9,-5]], the product of A with the two rows of B the inner dimension selects | high; not executed | TestCases.LargeNumberAsWritten | TestCases.LargeNumberCorrected |
