# Copula families: validation, parameter access and sampling shape

A Dafny model of the core of a Rust copula library: the three Archimedean
families `ClaytonCopula`, `FrankCopula` and `IndependenceCopula`, and the
error type they share. Each family is built by a validating constructor and
then answers `cdf`, `pdf`, `sample`, `parameters` and `set_parameters`.

What the model states and proves:

- which constructor inputs are refused (dimension below 2, and per family a
  `theta` outside its domain) and that an accepted input is stored unchanged;
- which error kind each operation reports for a wrong input length (Clayton
  and Frank say `InvalidParameter`, Independence says `DimensionMismatch`),
  and that only Independence range-checks coordinates;
- the Independence CDF: the product of the coordinates, which lies in [0,1];
- the Clayton density's normalising product `prod (1 + theta*i)`, i < d: it
  has `d` factors and, under the constructor's bound, each is positive;
- `sample`: Clayton refuses exactly a negative `theta` and otherwise fills a
  fresh `n x d` matrix in which each cell is written exactly once with its
  formula value; Frank's `pdf` and `sample` always fail with
  `NotImplemented`; Independence always returns an `n x d` matrix;
- the parameter get/set pair: Clayton's setter is stricter than its
  constructor (a validly built instance with negative `theta` cannot take
  back its own parameters), Frank's setter does not re-check `theta != 0`,
  Independence's setter accepts everything and changes nothing.

Layout: `errors.dfy` (module `CopulaErrors`), `copula.dfy` (module
`CopulaShared`: the `Dimension` type, at least 2, shared by all families), `f64.dfy` (module `F64`: sums,
products, integer powers, the `usize`-to-`i32` cast and the abstract
transcendental operations), `clayton.dfy`, `frank.dfy`, `independence.dfy`.
Clayton and Frank are classes, because `set_parameters` updates `theta` in
place; `dimension` is a `const` field, since nothing changes it after
construction. Independence never changes, so it is a datatype. A Rust
constructor returns `Result<Self>`; in the model that is a static method
`New` (Clayton, Frank) or static function `New` (Independence) returning
`Result`, and the plain Dafny constructor is the struct literal it uses.

`f64` is modelled as `real`, `DVector<f64>` as `seq<real>` and `DMatrix<f64>`
as `array2<real>`. `powf`, `exp`, `ln` and the value of a division by zero are
fields of an `F64.Ops` record passed to the operations that use them. The
random generator is a parameter: `frailty(r)` is the Gamma draw for row `r`,
`exponential(r, c)` and `uniform(r, c)` are the draws for cell `(r, c)`.

Three behaviours of the code are worth singling out:
- Frank's setter does not apply the constructor's `theta != 0` check
  (`Frank.SetterBreaksAdmissible`);
- for Clayton with negative `theta`, `set_parameters(parameters())` fails
  (`Clayton.RoundTripIff`);
- `DimensionMismatch` exists, but only Independence uses it for a length
  mismatch; Clayton and Frank report `InvalidParameter`.

## Model

| member | source | states |
|---|---|---|
| `Clayton.ClaytonCopula.New` | src/families/clayton.rs:16-28 | fails with InvalidParameter iff `dimension < 2` or `theta <= -1/(dimension-1)`; on success a fresh instance holding exactly the given `theta` and `dimension` |
| `Clayton.ClaytonCopula.constructor` | src/families/clayton.rs:27 | the struct literal stores both fields unchanged |
| `Clayton.ClaytonCopula.Cdf` | src/families/clayton.rs:36-49 | succeeds iff the input length equals `dimension`, whatever the values; a mismatch is InvalidParameter; the value is never negative (the clamp at 0) |
| `Clayton.ClaytonCopula.Pdf` | src/families/clayton.rs:51-75 | succeeds iff the input length equals `dimension`, with no range check; a mismatch is InvalidParameter |
| `Clayton.NormalisingFactorsPositive` | src/families/clayton.rs:58-60 | the normalising product has exactly `dimension` factors, and under the constructor's bound `theta > -1/(d-1)` every factor and the product are positive |
| `Clayton.BoundScaled` | src/families/clayton.rs:22 | the constructor's bound scaled by `d-1`: `theta*(d-1) > -1` |
| `Clayton.NegativeThetaAdmissible` | src/families/clayton.rs:22 | for every dimension the constructor accepts some negative `theta` (half the bound) |
| `Clayton.ClaytonCopula.Sample` | src/families/clayton.rs:77-101 | fails with InvalidParameter iff `theta < 0`; otherwise a fresh `n x dimension` matrix whose cell (r, c) holds `(1 + e/w)^(-1/theta)` for that row's frailty draw and that cell's exponential draw, each cell written exactly once |
| `Clayton.ClaytonCopula.Parameters` | src/families/clayton.rs:103-105 | the one-element vector `[theta]`; used by `Clayton.RoundTripIff` |
| `Clayton.SetParametersOutcome` | src/families/clayton.rs:107-121 | the setter's outcome: succeeds iff exactly one value is given and it is not negative, installing that value; otherwise InvalidParameter. The setter lemmas are stated about this function; the `SetParameters` ensures tie it to the method |
| `Clayton.ClaytonCopula.SetParameters` | src/families/clayton.rs:107-123 | applies `Clayton.SetParametersOutcome` in place: fails with InvalidParameter on a length other than 1 or a negative value, leaving `theta` unchanged; otherwise `theta` becomes `params[0]`; afterwards the instance satisfies the constructor's bound |
| `Clayton.SetterKeepsAdmissible` | src/families/clayton.rs:115-121 | every value the setter accepts satisfies the constructor's bound for every dimension |
| `Clayton.RoundTripIff` | src/families/clayton.rs:103-119 | `set_parameters(parameters())` succeeds iff `theta >= 0` and then restores `theta`; a valid instance with negative `theta` gets InvalidParameter |
| `Frank.FrankCopula.New` | src/families/frank.rs:12-24 | fails with InvalidParameter iff `dimension < 2` or `theta == 0`; on success a fresh instance holding both values unchanged |
| `Frank.FrankCopula.constructor` | src/families/frank.rs:23 | the struct literal stores both fields unchanged |
| `Frank.FrankCopula.Cdf` | src/families/frank.rs:32-47 | succeeds iff the input length equals `dimension`, whatever the values; a mismatch is InvalidParameter |
| `F64.AsI32` | src/families/frank.rs:44 | the `usize`-to-`i32` cast of the exponent keeps the value modulo 2^32 in the `i32` range, and is the identity below 2^31 |
| `Frank.FrankCopula.Pdf` | src/families/frank.rs:50-54 | fails with NotImplemented on every input, including one of the wrong length |
| `Frank.FrankCopula.Sample` | src/families/frank.rs:56-60 | fails with NotImplemented for every `n` |
| `Frank.FrankCopula.Parameters` | src/families/frank.rs:62-64 | the one-element vector `[theta]`; used by `Frank.RoundTrip` |
| `Frank.SetParametersOutcome` | src/families/frank.rs:66-74 | the setter's outcome: fails with InvalidParameter iff the length is not 1; otherwise installs the given value as it is, zero included. The setter lemmas are stated about this function; the `SetParameters` ensures tie it to the method |
| `Frank.FrankCopula.SetParameters` | src/families/frank.rs:66-75 | applies `Frank.SetParametersOutcome` in place: fails with InvalidParameter on a length other than 1, leaving `theta` unchanged; otherwise `theta` becomes `params[0]` |
| `Frank.SetterBreaksAdmissible` | src/families/frank.rs:18-20 | the setter installs `theta = 0`, which the constructor refuses, so the `theta != 0` invariant is not preserved |
| `Frank.RoundTrip` | src/families/frank.rs:62-74 | `set_parameters(parameters())` always succeeds and restores the same `theta` |
| `Independence.IndependenceCopula.New` | src/families/independence.rs:14-21 | fails with InvalidParameter iff `dimension < 2`; otherwise stores `dimension` |
| `Independence.IndependenceCopula.Cdf` | src/families/independence.rs:29-46 | a length mismatch gives `DimensionMismatch(dimension, actual length)` before any range check; then InvalidData iff some coordinate is outside [0,1]; otherwise the product of the coordinates, which lies in [0,1] |
| `F64.ProductInUnit` | src/families/independence.rs:45 | a product of values in [0,1] lies in [0,1] |
| `F64.ProductPositive` | src/families/clayton.rs:58-60 | a product of positive values is positive |
| `Independence.IndependenceCopula.Pdf` | src/families/independence.rs:48-56 | 1 whenever the length matches, with no range check; otherwise `DimensionMismatch(dimension, actual length)` |
| `Independence.IndependenceCopula.Sample` | src/families/independence.rs:58-65 | always succeeds with a fresh `n x dimension` matrix whose cell (i, j) is that cell's uniform draw |
| `Independence.IndependenceCopula.Parameters` | src/families/independence.rs:67-69 | the parameter vector is empty |
| `Independence.IndependenceCopula.SetParameters` | src/families/independence.rs:71-73 | succeeds for every input and leaves the instance unchanged |
| `Independence.RoundTrip` | src/families/independence.rs:67-73 | `set_parameters(parameters())` succeeds and leaves the density unchanged on every input |

## Left out

- The values of Clayton's `cdf`/`pdf`, of Frank's `cdf` and of each sampled cell: they are built from `powf`, `exp` and `ln`, which stay abstract (`F64.Ops`), so nothing is proved about those numbers beyond the formula each sampled cell is built from and Clayton's clamp at 0.
- Clayton.ClaytonCopula.Pdf: states only the length check and the error kind; the density value is not characterised, since it rests on abstract `powf` (its normalising product is covered by `Clayton.NormalisingFactorsPositive`).
- Frank.FrankCopula.Cdf: states only the length check and the error kind, for the same reason (abstract `exp` and `ln`).
- IEEE rounding, NaN and infinities: `f64` is `real`; a division by zero yields an abstract value.
- The random generator and the statistical laws of the draws (Gamma, Exponential, Uniform): draws are parameters of `Sample`; that entries lie in (0,1) or follow a law is a distributional fact and is not stated.
- The `f64::MIN_POSITIVE` floor on `theta` when forming the Gamma shape, and the mapping of `Gamma::new`/`Exp::new` failures to InvalidParameter: library-internal validation of float inputs.
- Error message strings and their display formatting: only the error kinds are modelled.
- The `Copula` trait and the `dimension()` accessor: traits are not used; each family is its own type, and `dimension()` is the `dimension` field.
- The `Fittable` trait and `EstimationMethod`: they have no implementation.
- The module re-exports of the families.
