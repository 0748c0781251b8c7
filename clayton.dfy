/** The Clayton family (src/families/clayton.rs): one parameter `theta`,
    admissible on construction when `theta > -1/(d-1)`. The parameter setter
    is stricter than the constructor (it demands `theta >= 0`, the domain in
    which sampling is implemented). */
module Clayton {
  import opened CopulaErrors
  import opened F64
  import opened CopulaShared

  /** What `ClaytonCopula::new` accepts. */
  predicate Admissible(theta: real, dimension: nat) {
    dimension >= 2 && theta > -1.0 / (dimension - 1) as real
  }

  /** The `dimension` factors `1 + theta*i`, i = 0 .. d-1, of the density's
      normalising product. */
  function NormalisingFactors(theta: real, dimension: nat): seq<real> {
    seq(dimension, i requires 0 <= i < dimension => 1.0 + theta * i as real)
  }

  function NormalisingProduct(theta: real, dimension: nat): real {
    Product(NormalisingFactors(theta, dimension))
  }

  /** The coordinates raised to the power `p`, `u_i.powf(p)`. */
  function Powers(u: seq<real>, p: real, ops: Ops): seq<real> {
    seq(|u|, i requires 0 <= i < |u| => ops.powf(u[i], p))
  }

  /** `sum(u_i^-theta) - d + 1`, the term shared by the CDF and the density. */
  function SumTerm(theta: real, dimension: nat, u: seq<real>, ops: Ops): real {
    Sum(Powers(u, -theta, ops)) - dimension as real + 1.0
  }

  /** The value `sample` writes at one cell, given the row's Gamma frailty
      draw `w` and the cell's Exponential draw `e`: `(1 + e/w)^(-1/theta)`. */
  function SampleCell(theta: real, w: real, e: real, ops: Ops): real {
    ops.powf(1.0 + Div(e, w, ops), Div(-1.0, theta, ops))
  }

  /** The outcome of `set_parameters(params)`: the new `theta`, or the error.
      Unlike the constructor it rejects every negative value. */
  function SetParametersOutcome(params: seq<real>): (r: Result<real>)
    ensures r.Ok? <==> |params| == 1 && params[0] >= 0.0
    ensures r.Ok? ==> r.value == params[0]
    ensures r.Err? ==> r.error == InvalidParameter
  {
    if |params| != 1 then Err(InvalidParameter)
    else if params[0] < 0.0 then Err(InvalidParameter)
    else Ok(params[0])
  }

  /** Under the constructor's bound every factor `1 + theta*i` (i < d) of
      the normalising product is positive, so the product is too. */
  lemma NormalisingFactorsPositive(theta: real, dimension: nat)
    requires Admissible(theta, dimension)
    ensures |NormalisingFactors(theta, dimension)| == dimension
    ensures forall i :: 0 <= i < dimension ==> NormalisingFactors(theta, dimension)[i] > 0.0
    ensures NormalisingProduct(theta, dimension) > 0.0
  {
    var m := (dimension - 1) as real;
    var fs := NormalisingFactors(theta, dimension);
    BoundScaled(theta, m);
    forall i | 0 <= i < dimension
      ensures fs[i] > 0.0
    {
      var x := i as real;
      if theta < 0.0 {
        assert x <= m;
        assert theta * x >= theta * m;
      } else {
        assert theta * x >= 0.0;
      }
    }
    ProductPositive(fs);
  }

  /** `theta > -1/m` with `m > 0` gives `theta*m > -1`. */
  lemma BoundScaled(theta: real, m: real)
    requires m > 0.0 && theta > -1.0 / m
    ensures theta * m > -1.0
  {
    var b := -1.0 / m;
    var p, q := theta * m, b * m;
    assert q == -1.0;
    assert (theta - b) * m > 0.0;
    assert (theta - b) * m == p - q;
    assert p + 1.0 > 0.0;
  }

  /** Every dimension leaves room for a negative admissible `theta`: half the
      bound, `-1/(2(d-1))`, is accepted by the constructor. */
  lemma NegativeThetaAdmissible(dimension: Dimension)
    ensures Admissible(-1.0 / (2 * (dimension - 1)) as real, dimension)
    ensures -1.0 / (2 * (dimension - 1)) as real < 0.0
  {
  }

  /** `set_parameters(parameters())` succeeds exactly when `theta >= 0`, and
      then restores the same `theta`; a validly built instance with `theta` in
      (-1/(d-1), 0) cannot take back its own parameters. */
  lemma RoundTripIff(c: ClaytonCopula)
    ensures SetParametersOutcome(c.Parameters()).Ok? <==> c.theta >= 0.0
    ensures SetParametersOutcome(c.Parameters()).Ok? ==> SetParametersOutcome(c.Parameters()).value == c.theta
    ensures c.Valid() && c.theta < 0.0 ==> SetParametersOutcome(c.Parameters()) == Err(InvalidParameter)
  {
  }

  /** A value the setter accepts satisfies the constructor's bound for every
      dimension: the setter cannot break the instance invariant. */
  lemma SetterKeepsAdmissible(params: seq<real>, dimension: Dimension)
    requires SetParametersOutcome(params).Ok?
    ensures Admissible(SetParametersOutcome(params).value, dimension)
  {
  }

  class ClaytonCopula {
    var theta: real
    const dimension: Dimension

    ghost predicate Valid()
      reads this
    {
      Admissible(theta, dimension)
    }

    /** The struct literal; only `New` builds one, after validating. */
    constructor (theta: real, dimension: Dimension)
      ensures this.theta == theta && this.dimension == dimension
    {
      this.theta := theta;
      this.dimension := dimension;
    }

    /** `ClaytonCopula::new`: rejects a dimension below 2, then a `theta` at
        or below `-1/(d-1)`; otherwise stores both unchanged. */
    static method New(theta: real, dimension: nat) returns (r: Result<ClaytonCopula>)
      ensures r.Ok? <==> Admissible(theta, dimension)
      ensures r.Err? ==> r.error == InvalidParameter
      ensures r.Ok? ==> fresh(r.value) && r.value.theta == theta
                        && r.value.dimension == dimension && r.value.Valid()
    {
      if dimension < 2 {
        return Err(InvalidParameter);
      }
      if theta <= -1.0 / (dimension - 1) as real {
        return Err(InvalidParameter);
      }
      var c := new ClaytonCopula(theta, dimension);
      return Ok(c);
    }

    /** `cdf`: a length mismatch is reported as InvalidParameter; the values
        themselves are never range-checked; the result is clamped at 0. */
    function Cdf(u: seq<real>, ops: Ops): (r: Result<real>)
      reads this
      ensures r.Ok? <==> |u| == dimension
      ensures r.Err? ==> r.error == InvalidParameter
      ensures r.Ok? ==> r.value >= 0.0
    {
      if |u| != dimension then Err(InvalidParameter)
      else
        var s := SumTerm(theta, dimension, u, ops);
        Ok(Max(ops.powf(s, Div(-1.0, theta, ops)), 0.0))
    }

    /** `pdf`: the same length check as `cdf`, then the normalising product
        times the per-coordinate powers times a power of the sum term. */
    function Pdf(u: seq<real>, ops: Ops): (r: Result<real>)
      reads this
      ensures r.Ok? <==> |u| == dimension
      ensures r.Err? ==> r.error == InvalidParameter
    {
      if |u| != dimension then Err(InvalidParameter)
      else
        var prod1 := NormalisingProduct(theta, dimension);
        var prod2 := Product(Powers(u, -(theta + 1.0), ops));
        var s := SumTerm(theta, dimension, u, ops);
        Ok(prod1 * prod2 * ops.powf(s, -(dimension as real) - Div(1.0, theta, ops)))
    }

    /** `parameters`: the one-element vector holding `theta`. */
    function Parameters(): (r: seq<real>)
      reads this
      ensures |r| == 1 && r[0] == theta
    {
      [theta]
    }

    /** `sample(n)`: refuses a negative `theta`; otherwise fills a fresh
        `n x dimension` matrix row by row, one frailty draw per row and one
        exponential draw per cell. `frailty(r)` and `exponential(r, c)` stand
        for the values the random generator yields at those points;
        `writes[r][c]` counts how often cell (r, c) was assigned. */
    method Sample(n: nat, frailty: nat -> real, exponential: (nat, nat) -> real, ops: Ops)
      returns (r: Result<array2<real>>, ghost writes: seq<seq<nat>>)
      ensures r.Ok? <==> theta >= 0.0
      ensures r.Err? ==> r.error == InvalidParameter
      ensures r.Ok? ==> fresh(r.value)
      ensures r.Ok? ==> r.value.Length0 == n && r.value.Length1 == dimension
      ensures r.Ok? ==> forall i, j :: 0 <= i < n && 0 <= j < dimension ==>
                          r.value[i, j] == SampleCell(theta, frailty(i), exponential(i, j), ops)
      ensures r.Ok? ==> |writes| == n && forall i :: 0 <= i < n ==>
                          |writes[i]| == dimension && forall j :: 0 <= j < dimension ==> writes[i][j] == 1
    {
      writes := [];
      if theta < 0.0 {
        return Err(InvalidParameter), writes;
      }
      var d := dimension;
      var samples := new real[n, d]((_, _) => 0.0);
      writes := seq(n, _ => seq(d, _ => 0));
      var row := 0;
      while row < n
        invariant 0 <= row <= n
        invariant |writes| == n && forall i :: 0 <= i < n ==> |writes[i]| == d
        invariant forall i, j :: 0 <= i < row && 0 <= j < d ==>
                    samples[i, j] == SampleCell(theta, frailty(i), exponential(i, j), ops) && writes[i][j] == 1
        invariant forall i, j :: row <= i < n && 0 <= j < d ==> writes[i][j] == 0
      {
        var w := frailty(row);
        var col := 0;
        while col < d
          invariant 0 <= col <= d
          invariant |writes| == n && forall i :: 0 <= i < n ==> |writes[i]| == d
          invariant forall i, j :: 0 <= i < row && 0 <= j < d ==>
                      samples[i, j] == SampleCell(theta, frailty(i), exponential(i, j), ops) && writes[i][j] == 1
          invariant forall j :: 0 <= j < col ==>
                      samples[row, j] == SampleCell(theta, w, exponential(row, j), ops) && writes[row][j] == 1
          invariant forall j :: col <= j < d ==> writes[row][j] == 0
          invariant forall i, j :: row < i < n && 0 <= j < d ==> writes[i][j] == 0
        {
          var e := exponential(row, col);
          samples[row, col] := SampleCell(theta, w, e, ops);
          writes := writes[row := writes[row][col := writes[row][col] + 1]];
          col := col + 1;
        }
        row := row + 1;
      }
      return Ok(samples), writes;
    }

    /** `set_parameters`: applies `SetParametersOutcome`; on failure nothing
        changes, and the dimension never changes. */
    method SetParameters(params: seq<real>) returns (r: Result<()>)
      modifies this
      ensures r.Ok? <==> SetParametersOutcome(params).Ok?
      ensures r.Err? ==> r.error == SetParametersOutcome(params).error
      ensures theta == if r.Ok? then SetParametersOutcome(params).value else old(theta)
      ensures r.Ok? ==> Valid()
    {
      if |params| != 1 {
        return Err(InvalidParameter);
      }
      var t := params[0];
      if t < 0.0 {
        return Err(InvalidParameter);
      }
      theta := t;
      return Ok(());
    }
  }
}
