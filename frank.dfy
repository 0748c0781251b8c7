/** The Frank family (src/families/frank.rs): one parameter `theta`, which
    the constructor requires to be non-zero. Only the CDF is implemented; the
    density and sampling are stubs that always fail. The parameter setter
    accepts any single value, zero included. */
module Frank {
  import opened CopulaErrors
  import opened F64
  import opened CopulaShared

  /** What `FrankCopula::new` accepts. */
  predicate Admissible(theta: real, dimension: nat) {
    dimension >= 2 && theta != 0.0
  }

  /** `e^(-theta*u_i) - 1` for every coordinate. */
  function ShiftedExps(theta: real, u: seq<real>, ops: Ops): seq<real> {
    seq(|u|, i requires 0 <= i < |u| => ops.exp(-theta * u[i]) - 1.0)
  }

  /** The outcome of `set_parameters(params)`: the new `theta`, or the error.
      It fails exactly on a length other than 1, and otherwise installs the
      given value, whatever it is. */
  function SetParametersOutcome(params: seq<real>): (r: Result<real>)
    ensures r.Ok? <==> |params| == 1
    ensures r.Ok? ==> r.value == params[0]
    ensures r.Err? ==> r.error == InvalidParameter
  {
    if |params| != 1 then Err(InvalidParameter) else Ok(params[0])
  }

  /** The setter does not re-check the constructor's `theta != 0`: from any
      instance it installs 0, which `new` would have refused. */
  lemma SetterBreaksAdmissible(dimension: Dimension)
    ensures SetParametersOutcome([0.0]) == Ok(0.0)
    ensures !Admissible(SetParametersOutcome([0.0]).value, dimension)
  {
  }

  class FrankCopula {
    var theta: real
    const dimension: Dimension

    ghost predicate Valid()
      reads this
    {
      Admissible(theta, dimension)
    }

    /** The struct literal; only `New` builds one, after validating. */
    constructor (theta: real, dimension: Dimension)
      ensures this.theta == theta && this.dimension == dimension
    {
      this.theta := theta;
      this.dimension := dimension;
    }

    /** `FrankCopula::new`: rejects a dimension below 2, then a zero `theta`;
        otherwise stores both unchanged. */
    static method New(theta: real, dimension: nat) returns (r: Result<FrankCopula>)
      ensures r.Ok? <==> Admissible(theta, dimension)
      ensures r.Err? ==> r.error == InvalidParameter
      ensures r.Ok? ==> fresh(r.value) && r.value.theta == theta
                        && r.value.dimension == dimension && r.value.Valid()
    {
      if dimension < 2 {
        return Err(InvalidParameter);
      }
      if theta == 0.0 {
        return Err(InvalidParameter);
      }
      var c := new FrankCopula(theta, dimension);
      return Ok(c);
    }

    /** `cdf`: a length mismatch is reported as InvalidParameter and no value
        is range-checked; otherwise
        `-(1/theta) * ln(1 + prod(e^(-theta*u_i) - 1) / (e^(-theta) - 1)^(d-1))`,
        the exponent going through the `usize`-to-`i32` cast. */
    function Cdf(u: seq<real>, ops: Ops): (r: Result<real>)
      reads this
      ensures r.Ok? <==> |u| == dimension
      ensures r.Err? ==> r.error == InvalidParameter
    {
      if |u| != dimension then Err(InvalidParameter)
      else
        var prod1 := Product(ShiftedExps(theta, u, ops));
        var denom := PowI(ops.exp(-theta) - 1.0, AsI32(dimension - 1), ops);
        Ok(-Div(1.0, theta, ops) * ops.ln(1.0 + Div(prod1, denom, ops)))
    }

    /** `pdf` is not implemented: every input fails, even one of the wrong length. */
    function Pdf(u: seq<real>): (r: Result<real>)
      ensures r.Err? && r.error == NotImplemented
    {
      Err(NotImplemented)
    }

    /** `sample` is not implemented: every `n` fails. */
    function Sample(n: nat): (r: Result<array2<real>>)
      ensures r.Err? && r.error == NotImplemented
    {
      Err(NotImplemented)
    }

    /** `parameters`: the one-element vector holding `theta`. */
    function Parameters(): (r: seq<real>)
      reads this
      ensures |r| == 1 && r[0] == theta
    {
      [theta]
    }

    /** `set_parameters`: applies `SetParametersOutcome`; on failure nothing
        changes, and the dimension never changes. */
    method SetParameters(params: seq<real>) returns (r: Result<()>)
      modifies this
      ensures r.Ok? <==> SetParametersOutcome(params).Ok?
      ensures r.Err? ==> r.error == SetParametersOutcome(params).error
      ensures theta == if r.Ok? then SetParametersOutcome(params).value else old(theta)
    {
      if |params| != 1 {
        return Err(InvalidParameter);
      }
      var t := params[0];
      theta := t;
      return Ok(());
    }
  }

  /** `set_parameters(parameters())` always succeeds and restores the same
      `theta`, whether or not the instance is admissible. */
  lemma RoundTrip(c: FrankCopula)
    ensures SetParametersOutcome(c.Parameters()) == Ok(c.theta)
  {
  }
}
