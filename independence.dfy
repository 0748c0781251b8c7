/** The independence copula (src/families/independence.rs): no parameter,
    CDF the product of the coordinates, density the constant 1. Nothing about
    an instance ever changes, so it is a value. Unlike Clayton and Frank it
    reports a length mismatch as DimensionMismatch. */
module Independence {
  import opened CopulaErrors
  import opened F64
  import opened CopulaShared

  datatype IndependenceCopula = IndependenceCopula(dimension: Dimension)
  {
    /** `IndependenceCopula::new`: only a dimension below 2 is refused. */
    static function New(dimension: nat): (r: Result<IndependenceCopula>)
      ensures r.Ok? <==> dimension >= 2
      ensures r.Err? ==> r.error == InvalidParameter
      ensures r.Ok? ==> r.value.dimension == dimension
    {
      if dimension < 2 then Err(InvalidParameter) else Ok(IndependenceCopula(dimension))
    }

    /** `cdf`: the length check comes first, then a scan that stops at the
        first coordinate outside [0,1]; a valid input yields the product of
        its coordinates, which lies in [0,1]. */
    method Cdf(u: seq<real>) returns (r: Result<real>)
      ensures |u| != dimension ==> r == Err(DimensionMismatch(dimension, |u|))
      ensures |u| == dimension && (exists i :: 0 <= i < |u| && !InUnitInterval(u[i])) ==> r == Err(InvalidData)
      ensures |u| == dimension && (forall i :: 0 <= i < |u| ==> InUnitInterval(u[i])) ==> r == Ok(Product(u))
      ensures r.Ok? ==> InUnitInterval(r.value)
    {
      if |u| != dimension {
        return Err(DimensionMismatch(dimension, |u|));
      }
      var i := 0;
      while i < |u|
        invariant 0 <= i <= |u|
        invariant forall k :: 0 <= k < i ==> InUnitInterval(u[k])
      {
        var val := u[i];
        if val < 0.0 || val > 1.0 {
          return Err(InvalidData);
        }
        i := i + 1;
      }
      ProductInUnit(u);
      return Ok(Product(u));
    }

    /** `pdf`: 1 whenever the length matches, with no range check. */
    function Pdf(u: seq<real>): (r: Result<real>)
      ensures r.Ok? <==> |u| == dimension
      ensures r.Ok? ==> r.value == 1.0
      ensures r.Err? ==> r.error == DimensionMismatch(dimension, |u|)
    {
      if |u| != dimension then Err(DimensionMismatch(dimension, |u|)) else Ok(1.0)
    }

    /** `sample(n)`: always an `n x dimension` matrix, every cell an
        independent Uniform(0,1) draw; `uniform(i, j)` stands for the value the
        random generator yields for cell (i, j). */
    method Sample(n: nat, uniform: (nat, nat) -> real) returns (r: Result<array2<real>>)
      ensures r.Ok? && fresh(r.value)
      ensures r.value.Length0 == n && r.value.Length1 == dimension
      ensures forall i, j :: 0 <= i < n && 0 <= j < dimension ==> r.value[i, j] == uniform(i, j)
    {
      var samples := new real[n, dimension]((i: nat, j: nat) => uniform(i, j));
      return Ok(samples);
    }

    /** No parameters: the empty vector. */
    function Parameters(): (r: seq<real>)
      ensures |r| == 0
    {
      []
    }

    /** `set_parameters` accepts every vector and changes nothing (the value
        is returned as the instance after the call). */
    function SetParameters(params: seq<real>): (r: (IndependenceCopula, Result<()>))
      ensures r.0 == this && r.1.Ok?
    {
      (this, Ok(()))
    }
  }

  /** `set_parameters(parameters())` succeeds and leaves the instance as it was,
      so CDF and density are unchanged on every input. */
  lemma RoundTrip(c: IndependenceCopula, u: seq<real>)
    ensures c.SetParameters(c.Parameters()).1.Ok?
    ensures c.SetParameters(c.Parameters()).0.Pdf(u) == c.Pdf(u)
  {
  }
}
