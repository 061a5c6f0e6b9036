/** The step that maps one draw of raw uniforms into the parameters' own
    distributions: parameter j gets the inverse transform of its uniform,
    with its stored mean and either its stored variance or an override. */
module DomainTransform {

  /** Row j of the distribution parameters holds the mean of parameter j and,
      unless a variance override is given, its variance after it: only the
      entries the transform reads must be present. */
  predicate ParamsFit(params: seq<seq<real>>, uncertainties: seq<real>, dim: nat)
  {
    |params| >= dim && forall j :: 0 <= j < dim ==> |params[j]| >= (if uncertainties == [] then 2 else 1)
  }

  /** A variance override is either absent (empty) or covers every parameter. */
  predicate OverrideFits(uncertainties: seq<real>, dim: nat)
  {
    uncertainties == [] || |uncertainties| >= dim
  }

  /** The variance used for parameter j: the stored one unless an override is given. */
  function Variance(params: seq<seq<real>>, uncertainties: seq<real>, j: nat): (v: real)
    requires j < |params|
    requires if uncertainties == [] then |params[j]| >= 2 else j < |uncertainties|
  {
    if uncertainties == [] then params[j][1] else uncertainties[j]
  }

  /** The stored variances of the first dim parameters, as an override vector. */
  function StoredVariances(params: seq<seq<real>>, dim: nat): (v: seq<real>)
    requires ParamsFit(params, [], dim)
    ensures |v| == dim
  {
    seq(dim, j requires 0 <= j < dim && ParamsFit(params, [], dim) => params[j][1])
  }

  /** The transformed draw: parameter j is the inverse transform `normal` of the
      uniform u[j], with mean params[j][0] and the variance chosen by Variance. */
  function Transform(normal: (real, real, real) -> real, u: seq<real>,
                     params: seq<seq<real>>, uncertainties: seq<real>): (x: seq<real>)
    requires ParamsFit(params, uncertainties, |u|) && OverrideFits(uncertainties, |u|)
    ensures |x| == |u|
  {
    seq(|u|, j requires 0 <= j < |u| && ParamsFit(params, uncertainties, |u|) && OverrideFits(uncertainties, |u|) =>
      normal(u[j], params[j][0], Variance(params, uncertainties, j)))
  }

  /** An override replaces the variance only: once one is given, the stored
      variances play no part, and two configurations with the same means
      yield the same draw. */
  lemma {:induction false} OverrideKeepsMean(normal: (real, real, real) -> real, u: seq<real>,
                                             params: seq<seq<real>>, other: seq<seq<real>>,
                                             uncertainties: seq<real>)
    requires ParamsFit(params, uncertainties, |u|) && ParamsFit(other, uncertainties, |u|)
    requires uncertainties != [] && OverrideFits(uncertainties, |u|)
    requires forall j :: 0 <= j < |u| ==> params[j][0] == other[j][0]
    ensures Transform(normal, u, params, uncertainties) == Transform(normal, u, other, uncertainties)
  {
    forall j | 0 <= j < |u|
      ensures Transform(normal, u, params, uncertainties)[j] == Transform(normal, u, other, uncertainties)[j]
    {
      assert Variance(params, uncertainties, j) == Variance(other, uncertainties, j);
    }
  }

  /** Passing the stored variances as an override gives the same draw as
      passing no override at all. */
  lemma {:induction false} StoredOverrideIsNoOverride(normal: (real, real, real) -> real, u: seq<real>,
                                                      params: seq<seq<real>>)
    requires ParamsFit(params, [], |u|)
    ensures Transform(normal, u, params, StoredVariances(params, |u|)) == Transform(normal, u, params, [])
  {
    var v := StoredVariances(params, |u|);
    StoredRowsFitAnyOverride(params, v, |u|);
    if u != [] {
      forall j | 0 <= j < |u|
        ensures Transform(normal, u, params, v)[j] == Transform(normal, u, params, [])[j]
      {
        assert v != [] && v[j] == params[j][1];
        assert Variance(params, v, j) == Variance(params, [], j);
      }
    }
  }

  /** Rows that hold both a mean and a variance fit whatever the override. */
  lemma StoredRowsFitAnyOverride(params: seq<seq<real>>, uncertainties: seq<real>, dim: nat)
    requires ParamsFit(params, [], dim)
    ensures ParamsFit(params, uncertainties, dim)
  {
  }
}
