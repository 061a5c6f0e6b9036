/** The estimator object: its configuration, its four result fields, the
    four scratch vectors that every Monte Carlo iteration overwrites, and the
    generator it owns. */
module Sobol {
  import opened PickFreeze
  import opened DomainTransform
  import opened QuasiRandom
  import opened MonteCarlo

  class SobolIndices {
    /** The caller's model: parameters, then constants, to a scalar. */
    const model: (seq<real>, seq<real>) -> real
    const constants: seq<real>
    /** The stored (1-based) index set of the group of interest. */
    const indices: set<int>
    /** Row j holds (mean, variance) of parameter j. */
    const distroParams: seq<seq<real>>
    const dim: nat
    /** Number of Monte Carlo iterations (N_MC). */
    const nMC: nat
    /** Only used by the coefficient-of-variation sweep, which is not modelled. */
    const CoV: real
    /** The inverse-normal transform Normal(u, mean, variance). */
    const invTrans: (real, real, real) -> real
    const randomNumberGenerator: Halton

    var lowerIndex: real
    var totalIndex: real
    var modelVariance: real
    var modelMean: real

    /** Base draws and mixed model arguments of the current iteration. */
    const x1: array<real>
    const x2: array<real>
    const arg1: array<real>
    const arg2: array<real>

    /** The four vectors have length dim and are distinct, and the generator
        produces points of 2*dim coordinates. */
    ghost predicate Valid()
      reads this, randomNumberGenerator
    {
      x1.Length == dim && x2.Length == dim && arg1.Length == dim && arg2.Length == dim &&
      x1 != x2 && x1 != arg1 && x1 != arg2 && x2 != arg1 && x2 != arg2 && arg1 != arg2 &&
      randomNumberGenerator.length == 2 * dim
    }

    /** The configuration as a value, for the specification functions. */
    function Configuration(): (c: Config)
    {
      Config(model, constants, distroParams, dim, invTrans, randomNumberGenerator.points)
    }

    constructor (model: (seq<real>, seq<real>) -> real, constants: seq<real>, indices: set<int>,
                 initialDistroParams: seq<seq<real>>, dim: nat, nMC: nat, CoV: real,
                 invTrans: (real, real, real) -> real, points: (nat, nat) -> real)
      ensures Valid()
      ensures this.model == model && this.constants == constants && this.indices == indices
      ensures distroParams == initialDistroParams && this.dim == dim && this.nMC == nMC
      ensures this.CoV == CoV && this.invTrans == invTrans
      ensures lowerIndex == 0.0 && totalIndex == 0.0 && modelVariance == 0.0 && modelMean == 0.0
      ensures fresh(x1) && fresh(x2) && fresh(arg1) && fresh(arg2)
      ensures x1[..] == seq(dim, _ => 0.0) && x2[..] == seq(dim, _ => 0.0)
      ensures arg1[..] == seq(dim, _ => 0.0) && arg2[..] == seq(dim, _ => 0.0)
      ensures fresh(randomNumberGenerator) && randomNumberGenerator.points == points
      ensures randomNumberGenerator.length == 2 * dim && randomNumberGenerator.count == 0
      ensures randomNumberGenerator.randomStart && randomNumberGenerator.randomPermute
    {
      this.model := model;
      this.constants := constants;
      this.indices := indices;
      distroParams := initialDistroParams;
      this.dim := dim;
      this.nMC := nMC;
      this.CoV := CoV;
      this.invTrans := invTrans;

      lowerIndex := 0.0;
      totalIndex := 0.0;
      modelVariance := 0.0;
      modelMean := 0.0;

      x1 := new real[dim](_ => 0.0);
      x2 := new real[dim](_ => 0.0);
      arg1 := new real[dim](_ => 0.0);
      arg2 := new real[dim](_ => 0.0);

      var generator := new Halton(points);
      generator.Init(2 * dim, true, true);
      randomNumberGenerator := generator;
    }

    /** Fills arg1/arg2 by pick-and-freeze: parameter j (1-based) taken from its
        own draw when j is in indexSet, from the other draw otherwise. */
    method AssignModelArguments(indexSet: set<int>)
      requires Valid()
      modifies arg1, arg2
      ensures forall p :: 0 <= p < dim ==>
        (p + 1 in indexSet ==> arg1[p] == x1[p] && arg2[p] == x2[p]) &&
        (p + 1 !in indexSet ==> arg1[p] == x2[p] && arg2[p] == x1[p])
      ensures forall p :: 0 <= p < dim ==> {arg1[p], arg2[p]} == {x1[p], x2[p]}
      ensures arg1[..] == Assemble(x1[..], x2[..], indexSet)
      ensures arg2[..] == Assemble(x2[..], x1[..], indexSet)
      ensures unchanged(x1, x2)
    {
      var j := 1;
      while j <= dim
        invariant 1 <= j <= dim + 1
        invariant forall p :: 0 <= p < j - 1 ==>
          arg1[p] == (if p + 1 in indexSet then x1[p] else x2[p]) &&
          arg2[p] == (if p + 1 in indexSet then x2[p] else x1[p])
      {
        var inIndexSet := j in indexSet;
        if inIndexSet {
          arg1[j - 1] := x1[j - 1];
          arg2[j - 1] := x2[j - 1];
        } else {
          arg1[j - 1] := x2[j - 1];
          arg2[j - 1] := x1[j - 1];
        }
        j := j + 1;
      }
    }

    /** Fills x1/x2 from the generator's current point: parameter j gets
        Normal(coordinate j+1, mean_j, v_j) in x1 and Normal(coordinate j+1+dim,
        mean_j, v_j) in x2, where v_j is the stored variance unless an
        override is given. */
    method TransformToModelDomain(uncertainties: seq<real>)
      requires Valid() && ParamsFit(distroParams, uncertainties, dim) && OverrideFits(uncertainties, dim)
      modifies x1, x2
      ensures forall p :: 0 <= p < dim ==>
        x1[p] == invTrans(randomNumberGenerator.GetRnd(p + 1), distroParams[p][0], Variance(distroParams, uncertainties, p))
      ensures forall p :: 0 <= p < dim ==>
        x2[p] == invTrans(randomNumberGenerator.GetRnd(p + 1 + dim), distroParams[p][0], Variance(distroParams, uncertainties, p))
      ensures unchanged(arg1, arg2)
    {
      for j := 0 to dim
        invariant forall p :: 0 <= p < j ==>
          x1[p] == invTrans(randomNumberGenerator.GetRnd(p + 1), distroParams[p][0], Variance(distroParams, uncertainties, p))
        invariant forall p :: 0 <= p < j ==>
          x2[p] == invTrans(randomNumberGenerator.GetRnd(p + 1 + dim), distroParams[p][0], Variance(distroParams, uncertainties, p))
      {
        x1[j] := randomNumberGenerator.GetRnd(j + 1);
        x2[j] := randomNumberGenerator.GetRnd(j + 1 + dim);

        var mean, variance := distroParams[j][0], 0.0;
        if uncertainties == [] {
          variance := distroParams[j][1];
        } else {
          variance := uncertainties[j];
        }
        assert variance == Variance(distroParams, uncertainties, j);

        x1[j] := invTrans(x1[j], mean, variance);
        x2[j] := invTrans(x2[j], mean, variance);
      }
    }

    /** The body of one Monte Carlo iteration: advance the generator, draw
        x1/x2 from the new point, mix them by pick-and-freeze over the index
        set in use, and evaluate the model at the four vectors. The ghost
        `iteration` is the specification's enumeration of iterations, passed
        in so that the proof need not unfold `Iteration` here. */
    method EvaluateNextPoint(uncertainties: seq<real>, indexSet: set<int>, ghost iteration: nat -> Evaluation)
      returns (f: real, f2: real, model1: real, model2: real)
      requires Valid() && ParamsFit(distroParams, uncertainties, dim) && OverrideFits(uncertainties, dim)
      requires Enumerates(iteration, Configuration(), uncertainties, ActiveSet(indices, indexSet))
      modifies x1, x2, arg1, arg2, randomNumberGenerator`count
      ensures randomNumberGenerator.count == old(randomNumberGenerator.count) + 1
      ensures Evaluation(f, f2, model1, model2) == iteration(randomNumberGenerator.count)
    {
      ghost var c := Configuration();
      ghost var active := ActiveSet(indices, indexSet);
      assert Fits(c, uncertainties) && c.dim == dim && c.model == model && c.constants == constants;

      randomNumberGenerator.GenHalton();
      ghost var point := randomNumberGenerator.count;
      TransformToModelDomain(uncertainties);
      ghost var y1, y2 := x1[..], x2[..];
      assert y1 == Draw(c, uncertainties, point, 1);
      assert y2 == Draw(c, uncertainties, point, c.dim + 1);
      if indexSet == {} {
        AssignModelArguments(indices);
      } else {
        AssignModelArguments(indexSet);
      }
      ghost var z1, z2 := arg1[..], arg2[..];
      assert x1[..] == y1 && x2[..] == y2;
      assert z1 == Assemble(y1, y2, active) && z2 == Assemble(y2, y1, active);

      f := model(x1[..], constants);
      f2 := model(x2[..], constants);
      model1 := model(arg1[..], constants);
      model2 := model(arg2[..], constants);
      IterationIs(iteration, c, uncertainties, active, point, y1, y2, z1, z2);
    }

    /** Runs nMC iterations from the generator's current point, with the
        index-set override indexSet (the stored set when it is empty) and the
        variance override uncertainties (the stored variances when it is
        empty), stores the mean, variance and raw lower and total indices,
        and returns the total index. */
    method ComputeSensitivityIndices(uncertainties: seq<real>, indexSet: set<int>) returns (result: real)
      requires Valid() && ParamsFit(distroParams, uncertainties, dim) && OverrideFits(uncertainties, dim)
      requires nMC > 0
      modifies this`lowerIndex, this`totalIndex, this`modelVariance, this`modelMean
      modifies x1, x2, arg1, arg2, randomNumberGenerator`count
      ensures Valid()
      ensures randomNumberGenerator.count == old(randomNumberGenerator.count) + nMC
      ensures var iteration := Iterations(Configuration(), uncertainties, ActiveSet(indices, indexSet));
              Estimates(lowerIndex, totalIndex, modelVariance, modelMean)
                == Estimate(Accumulate(iteration, old(randomNumberGenerator.count), nMC), nMC)
      ensures result == totalIndex
    {
      var f0Sum, dySum, dtSum, dSum := 0.0, 0.0, 0.0, 0.0;
      var f, f2, model1, model2;
      ghost var c := Configuration();
      ghost var start := randomNumberGenerator.count;
      ghost var active := ActiveSet(indices, indexSet);
      assert Fits(c, uncertainties) && c.dim == dim && c.model == model && c.constants == constants;
      EnumeratesIterations(c, uncertainties, active);
      ghost var iteration :| Enumerates(iteration, c, uncertainties, active);

      var i := 0;
      while i < nMC
        invariant 0 <= i <= nMC
        invariant Valid()
        invariant randomNumberGenerator.count == start + i
        invariant Sums(f0Sum, dSum, dySum, dtSum) == Accumulate(iteration, start, i)
      {
        ghost var sofar := Sums(f0Sum, dSum, dySum, dtSum);
        f, f2, model1, model2 := EvaluateNextPoint(uncertainties, indexSet, iteration);
        AccumulateStep(iteration, start, i, sofar, f, f2, model1, model2);

        f0Sum := f0Sum + f;
        dSum := dSum + f * f;
        dySum := dySum + f * (model1 - f2);
        dtSum := dtSum + (f - model2) * (f - model2);
        i := i + 1;
      }
      ghost var sums := Sums(f0Sum, dSum, dySum, dtSum);

      modelMean := f0Sum / nMC as real;
      modelVariance := dSum / nMC as real - modelMean * modelMean;

      var dy := dySum / nMC as real;
      var dt := dtSum / nMC as real;

      lowerIndex := dy;
      totalIndex := dt / 2.0;

      result := totalIndex;
      EstimateIs(sums, nMC, lowerIndex, totalIndex, modelVariance, modelMean);
      AccumulateEnumerated(iteration, c, uncertainties, active, start, nMC);
    }
  }
}
