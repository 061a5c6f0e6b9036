/** What one call of the estimator computes, as functions of its inputs:
    the four model evaluations of each iteration, the four running sums,
    and the final mean, variance and raw lower and total indices. */
module MonteCarlo {
  import opened PickFreeze
  import opened DomainTransform
  import opened QuasiRandom

  /** The estimator's fixed configuration: the caller's model and constants,
      the per-parameter (mean, variance) rows, the dimension, the inverse
      transform and the generator's point sequence. */
  datatype Config = Config(
    model: (seq<real>, seq<real>) -> real,
    constants: seq<real>,
    distroParams: seq<seq<real>>,
    dim: nat,
    normal: (real, real, real) -> real,
    points: (nat, nat) -> real)

  predicate Fits(c: Config, uncertainties: seq<real>)
  {
    ParamsFit(c.distroParams, uncertainties, c.dim) && OverrideFits(uncertainties, c.dim)
  }

  /** The index set that is used: the stored one unless the override is non-empty. */
  function ActiveSet(stored: set<int>, override: set<int>): (s: set<int>)
  {
    if override == {} then stored else override
  }

  /** The four model values of one iteration: f = model(x1), f2 = model(x2),
      model1 = model(arg1), model2 = model(arg2). */
  datatype Evaluation = Evaluation(f: real, f2: real, model1: real, model2: real)

  /** The four accumulators: sums of f, f*f, f*(model1 - f2) and (f - model2)^2. */
  datatype Sums = Sums(f0Sum: real, dSum: real, dySum: real, dtSum: real)

  /** The observable results of one estimation call. */
  datatype Estimates = Estimates(lowerIndex: real, totalIndex: real, modelVariance: real, modelMean: real)

  /** A base draw: the transformed coordinates first .. first + dim - 1 of point `point`. */
  function Draw(c: Config, uncertainties: seq<real>, point: nat, first: nat): (x: seq<real>)
    requires Fits(c, uncertainties)
    ensures |x| == c.dim
  {
    Transform(c.normal, Coordinates(c.points, point, first, c.dim), c.distroParams, uncertainties)
  }

  /** The iteration that reads point `point`: x1 from its coordinates 1..dim,
      x2 from dim+1..2*dim, the mixed arguments by pick-and-freeze over s,
      and the four model evaluations. */
  function Iteration(c: Config, uncertainties: seq<real>, s: set<int>, point: nat): (e: Evaluation)
    requires Fits(c, uncertainties)
  {
    var x1 := Draw(c, uncertainties, point, 1);
    var x2 := Draw(c, uncertainties, point, c.dim + 1);
    Evaluation(c.model(x1, c.constants), c.model(x2, c.constants),
               c.model(Assemble(x1, x2, s), c.constants), c.model(Assemble(x2, x1, s), c.constants))
  }

  /** Iteration as a function of the generator point it reads. */
  function Iterations(c: Config, uncertainties: seq<real>, s: set<int>): (iteration: nat -> Evaluation)
    requires Fits(c, uncertainties)
  {
    (point: nat) => Iteration(c, uncertainties, s, point)
  }

  /** iteration gives, at every point, the iteration of configuration c. */
  ghost predicate Enumerates(iteration: nat -> Evaluation, c: Config, uncertainties: seq<real>, s: set<int>)
    requires Fits(c, uncertainties)
  {
    forall p: nat {:trigger Iteration(c, uncertainties, s, p)} :: iteration(p) == Iteration(c, uncertainties, s, p)
  }

  lemma EnumeratesIterations(c: Config, uncertainties: seq<real>, s: set<int>)
    requires Fits(c, uncertainties)
    ensures Enumerates(Iterations(c, uncertainties, s), c, uncertainties, s)
  {
  }

  lemma {:induction false} AccumulateEnumerated(iteration: nat -> Evaluation, c: Config, uncertainties: seq<real>, s: set<int>,
                                             start: nat, n: nat)
    requires Fits(c, uncertainties) && Enumerates(iteration, c, uncertainties, s)
    ensures Accumulate(iteration, start, n) == Accumulate(Iterations(c, uncertainties, s), start, n)
    decreases n
  {
    if n > 0 {
      AccumulateEnumerated(iteration, c, uncertainties, s, start, n - 1);
      assert iteration(start + n) == Iteration(c, uncertainties, s, start + n);
    }
  }

  /** The evaluations made from the base draws of point `point` and from
      the vectors mixed from them over s are that point's iteration. */
  lemma IterationIs(iteration: nat -> Evaluation, c: Config, uncertainties: seq<real>, s: set<int>, point: nat,
                    x1: seq<real>, x2: seq<real>, arg1: seq<real>, arg2: seq<real>)
    requires Fits(c, uncertainties) && Enumerates(iteration, c, uncertainties, s)
    requires x1 == Draw(c, uncertainties, point, 1) && x2 == Draw(c, uncertainties, point, c.dim + 1)
    requires arg1 == Assemble(x1, x2, s) && arg2 == Assemble(x2, x1, s)
    ensures iteration(point)
         == Evaluation(c.model(x1, c.constants), c.model(x2, c.constants),
                       c.model(arg1, c.constants), c.model(arg2, c.constants))
  {
    assert Iteration(c, uncertainties, s, point)
        == Evaluation(c.model(x1, c.constants), c.model(x2, c.constants),
                      c.model(arg1, c.constants), c.model(arg2, c.constants));
  }

  function Zero(): (z: Sums)
  {
    Sums(0.0, 0.0, 0.0, 0.0)
  }

  function Add(a: Sums, b: Sums): (t: Sums)
  {
    Sums(a.f0Sum + b.f0Sum, a.dSum + b.dSum, a.dySum + b.dySum, a.dtSum + b.dtSum)
  }

  /** What one iteration adds to the four accumulators. */
  function Contribution(e: Evaluation): (t: Sums)
  {
    Sums(e.f, e.f * e.f, e.f * (e.model1 - e.f2), (e.f - e.model2) * (e.f - e.model2))
  }

  /** The accumulators after n iterations that follow a generator standing at
      point `start`, starting from zero: iteration i (1-based) reads point
      start + i, so these are the sums of the contributions of points
      start + 1 .. start + n. */
  function Accumulate(iteration: nat -> Evaluation, start: nat, n: nat): (t: Sums)
    decreases n
  {
    if n == 0 then Zero() else Add(Accumulate(iteration, start, n - 1), Contribution(iteration(start + n)))
  }

  /** The final formulas over n > 0 samples (raw, non-normalised indices). */
  function Estimate(sums: Sums, n: nat): (r: Estimates)
    requires n > 0
  {
    var modelMean := sums.f0Sum / n as real;
    Estimates(sums.dySum / n as real, (sums.dtSum / n as real) / 2.0,
              sums.dSum / n as real - modelMean * modelMean, modelMean)
  }

  /** Estimate, field by field. */
  lemma EstimateIs(sums: Sums, n: nat, lowerIndex: real, totalIndex: real, modelVariance: real, modelMean: real)
    requires n > 0
    requires modelMean == sums.f0Sum / n as real
    requires modelVariance == sums.dSum / n as real - modelMean * modelMean
    requires lowerIndex == sums.dySum / n as real && totalIndex == (sums.dtSum / n as real) / 2.0
    ensures Estimate(sums, n) == Estimates(lowerIndex, totalIndex, modelVariance, modelMean)
  {
  }

  /** One pass of the estimator's loop: adding the four updates made from the
      evaluation of point start + n + 1 to the sums of the first n points
      gives the sums of the first n + 1. */
  lemma AccumulateStep(iteration: nat -> Evaluation, start: nat, n: nat, sofar: Sums,
                       f: real, f2: real, model1: real, model2: real)
    requires sofar == Accumulate(iteration, start, n)
    requires Evaluation(f, f2, model1, model2) == iteration(start + n + 1)
    ensures Accumulate(iteration, start, n + 1)
         == Sums(sofar.f0Sum + f, sofar.dSum + f * f, sofar.dySum + f * (model1 - f2),
                 sofar.dtSum + (f - model2) * (f - model2))
  {
    var e := Evaluation(f, f2, model1, model2);
    assert start + (n + 1) == start + n + 1;
    assert Accumulate(iteration, start, n + 1) == Add(sofar, Contribution(e));
  }

  /** The sums of a + b iterations are those of the first a plus those of
      the next b, read from where the first part left the generator: the
      iterations can be split into consecutive parts and merged exactly. */
  lemma {:induction false} SplitRun(iteration: nat -> Evaluation, start: nat, a: nat, b: nat)
    ensures Accumulate(iteration, start, a + b)
         == Add(Accumulate(iteration, start, a), Accumulate(iteration, start + a, b))
    decreases b
  {
    if b > 0 {
      SplitRun(iteration, start, a, b - 1);
      assert start + (a + b) == (start + a) + b;
    }
  }

  /** The sum of squares dSum and the total-effect sum dtSum are never negative. */
  lemma {:induction false} SquareSumsNonNegative(iteration: nat -> Evaluation, start: nat, n: nat)
    ensures Accumulate(iteration, start, n).dSum >= 0.0 && Accumulate(iteration, start, n).dtSum >= 0.0
    decreases n
  {
    if n > 0 {
      var e := iteration(start + n);
      SquareSumsNonNegative(iteration, start, n - 1);
      Square(e.f);
      Square(e.f - e.model2);
    }
  }

  lemma Square(x: real)
    ensures x * x >= 0.0
  {
  }

  /** The raw total index is never negative. */
  lemma TotalIndexNonNegative(iteration: nat -> Evaluation, start: nat, n: nat)
    requires n > 0
    ensures Estimate(Accumulate(iteration, start, n), n).totalIndex >= 0.0
  {
    SquareSumsNonNegative(iteration, start, n);
  }

  /** The sum over n iterations of (f - x)^2, written out from the accumulators. */
  function Deviation(t: Sums, n: real, x: real): (d: real)
  {
    t.dSum - 2.0 * x * t.f0Sum + n * x * x
  }

  lemma {:induction false} DeviationsNonNegative(iteration: nat -> Evaluation, start: nat, n: nat, x: real)
    ensures Deviation(Accumulate(iteration, start, n), n as real, x) >= 0.0
    decreases n
  {
    if n > 0 {
      DeviationsNonNegative(iteration, start, n - 1, x);
      DeviationStep(Accumulate(iteration, start, n - 1), iteration(start + n), x, (n - 1) as real);
    }
  }

  lemma DeviationStep(a: Sums, e: Evaluation, x: real, n: real)
    requires Deviation(a, n, x) >= 0.0
    ensures Deviation(Add(a, Contribution(e)), n + 1.0, x) >= 0.0
  {
    var q, f, y := a.dSum, a.f0Sum, e.f;
    var t := Add(a, Contribution(e));
    assert t.dSum == q + y * y && t.f0Sum == f + y;
    assert Deviation(a, n, x) == q - 2.0 * x * f + n * x * x;
    assert Deviation(t, n + 1.0, x) == (q + y * y) - 2.0 * x * (f + y) + (n + 1.0) * x * x;
    DeviationIdentity(q, f, y, x, n);
    Square(y - x);
  }

  lemma DeviationIdentity(q: real, f: real, y: real, x: real, n: real)
    ensures (q + y * y) - 2.0 * x * (f + y) + (n + 1.0) * x * x
         == (q - 2.0 * x * f + n * x * x) + (y - x) * (y - x)
  {
  }

  /** n * dSum - f0Sum^2, which Cauchy-Schwarz makes non-negative. */
  function Spread(t: Sums, n: real): (d: real)
  {
    n * t.dSum - t.f0Sum * t.f0Sum
  }

  lemma {:induction false} SpreadNonNegative(iteration: nat -> Evaluation, start: nat, n: nat)
    ensures Spread(Accumulate(iteration, start, n), n as real) >= 0.0
    decreases n
  {
    if n > 0 {
      var e := iteration(start + n);
      SpreadNonNegative(iteration, start, n - 1);
      DeviationsNonNegative(iteration, start, n - 1, e.f);
      SpreadStep(Accumulate(iteration, start, n - 1), e, (n - 1) as real);
    }
  }

  lemma SpreadStep(a: Sums, e: Evaluation, n: real)
    requires Spread(a, n) >= 0.0 && Deviation(a, n, e.f) >= 0.0
    ensures Spread(Add(a, Contribution(e)), n + 1.0) >= 0.0
  {
    var q, f, x := a.dSum, a.f0Sum, e.f;
    SpreadIdentity(q, f, x, n);
    assert Spread(a, n) == n * q - f * f;
    assert Deviation(a, n, x) == q - 2.0 * x * f + n * x * x;
    assert Add(a, Contribution(e)).dSum == q + x * x && Add(a, Contribution(e)).f0Sum == f + x;
    assert Spread(Add(a, Contribution(e)), n + 1.0) == (n + 1.0) * (q + x * x) - (f + x) * (f + x);
  }

  lemma SpreadIdentity(q: real, f: real, x: real, n: real)
    ensures (n + 1.0) * (q + x * x) - (f + x) * (f + x) == (n * q - f * f) + (q - 2.0 * x * f + n * x * x)
  {
  }

  /** In exact arithmetic the estimated model variance is never negative. */
  lemma VarianceNonNegative(iteration: nat -> Evaluation, start: nat, n: nat)
    requires n > 0
    ensures Estimate(Accumulate(iteration, start, n), n).modelVariance >= 0.0
  {
    var t := Accumulate(iteration, start, n);
    SpreadNonNegative(iteration, start, n);
    MeanSquareBound(t.dSum, t.f0Sum, n as real);
  }

  lemma MeanSquareBound(q: real, f: real, n: real)
    requires n > 0.0 && n * q - f * f >= 0.0
    ensures q / n - (f / n) * (f / n) >= 0.0
  {
    var m := f / n;
    assert f == m * n;
    assert n * q >= n * (n * m * m);
    assert q >= n * m * m;
    assert q / n >= m * m;
  }

  /** The accumulators of m iterations whose four model values are all k. */
  function ConstantAccumulators(m: nat, k: real): (t: Sums)
  {
    Sums(m as real * k, m as real * k * k, 0.0, 0.0)
  }

  lemma {:induction false} ConstantSums(iteration: nat -> Evaluation, start: nat, n: nat, k: real)
    requires forall p :: iteration(p) == Evaluation(k, k, k, k)
    ensures Accumulate(iteration, start, n) == ConstantAccumulators(n, k)
    decreases n
  {
    if n > 0 {
      ConstantSums(iteration, start, n - 1, k);
      ConstantStep(Accumulate(iteration, start, n - 1), n, k);
    }
  }

  lemma ConstantStep(a: Sums, m: nat, k: real)
    requires m > 0 && a == ConstantAccumulators(m - 1, k)
    ensures Add(a, Contribution(Evaluation(k, k, k, k))) == ConstantAccumulators(m, k)
  {
    var z := k - k;
    assert z == 0.0;
    assert k * z == 0.0 && z * z == 0.0;
    assert Contribution(Evaluation(k, k, k, k)) == Sums(k, k * k, 0.0, 0.0);
    var r := (m - 1) as real;
    assert m as real == r + 1.0;
    assert r * k + k == (r + 1.0) * k;
    assert r * k * k + k * k == (r + 1.0) * k * k;
  }

  /** Iterations whose four model values are all k give mean k, variance 0
      and both raw indices 0. */
  lemma ConstantEstimate(iteration: nat -> Evaluation, start: nat, n: nat, k: real)
    requires n > 0
    requires forall p :: iteration(p) == Evaluation(k, k, k, k)
    ensures Estimate(Accumulate(iteration, start, n), n) == Estimates(0.0, 0.0, 0.0, k)
  {
    ConstantSums(iteration, start, n, k);
    ConstantMean(n as real, k);
  }

  lemma ConstantMean(m: real, k: real)
    requires m > 0.0
    ensures (m * k) / m == k && (m * k * k) / m - k * k == 0.0
    ensures 0.0 / m == 0.0 && (0.0 / m) / 2.0 == 0.0
  {
  }

  /** A model that ignores its arguments has mean k, variance 0 and both raw
      indices 0, whatever the draws and the index set. */
  lemma ConstantModel(c: Config, uncertainties: seq<real>, s: set<int>, start: nat, n: nat, k: real)
    requires Fits(c, uncertainties) && n > 0
    requires forall x, y :: c.model(x, y) == k
    ensures Estimate(Accumulate(Iterations(c, uncertainties, s), start, n), n) == Estimates(0.0, 0.0, 0.0, k)
  {
    ConstantIterations(c, uncertainties, s, k);
    ConstantEstimate(Iterations(c, uncertainties, s), start, n, k);
  }

  lemma ConstantIterations(c: Config, uncertainties: seq<real>, s: set<int>, k: real)
    requires Fits(c, uncertainties)
    requires forall x, y :: c.model(x, y) == k
    ensures forall p: nat :: Iterations(c, uncertainties, s)(p) == Evaluation(k, k, k, k)
  {
    forall p: nat
      ensures Iterations(c, uncertainties, s)(p) == Evaluation(k, k, k, k)
    {
      ConstantIteration(c, uncertainties, s, p, k);
    }
  }

  lemma ConstantIteration(c: Config, uncertainties: seq<real>, s: set<int>, point: nat, k: real)
    requires Fits(c, uncertainties)
    requires forall x, y :: c.model(x, y) == k
    ensures Iteration(c, uncertainties, s, point) == Evaluation(k, k, k, k)
  {
  }
}
