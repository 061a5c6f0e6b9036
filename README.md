# Pick-and-freeze Sobol' index estimator

This project models the estimator class `SobolIndices` (file
`SobolIndices.cpp`) in Dafny. The class estimates variance-based sensitivity
indices of a caller's model. Each Monte Carlo iteration goes through these
steps:

1. Advance a quasi-random (Halton) generator to its next point of `2*dim`
   coordinates.
2. Map coordinates `1..dim` and `dim+1..2*dim`, through an inverse-normal
   transform, into two base draws `x1` and `x2`. The mean always comes from
   the parameter's stored row; the variance does too, unless a variance
   override is given.
3. Build two mixed vectors `arg1` and `arg2` by pick-and-freeze. Parameter
   `j` (1-based) is taken from its own draw when `j` is in the index set
   ("pick"), and from the other draw otherwise ("freeze"). The index set is
   the stored one unless a non-empty override is given.
4. Evaluate the model at the four vectors.
5. Add the four values to four accumulators.

After `nMC` iterations the estimator stores the mean, the variance and the
raw (non-normalised) lower and total indices, then returns the total index.

Modules:

- `PickFreeze` has the function `Assemble`, the pick-and-freeze rule on
  values, and its lemmas.
- `DomainTransform` has `Transform` and `Variance`, the per-parameter
  transform on values, and its lemmas.
- `QuasiRandom` has the class `Halton`: the generator state the estimator
  uses (point length, randomisation flags, cursor). The point sequence
  itself is a function `points(n, k)`, coordinate `k` of the `n`-th point.
- `MonteCarlo` holds the specification of one estimation call:
  - `Iteration` gives the four model values made from a generator point;
  - `Accumulate` gives the four sums over `n` consecutive points;
  - `Estimate` gives the final formulas;
  - its lemmas cover the loop step, merging of split runs, the signs of
    the results and the constant model.
- `Sobol` has the class `SobolIndices`:
  - its constant configuration, its four result fields, its four array
    fields `x1`, `x2`, `arg1`, `arg2` and its generator;
  - the constructor and the three member functions, as methods with loop
    invariants, each proved against the functions above.

## Model

| member | source | states |
|---|---|---|
| Sobol.SobolIndices.constructor | SobolIndices.cpp:17-54 | The configuration is recorded as given. The four results are 0. `x1`, `x2`, `arg1` and `arg2` are fresh, distinct arrays of length `dim`. The generator is fresh, at cursor 0, with point length `2*dim`, random start and random permutation. |
| Sobol.SobolIndices.AssignModelArguments | SobolIndices.cpp:172-191 | At every position p < dim: if p+1 is in the set, arg1[p] == x1[p] and arg2[p] == x2[p]; otherwise arg1[p] == x2[p] and arg2[p] == x1[p]. The pair {arg1[p], arg2[p]} is {x1[p], x2[p]}. arg1 is `Assemble(x1, x2, set)` and arg2 is `Assemble(x2, x1, set)`. Only arg1 and arg2 are written. |
| Sobol.SobolIndices.TransformToModelDomain | SobolIndices.cpp:204-245 | x1[p] is Normal applied to coordinate p+1 of the current point, with mean distroParams[p][0] and variance `Variance(distroParams, uncertainties, p)`. x2[p] is the same with coordinate p+1+dim. The stored variance is required, and read, only when the override is empty. arg1 and arg2 are untouched. The configuration is constant. |
| Sobol.SobolIndices.EvaluateNextPoint | SobolIndices.cpp:108-133 | One pass of the loop body advances the generator by one point. The four model values it returns are the specification `Iteration` of that point, for the stored index set when the override is empty and for the override otherwise. |
| Sobol.SobolIndices.ComputeSensitivityIndices | SobolIndices.cpp:94-167 | Accumulators start at 0. After the loop, (lowerIndex, totalIndex, modelVariance, modelMean) is `Estimate` of `Accumulate` over the `nMC` points after the generator's starting cursor. The generator has advanced by `nMC` points. The result is totalIndex. The loop invariant keeps the four running sums equal to `Accumulate` of the first i iterations. |
| QuasiRandom.Halton.constructor | SobolIndices.cpp:49 | A new generator is over the given point sequence, at cursor 0, with no length and no randomisation flags set. |
| QuasiRandom.Halton.Init | SobolIndices.cpp:53 | init records the point length and the two randomisation flags. |
| QuasiRandom.Halton.GenHalton | SobolIndices.cpp:109 | genHalton advances the cursor by exactly one point. |
| PickFreeze.AssembleEmpty | SobolIndices.cpp:175-190 | With an empty index set every position is frozen: arg1 is x2 and arg2 is x1. |
| PickFreeze.AssembleFull | SobolIndices.cpp:175-190 | With a set containing 1..dim every position is picked: arg1 is x1 and arg2 is x2. |
| PickFreeze.AssembleIgnoresOutside | SobolIndices.cpp:175-190 | Two index sets that agree on 1..dim give the same mixed vector, so members outside 1..dim have no effect. |
| PickFreeze.AssembleComplement | SobolIndices.cpp:180-189 | Mixing with the complement of the set (within 1..dim) equals mixing the swapped draws: arg2 for a group is arg1 for its complement. |
| PickFreeze.AssembleConserves | SobolIndices.cpp:180-189 | The multiset union of arg1 and arg2 is that of x1 and x2. The swap loses and duplicates nothing. |
| DomainTransform.OverrideKeepsMean | SobolIndices.cpp:219-230 | With a non-empty variance override the stored variances play no part. The mean still comes from the stored rows: configurations with the same means give the same draw. |
| DomainTransform.StoredOverrideIsNoOverride | SobolIndices.cpp:223-230 | Passing the stored variances as the override gives the same draw as passing no override. |
| MonteCarlo.SplitRun | SobolIndices.cpp:106-145 | The sums of a+b iterations are the sums of the first a plus the sums of the next b, where the second part starts at the generator point where the first part stopped. Split runs merge exactly. |
| MonteCarlo.SquareSumsNonNegative | SobolIndices.cpp:142-144 | The sum of squares and the total-effect sum are never negative. |
| MonteCarlo.TotalIndexNonNegative | SobolIndices.cpp:152-163 | The raw total index is never negative. |
| MonteCarlo.DeviationsNonNegative | SobolIndices.cpp:141-142 | For every x, the sum of (f - x)^2 over the iterations, written from the accumulators as dSum - 2x*f0Sum + n*x^2, is non-negative. |
| MonteCarlo.SpreadNonNegative | SobolIndices.cpp:141-142 | n*dSum - f0Sum^2 is non-negative (Cauchy-Schwarz on the accumulators). |
| MonteCarlo.VarianceNonNegative | SobolIndices.cpp:148-149 | In exact arithmetic the estimated model variance is never negative. |
| MonteCarlo.ConstantSums | SobolIndices.cpp:141-144 | If every iteration's four values are k, the sums after n iterations are (n*k, n*k^2, 0, 0). |
| MonteCarlo.ConstantEstimate | SobolIndices.cpp:141-163 | If every iteration's four values are k, the call yields mean k, variance 0 and both raw indices 0. |
| MonteCarlo.ConstantModel | SobolIndices.cpp:130-163 | A model that ignores its arguments yields mean k, variance 0 and both raw indices 0, whatever the draws, the overrides and the index set. |

`QuasiRandom.Halton.GetRnd` (SobolIndices.cpp:210-211) models `get_rnd(k)`: coordinate `k` of the
current point, for `k` in `1..length`. Its requires clause demands that range, and its body is
`points(count, k)`. It is a function without a contract of its own. Its meaning is used in the
`ensures` of `TransformToModelDomain`.

## Left out

- `DisplayMembers`, `DisplayVector`, `DisplaySet` (SobolIndices.cpp:57-81, 338-368): console output only.
- `PlotCoV` (SobolIndices.cpp:268-336): its body is commented out. What remains is one console print (line 272), and the function falls off the end without returning a value.
- Dead, commented-out code:
  - the normalised indices (lines 157-159);
  - the CoV rescaling of the variance (lines 238-241);
  - the `exp` conversions (lines 247-254);
  - the Mersenne-Twister draws (lines 213-214);
  - `SetDistroParams`.
- The local `inIndexSet` in `TransformToModelDomain` (line 217) is computed and never used, so has no behaviour to model.
- The Halton numerics (`halton::init`, `genHalton`, `get_rnd`) are not part of this model:
  - the randomised point sequence is the opaque function `points`;
  - only the cursor, the point length and the flags are modelled.
- `InverseTransformation::Normal` is not part of this model. It is the opaque function `invTrans`, so properties such as "variance 0 gives the mean" cannot be stated.
- The caller's `model` pointer is an opaque pure function of (parameters, constants). A model with side effects is not captured.
- Floating point:
  - all arithmetic is on `real`;
  - `pow(x, 2.0)` is read as `x * x`;
  - rounding, overflow and non-finite values are not modelled.
- MonteCarlo.VarianceNonNegative: holds in exact arithmetic only. Rounding can make the source's `D_sum/N_MC - modelMean*modelMean` slightly negative.
- Statistical claims (convergence to the analytic indices, low-discrepancy quality) are outside what a deterministic model can state.
- Sobol.SobolIndices.ComputeSensitivityIndices requires `nMC > 0`. The source divides by `N_MC` (lines 148-152), so `N_MC == 0` is a division by zero with no defined result.
- Preconditions stand in for C++ undefined behaviour:
  - every stored row has a mean, and also a variance when no variance override is given (only then is `distroParams[j][1]` read, line 225);
  - a non-empty variance override covers all `dim` parameters.
- `dim` is a `nat`. With a negative `dim` the source's constructor throws at line 43 (`resize` of a negative size), which is not modelled.
- The configuration fields are declared `const`: no code in the file writes them after the constructor. So a call's overrides are never written back to `indices` or `distroParams`.
- Heap ownership is not modelled: the `new` at lines 49-50 and the missing destructor. The inverse transform object has no state in this model.
- Sobol.SobolIndices.EvaluateNextPoint, Sobol.SobolIndices.ComputeSensitivityIndices: the final contents of the per-iteration scratch vectors `x1`, `x2`, `arg1`, `arg2` are not part of their contracts (they may change them, as their `modifies` says). What each step writes there is stated by `TransformToModelDomain` and `AssignModelArguments`.
- Sobol.SobolIndices.EvaluateNextPoint is the loop body of `ComputeSensitivityIndices` (lines 108-133), pulled out as a method of its own. The statements and their order are those of the source.
- Index sets are 1-based, as in the code: position `p` is in the group when `p + 1` is in the set.
