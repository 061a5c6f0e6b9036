/** The quasi-random (Halton) generator as the estimator uses it. Its
    numerics are not part of this model: the whole randomised sequence,
    with its random start and coordinate permutation already applied, is
    the function `points`, where points(n, k) is coordinate k (1-based) of
    the n-th point. What is modelled is the generator's state: the vector
    length it was initialised with and the cursor that genHalton advances. */
module QuasiRandom {

  class Halton {
    /** Coordinate k of the n-th point of the (randomised) sequence. */
    const points: (nat, nat) -> real
    /** Number of coordinates per point, as given to init. */
    var length: nat
    var randomStart: bool
    var randomPermute: bool
    /** Number of points generated so far; get_rnd reads the latest one. */
    var count: nat

    constructor (points: (nat, nat) -> real)
      ensures this.points == points
      ensures length == 0 && !randomStart && !randomPermute && count == 0
    {
      this.points := points;
      length, randomStart, randomPermute, count := 0, false, false, 0;
    }

    /** init(length, randomStart, randomPermute): fixes the point length and
        records the randomisation flags; the cursor is left where it is. */
    method Init(length: nat, randomStart: bool, randomPermute: bool)
      modifies this`length, this`randomStart, this`randomPermute
      ensures this.length == length
      ensures this.randomStart == randomStart && this.randomPermute == randomPermute
    {
      this.length := length;
      this.randomStart := randomStart;
      this.randomPermute := randomPermute;
    }

    /** genHalton: advances to the next point of the sequence. */
    method GenHalton()
      modifies this`count
      ensures count == old(count) + 1
    {
      count := count + 1;
    }

    /** get_rnd(k): coordinate k of the current point; k must be in 1..length. */
    function GetRnd(k: nat): (u: real)
      reads this
      requires 1 <= k <= length
    {
      points(count, k)
    }
  }

  /** n consecutive coordinates of point `point`, starting at coordinate `first`. */
  function Coordinates(points: (nat, nat) -> real, point: nat, first: nat, n: nat): (u: seq<real>)
    ensures |u| == n
  {
    seq(n, j requires 0 <= j < n => points(point, first + j))
  }
}
