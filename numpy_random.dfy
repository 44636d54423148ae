/** The two `numpy.random` calls the fake-data code relies on, modelled
    symbolically. A random tensor row is represented by the seed that was set
    before drawing, its position in the draw and its shape; random integer
    choices read an abstract stream of draws. */
module NumpyRandom {
  import opened Wrappers

  /** Row `row` of `np.random.rand(rows, *shape)` drawn after `np.random.seed(seed)`. */
  datatype Sample = Sample(seed: int, row: nat, shape: seq<nat>)

  /** `np.random.rand(rows, *shape)` after seeding with `seed`. */
  function Rand(seed: int, rows: nat, shape: seq<nat>): (r: seq<Sample>)
    ensures |r| == rows
    ensures forall i :: 0 <= i < rows ==> r[i] == Sample(seed, i, shape)
  {
    seq(rows, i requires 0 <= i < rows => Sample(seed, i, shape))
  }

  /** The generator's stream of raw integer draws. */
  type Stream = nat -> nat

  /** `np.random.choice(n, count)`: `count` integers drawn from [0, n).
      Choosing from an empty range raises unless nothing is drawn. */
  function Choice(n: nat, count: nat, draws: Stream): (r: Result<seq<nat>>)
    ensures r.Ok? <==> (n > 0 || count == 0)
    ensures r.Ok? ==> |r.value| == count
    ensures r.Ok? ==> forall i :: 0 <= i < count ==> r.value[i] < n
  {
    if n == 0 then
      if count == 0 then Ok([])
      else Result<seq<nat>>.Raised(ValueError("a must be greater than 0 unless no samples are taken"))
    else Ok(seq(count, i requires 0 <= i < count => draws(i) % n))
  }
}
