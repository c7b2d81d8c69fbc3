/** Python's `random` module as the models consume it: a stream of
    `random.random()` results indexed by a draw counter that each model
    threads through explicitly, in the order the source draws. */
module PyRandom {

  /** What `random.random()` guarantees: every draw lies in [0, 1). */
  ghost predicate UnitDraws(rand: nat -> real)
  {
    forall k: nat :: 0.0 <= rand(k) < 1.0
  }

  /** CPython's `random.uniform(a, b)` for the draw `u` of `random.random()`. */
  function Uniform(a: real, b: real, u: real): real
  {
    a + (b - a) * u
  }

  /** For a unit draw, `uniform(a, b)` with `a <= b` lies in [a, b]. */
  lemma UniformRange(a: real, b: real, u: real)
    requires a <= b && 0.0 <= u < 1.0
    ensures a <= Uniform(a, b, u) <= b
  {
    var d, v := b - a, 1.0 - u;
    assert d * u >= 0.0;
    assert d * v >= 0.0;
    assert d * u + d * v == d;
  }
}
