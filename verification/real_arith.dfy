/** Small facts about real arithmetic shared by the physics, lap-time and
    view models: the absolute value and the signs of products. */
module RealArith {

  function Abs(a: real): real
  {
    if a < 0.0 then -a else a
  }

  lemma MulNonneg(a: real, b: real)
    requires 0.0 <= a && 0.0 <= b
    ensures 0.0 <= a * b
  {
  }

  lemma MulPositive(a: real, b: real)
    requires 0.0 < a && 0.0 < b
    ensures 0.0 < a * b
  {
  }
}
