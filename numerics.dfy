/** The floating-point primitives the pricing code takes from f64 (`ln`, `exp`, `sqrt`)
    and from the statrs standard normal distribution (`cdf`, `pdf`). They are foreign
    numerics, so the model takes them as a parameter and assumes of them only what
    `Sound` states; nothing about their concrete values is used. */
module Numerics {
  datatype Primitives = Primitives(
    normalCdf: real -> real,
    normalPdf: real -> real,
    ln: real -> real,
    exp: real -> real,
    sqrt: real -> real)

  /** The only facts about the primitives that the properties below rely on:
      the normal CDF is a probability, it is symmetric about zero
      (N(x) + N(-x) = 1), the normal density is never negative, and the square
      root of a positive number is positive. */
  ghost predicate Sound(p: Primitives) {
    && (forall x :: 0.0 <= p.normalCdf(x) <= 1.0)
    && (forall x, y :: x + y == 0.0 ==> p.normalCdf(x) + p.normalCdf(y) == 1.0)
    && (forall x :: p.normalPdf(x) >= 0.0)
    && (forall t :: t > 0.0 ==> p.sqrt(t) > 0.0)
  }

  /** The reflection form of the symmetry assumption. */
  lemma CdfReflection(p: Primitives, x: real)
    requires Sound(p)
    ensures p.normalCdf(-x) == 1.0 - p.normalCdf(x)
  {
    assert x + -x == 0.0;
  }

  /** A crude but sound stand-in for the primitives: a step-function CDF,
      a first-order exponential and a square root that is exact at 1.
      It shows the assumptions in `Sound` are consistent, and it serves as
      a concrete witness where a property fails for some sound primitives. */
  function StepPrimitives(): (p: Primitives)
    ensures Sound(p)
  {
    Primitives(
      x => if x > 0.0 then 1.0 else if x < 0.0 then 0.0 else 0.5,
      x => 0.0,
      x => 0.0,
      x => 1.0 + x,
      t => if t > 0.0 then t else 0.0)
  }
}
