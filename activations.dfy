/** Activation functions: a scalar function and its derivative, with any constants
    fixed when the instance is built. The two piecewise-linear variants are modelled
    exactly; every other variant is an opaque pair of functions. */
module Activations {

  datatype Activation =
    /** Leaky rectifier: slope `alpha` below zero, identity above. */
    | LeakyReLU(alpha: real)
    /** Linear function `alpha * x + beta`. */
    | Linear(alpha: real, beta: real)
    /** Any other variant (sigmoid, tanh, arctan, ELU, soft-plus), given by its
        activation and derivative; their transcendental formulas are not modelled. */
    | Pair(activate: real -> real, derivate: real -> real)
  {
    /** The two piecewise-linear variants can be undone: a leaky rectifier with a
        positive slope and a linear function with a non-zero slope give back their
        argument from their value. */
    function Activate(x: real): (y: real)
      ensures LeakyReLU? && alpha > 0.0 ==> x == (if y < 0.0 then y / alpha else y)
      ensures Linear? && alpha != 0.0 ==> x == (y - beta) / alpha
    {
      match this
      case LeakyReLU(alpha) =>
        if x < 0.0 then
          if alpha > 0.0 then ScaleUndo(alpha, x); alpha * x else alpha * x
        else x
      case Linear(alpha, beta) =>
        if alpha != 0.0 then ScaleUndo(alpha, x); alpha * x + beta else alpha * x + beta
      case Pair(f, _) => f(x)
    }

    /** The derivative is the slope of the branch `x` lies on: a leaky rectifier is
        its slope times its argument, a linear function its slope times its argument
        plus its offset. */
    function Derivate(x: real): (d: real)
      ensures LeakyReLU? ==> Activate(x) == d * x
      ensures Linear? ==> Activate(x) == d * x + beta
    {
      match this
      case LeakyReLU(alpha) => if x < 0.0 then alpha else 1.0
      case Linear(alpha, _) => alpha
      case Pair(_, d) => d(x)
    }
  }

  /** Scaling by a non-zero factor is undone by dividing by it, and a positive factor keeps the sign. */
  lemma ScaleUndo(a: real, x: real)
    requires a != 0.0
    ensures (a * x) / a == x
    ensures a > 0.0 ==> (a * x < 0.0 <==> x < 0.0)
  {
  }

  /** The `LinearFunc(alpha, beta)` constructor: it passes `alpha` on and drops `beta`,
      so the stored offset keeps its default of zero. */
  function NewLinear(alpha: real, beta: real): (f: Activation)
    ensures f.Linear? && f.alpha == alpha
    ensures forall x :: f.Activate(x) == alpha * x
    ensures forall x :: f.Derivate(x) == alpha
  {
    Linear(alpha, 0.0)
  }

  /** The two branches of the leaky rectifier meet at zero, where the slope is taken as 1. */
  lemma LeakyAtZero(alpha: real)
    ensures LeakyReLU(alpha).Activate(0.0) == 0.0
    ensures LeakyReLU(alpha).Derivate(0.0) == 1.0
  {
  }

  /** Sign behaviour of the two branches of the leaky rectifier. */
  lemma LeakyBranches(alpha: real, x: real)
    ensures x >= 0.0 ==> LeakyReLU(alpha).Activate(x) == x && LeakyReLU(alpha).Derivate(x) == 1.0
    ensures x < 0.0 ==> LeakyReLU(alpha).Activate(x) == alpha * x && LeakyReLU(alpha).Derivate(x) == alpha
  {
  }

  /** With a non-negative slope the leaky rectifier is monotone non-decreasing. */
  lemma LeakyMonotone(alpha: real, x: real, y: real)
    requires alpha >= 0.0 && x <= y
    ensures LeakyReLU(alpha).Activate(x) <= LeakyReLU(alpha).Activate(y)
  {
    if x < 0.0 && y < 0.0 {
      assert alpha * (y - x) >= 0.0;
    } else if x < 0.0 {
      assert alpha * (-x) >= 0.0;
    }
  }

  /** The linear activation has a constant derivative, so any difference of two values is
      that derivative times the difference of the arguments, whatever point it is taken at. */
  lemma LinearSecant(alpha: real, beta: real, x: real, y: real, z: real)
    ensures Linear(alpha, beta).Activate(x) - Linear(alpha, beta).Activate(y)
         == Linear(alpha, beta).Derivate(z) * (x - y)
  {
  }

  /** A freshly built linear activation with slope 1 is the identity, whatever offset was passed. */
  lemma NewLinearUnitSlopeIsIdentity(beta: real, x: real)
    ensures NewLinear(1.0, beta).Activate(x) == x
  {
  }
}
