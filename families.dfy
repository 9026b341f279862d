/** The moment formulas of the Gamma and Poisson constructors. Neither constructor
    gets as far as these lines: `super().__init__()` raises TypeError first (see
    `Construct`), so no Gamma or Poisson object can exist. */
module Families {
  import opened Values

  /** The moments a constructor assigns, or the ZeroDivisionError its division raises. */
  datatype Moments = Moments(mean: real, variance: real) | DivisionByZero

  /** Gamma(alpha, beta): mean alpha/beta and variance alpha/beta^2, that is, the
      variance is the mean divided once more by beta. */
  function GammaMoments(alpha: real, beta: real): (m: Moments)
    ensures m == DivisionByZero <==> beta == 0.0
    ensures m.Moments? ==> m.mean * beta == alpha && m.variance * beta == m.mean
    ensures m.Moments? && alpha > 0.0 && beta > 0.0 ==> m.mean > 0.0 && m.variance > 0.0
  {
    if beta == 0.0 then DivisionByZero
    else
      var v := alpha / (beta * beta);
      assert v * beta == alpha / beta by {
        assert v * (beta * beta) == alpha;
      }
      Moments(alpha / beta, v)
  }

  /** Poisson(rate): mean and variance both equal the rate. */
  function PoissonMoments(rate: real): (m: Moments)
    ensures m.Moments? && m.mean == m.variance
    ensures m.mean == rate
  {
    Moments(rate, rate)
  }

  /** Binomial, Uniform, Gamma and Poisson cannot be constructed with any arguments. */
  lemma SubclassConstructorsRaise(cls: Class, args: seq<real>)
    requires cls == BinomialClass || cls == UniformClass || cls == GammaClass || cls == PoissonClass
    ensures Construct(cls, args) == TypeError
  {
  }
}
