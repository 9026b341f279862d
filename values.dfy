/** The Python values that the operators of random_variable.py take and return:
    random-variable objects (a concrete class plus the `mean` and `variance` fields),
    the right-hand operands an operator can meet, and the outcome of evaluating it
    (a new object, Python `None`, or a raised exception). */
module Values {

  /** The classes the module declares. */
  datatype Class =
    | RandomVariableClass
    | NormalClass
    | ChiSquareClass
    | BinomialClass
    | UniformClass
    | GammaClass
    | PoissonClass

  /** The concrete class of an object that can actually be built; a chi-square object
      also carries its `df` field. */
  datatype Kind = Generic | Normal | ChiSquare(df: real)

  /** A random-variable object. */
  datatype RandomVariable = RandomVariable(kind: Kind, mean: real, variance: real)

  /** An operand: a Python `int`, a random variable, or any other built-in value
      (a float, a bool, a str, None, ...) whose own operators know nothing of
      random variables and whose `type(...)` is not `int`. */
  datatype Operand = Int(c: int) | RV(x: RandomVariable) | Other

  /** The result of evaluating an operator. */
  datatype Outcome = Value(rv: RandomVariable) | PyNone | TypeError | ZeroDivision

  /** The result of `__eq__`: `True`, `False` or a fall-through `None`. */
  datatype EqResult = EqTrue | EqFalse | EqNone

  /** Python truthiness of an equality result (`None` is falsy). */
  predicate Truthy(e: EqResult) {
    e == EqTrue
  }

  /** `type(x)`. Only three classes ever have instances. */
  function ClassOf(x: RandomVariable): (c: Class)
    ensures c == RandomVariableClass || c == NormalClass || c == ChiSquareClass
    ensures c == ChiSquareClass <==> x.kind.ChiSquare?
  {
    match x.kind
    case Generic => RandomVariableClass
    case Normal => NormalClass
    case ChiSquare(_) => ChiSquareClass
  }

  /** `type(x) == type(y)`. */
  predicate SameClass(x: RandomVariable, y: RandomVariable) {
    ClassOf(x) == ClassOf(y)
  }

  /** `issubclass(sub, sup)`: ChiSquare derives from Normal, every other class from
      RandomVariable. */
  predicate IsSubclass(sub: Class, sup: Class) {
    sub == sup || sup == RandomVariableClass || (sub == ChiSquareClass && sup == NormalClass)
  }

  /** An operand that is a chi-square object. */
  predicate IsChi(o: Operand) {
    o.RV? && o.x.kind.ChiSquare?
  }

  /** An object of class Normal with mean 0 and variance 1. */
  predicate IsStandardNormal(x: RandomVariable) {
    x.kind == Normal && x.mean == 0.0 && x.variance == 1.0
  }

  /** `Normal(0, 1)`. */
  const StandardNormal := RandomVariable(Normal, 0.0, 1.0)

  /** The chi-square object `ChiSquare(df)` builds. */
  function ChiSquareOf(df: real): (x: RandomVariable)
    ensures x.kind.ChiSquare? && x.kind.df == df
    ensures x.mean == df && x.variance == 2.0 * df
  {
    RandomVariable(ChiSquare(df), df, 2.0 * df)
  }

  /** What every object is meant to satisfy: a non-negative variance and, for a
      chi-square, the moments its constructor derives from `df`. */
  predicate Valid(x: RandomVariable) {
    && x.variance >= 0.0
    && (x.kind.ChiSquare? ==> x.mean == x.kind.df && x.variance == 2.0 * x.kind.df)
  }

  /** Calling the class `cls` with the positional arguments `args`.
      RandomVariable and Normal take `(mean, variance)`; ChiSquare takes `df` alone, so
      `self.__class__(mean, variance)` on a chi-square object raises TypeError.
      Binomial, Uniform, Gamma and Poisson call `super().__init__()` with no arguments
      against the two-argument `RandomVariable.__init__`, so they always raise TypeError. */
  function Construct(cls: Class, args: seq<real>): (r: Outcome)
    ensures r.Value? || r == TypeError
    ensures r.Value? <==>
      || ((cls == RandomVariableClass || cls == NormalClass) && |args| == 2)
      || (cls == ChiSquareClass && |args| == 1)
    ensures r.Value? ==> ClassOf(r.rv) == cls && r.rv.mean == args[0]
    ensures r.Value? && cls != ChiSquareClass ==> r.rv.variance == args[1]
    ensures r.Value? && cls == ChiSquareClass ==>
      r.rv.kind.df == args[0] && r.rv.variance == 2.0 * args[0]
    ensures r.Value? ==> (Valid(r.rv) <==> r.rv.variance >= 0.0)
  {
    match cls
    case RandomVariableClass =>
      if |args| == 2 then Value(RandomVariable(Generic, args[0], args[1])) else TypeError
    case NormalClass =>
      if |args| == 2 then Value(RandomVariable(Normal, args[0], args[1])) else TypeError
    case ChiSquareClass =>
      if |args| == 1 then Value(ChiSquareOf(args[0])) else TypeError
    case _ => TypeError
  }
}
