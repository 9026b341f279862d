/** The operator methods of the base class RandomVariable. Normal inherits all of
    them unchanged; ChiSquare inherits all but `__mul__` and `__rmul__`.
    `self.__class__(...)` is `Construct(ClassOf(self), ...)`, so the result keeps the
    receiver's class, or raises TypeError when the receiver is a chi-square object. */
module BaseOperators {
  import opened Values

  /** The variance both `__mul__` and `__truediv__` give for two random variables:
      (Vx + Ex^2)(Vy + Ey^2) - Ex^2 Ey^2. */
  function ProductVariance(x: RandomVariable, y: RandomVariable): real {
    (x.variance + x.mean * x.mean) * (y.variance + y.mean * y.mean)
      - x.mean * x.mean * y.mean * y.mean
  }

  /** `self.__add__(other)`. An `int` keeps the class and shifts the mean; a random
      variable of the same class keeps the class, of another class gives a plain
      RandomVariable; anything else falls off the end and returns `None`. */
  function Add(self: RandomVariable, other: Operand): (r: Outcome)
    ensures r != ZeroDivision
    ensures r == PyNone <==> other.Other?
    ensures r == TypeError <==> self.kind.ChiSquare? && (other.Int? || IsChi(other))
    ensures r.Value? && other.Int? ==> ClassOf(r.rv) == ClassOf(self)
    ensures r.Value? && other.RV? ==>
      ClassOf(r.rv) == if SameClass(self, other.x) then ClassOf(self) else RandomVariableClass
  {
    match other
    case Int(c) => Construct(ClassOf(self), [self.mean + c as real, self.variance])
    case RV(y) =>
      if SameClass(self, y) then
        Construct(ClassOf(self), [self.mean + y.mean, self.variance + y.variance])
      else
        Value(RandomVariable(Generic, self.mean + y.mean, self.variance + y.variance))
    case Other => PyNone
  }

  /** `self.__sub__(other)`: the same dispatch as `__add__`; the means subtract and the
      variances still add. */
  function Sub(self: RandomVariable, other: Operand): (r: Outcome)
    ensures r != ZeroDivision
    ensures r == PyNone <==> other.Other?
    ensures r == TypeError <==> self.kind.ChiSquare? && (other.Int? || IsChi(other))
    ensures r.Value? && other.Int? ==> ClassOf(r.rv) == ClassOf(self)
    ensures r.Value? && other.RV? ==>
      ClassOf(r.rv) == if SameClass(self, other.x) then ClassOf(self) else RandomVariableClass
  {
    match other
    case Int(c) => Construct(ClassOf(self), [self.mean - c as real, self.variance])
    case RV(y) =>
      if SameClass(self, y) then
        Construct(ClassOf(self), [self.mean - y.mean, self.variance + y.variance])
      else
        Value(RandomVariable(Generic, self.mean - y.mean, self.variance + y.variance))
    case Other => PyNone
  }

  /** `RandomVariable.__mul__(self, other)`. An `int` keeps the class; a product of two
      random variables is always a plain RandomVariable. */
  function Mul(self: RandomVariable, other: Operand): (r: Outcome)
    ensures r != ZeroDivision
    ensures r == PyNone <==> other.Other?
    ensures r == TypeError <==> self.kind.ChiSquare? && other.Int?
    ensures r.Value? ==> ClassOf(r.rv) == if other.Int? then ClassOf(self) else RandomVariableClass
  {
    match other
    case Int(c) =>
      Construct(ClassOf(self), [self.mean * c as real, self.variance * (c as real) * (c as real)])
    case RV(y) => Value(RandomVariable(Generic, self.mean * y.mean, ProductVariance(self, y)))
    case Other => PyNone
  }

  /** `self.__truediv__(other)`. Dividing by the int 0, or by a random variable whose
      mean is 0, raises ZeroDivisionError while the arguments are evaluated, before
      any class is called. */
  function TrueDiv(self: RandomVariable, other: Operand): (r: Outcome)
    ensures r == PyNone <==> other.Other?
    ensures r == ZeroDivision <==> other == Int(0) || (other.RV? && other.x.mean == 0.0)
    ensures r == TypeError <==> self.kind.ChiSquare? && other.Int? && other.c != 0
    ensures r.Value? ==> ClassOf(r.rv) == if other.Int? then ClassOf(self) else RandomVariableClass
  {
    match other
    case Int(c) =>
      if c == 0 then ZeroDivision
      else Construct(ClassOf(self), [self.mean / c as real, self.variance / ((c as real) * (c as real))])
    case RV(y) =>
      if y.mean == 0.0 then ZeroDivision
      else Value(RandomVariable(Generic, self.mean / y.mean, ProductVariance(self, y)))
    case Other => PyNone
  }

  /** `self.__eq__(other)`: `False` for a different class; `True` for the same class
      and equal moments; otherwise the inner `if` falls through and `None` comes back. */
  function Eq(self: RandomVariable, other: Operand): (r: EqResult)
    ensures r == EqFalse <==> !(other.RV? && SameClass(self, other.x))
    ensures r == EqTrue <==>
      other.RV? && SameClass(self, other.x)
      && self.mean == other.x.mean && self.variance == other.x.variance
  {
    match other
    case RV(y) =>
      if SameClass(self, y) then
        if self.mean == y.mean && self.variance == y.variance then EqTrue else EqNone
      else EqFalse
    case _ => EqFalse
  }

  /** Python's expression `left == right` for a random variable `right`. An int or
      other built-in left operand answers NotImplemented, so Python asks
      `right.__eq__(left)`; when the class of `right` is a proper subclass of the class
      of `left`, Python asks `right.__eq__(left)` first. */
  function PyEq(left: Operand, right: RandomVariable): (r: EqResult)
    ensures r == EqFalse <==> !(left.RV? && SameClass(left.x, right))
    ensures r == EqTrue <==>
      left.RV? && SameClass(left.x, right)
      && left.x.mean == right.mean && left.x.variance == right.variance
  {
    match left
    case RV(x) =>
      if ClassOf(right) != ClassOf(x) && IsSubclass(ClassOf(right), ClassOf(x)) then Eq(right, left)
      else Eq(x, RV(right))
    case _ => Eq(right, left)
  }
}
