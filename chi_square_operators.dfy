/** The operator overrides of class ChiSquare: `__mul__`, and `__rmul__`, which calls
    `self.__mul__`. */
module ChiSquareOperators {
  import opened Values
  import opened BaseOperators

  /** `ChiSquare.__mul__(self, other)`. An operand equal to `Normal(0, 1)` adds one
      degree of freedom; anything else goes to the inherited `RandomVariable.__mul__`.
      Python equality is by class and moments, so only a Normal object with mean 0 and
      variance 1 matches. */
  function ChiSquareMul(self: RandomVariable, other: Operand): (r: Outcome)
    requires self.kind.ChiSquare?
    ensures other.RV? && IsStandardNormal(other.x) ==> r == Value(ChiSquareOf(self.kind.df + 1.0))
    ensures !(other.RV? && IsStandardNormal(other.x)) ==> r == Mul(self, other)
  {
    if Truthy(PyEq(other, StandardNormal)) then Construct(ChiSquareClass, [self.kind.df + 1.0])
    else Mul(self, other)
  }

  /** `self.__mul__(other)` with the method looked up on the class of `self`; it is
      also what `__rmul__` calls, in RandomVariable and in ChiSquare alike. */
  function MulMethod(self: RandomVariable, other: Operand): (r: Outcome)
    ensures r != ZeroDivision
    ensures r == PyNone <==> other.Other?
    ensures r == TypeError <==> self.kind.ChiSquare? && other.Int?
    ensures r.Value? && self.kind.ChiSquare? && other.RV? ==>
      (r.rv.kind.ChiSquare? <==> IsStandardNormal(other.x))
  {
    if self.kind.ChiSquare? then ChiSquareMul(self, other) else Mul(self, other)
  }
}
