/** Python's evaluation of the binary expressions `left + right`, `left - right`,
    `left * right` and `left / right` when at least one operand is a random variable.

    Python calls `left.__op__(right)` and, only if that answers NotImplemented (as
    `int`, `float` and the other built-ins do for a random variable), the reflected
    `right.__rop__(left)`; a missing reflected method raises TypeError. A `None`
    returned by an operator method is a result like any other. One exception to the
    order: when the class of `right` is a proper subclass of the class of `left` and
    defines its own reflected method, that method is tried first. The classes define
    `__radd__` and `__rmul__` (RandomVariable) and `__rmul__` (ChiSquare), and no
    `__rsub__` or `__rtruediv__`. */
module Expressions {
  import opened Values
  import opened BaseOperators
  import opened ChiSquareOperators

  /** The class whose body defines the `__rmul__` that objects of class `cls` use. */
  function RMulOwner(cls: Class): Class {
    if cls == ChiSquareClass then ChiSquareClass else RandomVariableClass
  }

  /** Python's subclass-first rule for `x * y`: the class of `y` is a proper subclass of
      the class of `x` and overrides `__rmul__`. */
  predicate RMulFirst(x: RandomVariable, y: RandomVariable) {
    && ClassOf(y) != ClassOf(x)
    && IsSubclass(ClassOf(y), ClassOf(x))
    && RMulOwner(ClassOf(y)) != RMulOwner(ClassOf(x))
  }

  /** `left + right`: `int + X` and `other + X` reach `X.__radd__`, which is `X.__add__`. */
  function PyAdd(left: Operand, right: Operand): (r: Outcome)
    requires left.RV? || right.RV?
    ensures r != ZeroDivision
    ensures r == PyNone <==> left.Other? || right.Other?
    ensures r == TypeError <==>
      (IsChi(left) && (right.Int? || IsChi(right))) || (left.Int? && IsChi(right))
  {
    if left.RV? then Add(left.x, right) else Add(right.x, left)
  }

  /** `left - right`: there is no `__rsub__`, so `int - X` and `other - X` raise TypeError. */
  function PySub(left: Operand, right: Operand): (r: Outcome)
    requires left.RV? || right.RV?
    ensures r != ZeroDivision
    ensures r == PyNone <==> left.RV? && right.Other?
    ensures r == TypeError <==> !left.RV? || (IsChi(left) && (right.Int? || IsChi(right)))
  {
    if left.RV? then Sub(left.x, right) else TypeError
  }

  /** `left * right`: `int * X` and `other * X` reach `X.__rmul__`; `X * C` for a
      chi-square `C` and a RandomVariable or Normal `X` calls `C.__rmul__(X)` first. A
      product of two random variables is never an error. */
  function PyMul(left: Operand, right: Operand): (r: Outcome)
    requires left.RV? || right.RV?
    ensures r != ZeroDivision
    ensures left.RV? && right.RV? ==> r.Value?
    ensures r == PyNone <==> left.Other? || right.Other?
    ensures r == TypeError <==> (IsChi(left) && right.Int?) || (left.Int? && IsChi(right))
  {
    match left
    case RV(x) =>
      if right.RV? && RMulFirst(x, right.x) then MulMethod(right.x, left) else MulMethod(x, right)
    case _ => MulMethod(right.x, left)
  }

  /** `left / right`: there is no `__rtruediv__`, so `int / X` and `other / X` raise
      TypeError. */
  function PyDiv(left: Operand, right: Operand): (r: Outcome)
    requires left.RV? || right.RV?
    ensures r == PyNone <==> left.RV? && right.Other?
    ensures r == ZeroDivision <==>
      left.RV? && (right == Int(0) || (right.RV? && right.x.mean == 0.0))
    ensures r == TypeError <==>
      !left.RV? || (IsChi(left) && right.Int? && right.c != 0)
  {
    if left.RV? then TrueDiv(left.x, right) else TypeError
  }

  /** `x * f[0] * f[1] * ...`, evaluated left to right. */
  function MulAll(x: RandomVariable, factors: seq<RandomVariable>): RandomVariable
    decreases |factors|
  {
    if factors == [] then x else MulAll(PyMul(RV(x), RV(factors[0])).rv, factors[1..])
  }
}
