/** What the operators promise, stated on whole Python expressions. */
module Properties {
  import opened Values
  import opened BaseOperators
  import opened ChiSquareOperators
  import opened Expressions

  // ----- Addition and subtraction -------------------------------------------------

  /** `X + c`, `c + X` and `X - c` keep the class of X, shift the mean by c and leave
      the variance alone. */
  lemma ScalarShift(x: RandomVariable, c: int)
    requires !x.kind.ChiSquare?
    ensures PyAdd(RV(x), Int(c)) == Value(RandomVariable(x.kind, x.mean + c as real, x.variance))
    ensures PyAdd(Int(c), RV(x)) == PyAdd(RV(x), Int(c))
    ensures PySub(RV(x), Int(c)) == Value(RandomVariable(x.kind, x.mean - c as real, x.variance))
  {
  }

  /** Subtracting c undoes adding c. */
  lemma ShiftRoundTrip(x: RandomVariable, c: int)
    requires !x.kind.ChiSquare?
    ensures PyAdd(RV(x), Int(c)).Value?
    ensures PySub(RV(PyAdd(RV(x), Int(c)).rv), Int(c)) == Value(x)
  {
  }

  /** Two random variables of the same class keep the class; the means add or
      subtract and the variances add in both cases. */
  lemma SameClassSumDifference(x: RandomVariable, y: RandomVariable)
    requires SameClass(x, y) && !x.kind.ChiSquare?
    ensures PyAdd(RV(x), RV(y)) == Value(RandomVariable(x.kind, x.mean + y.mean, x.variance + y.variance))
    ensures PySub(RV(x), RV(y)) == Value(RandomVariable(x.kind, x.mean - y.mean, x.variance + y.variance))
  {
  }

  /** Two random variables of different classes give a plain RandomVariable by the
      same moment rule. */
  lemma MixedClassSumDifference(x: RandomVariable, y: RandomVariable)
    requires !SameClass(x, y)
    ensures PyAdd(RV(x), RV(y)) == Value(RandomVariable(Generic, x.mean + y.mean, x.variance + y.variance))
    ensures PySub(RV(x), RV(y)) == Value(RandomVariable(Generic, x.mean - y.mean, x.variance + y.variance))
  {
  }

  /** `a + b` and `b + a` agree whenever one side is a random variable. */
  lemma AddCommutes(a: Operand, b: Operand)
    requires a.RV? || b.RV?
    ensures PyAdd(a, b) == PyAdd(b, a)
  {
  }

  // ----- Scaling ----------------------------------------------------------------

  /** `X * c` and `c * X` keep the class with mean scaled by c and variance by c^2;
      `X / c` divides them likewise, and `X / 0` raises ZeroDivisionError. */
  lemma ScalarScale(x: RandomVariable, c: int)
    requires !x.kind.ChiSquare?
    ensures PyMul(RV(x), Int(c))
      == Value(RandomVariable(x.kind, x.mean * c as real, x.variance * (c as real) * (c as real)))
    ensures PyMul(Int(c), RV(x)) == PyMul(RV(x), Int(c))
    ensures c != 0 ==>
      PyDiv(RV(x), Int(c))
      == Value(RandomVariable(x.kind, x.mean / c as real, x.variance / ((c as real) * (c as real))))
    ensures PyDiv(RV(x), Int(0)) == ZeroDivision
  {
  }

  /** Dividing by a non-zero c undoes multiplying by c. */
  lemma ScaleRoundTrip(x: RandomVariable, c: int)
    requires !x.kind.ChiSquare? && c != 0
    ensures PyMul(RV(x), Int(c)).Value?
    ensures PyDiv(RV(PyMul(RV(x), Int(c)).rv), Int(c)) == Value(x)
  {
  }

  // ----- Products and quotients of two random variables -------------------------

  /** The product variance is Vx Vy + Vx Ey^2 + Ex^2 Vy, so it is never negative when
      the two variances are not. */
  lemma ProductVarianceNonNegative(x: RandomVariable, y: RandomVariable)
    requires x.variance >= 0.0 && y.variance >= 0.0
    ensures ProductVariance(x, y)
      == x.variance * y.variance + x.variance * (y.mean * y.mean) + (x.mean * x.mean) * y.variance
    ensures ProductVariance(x, y) >= 0.0
  {
    var ex2, ey2 := x.mean * x.mean, y.mean * y.mean;
    assert ex2 >= 0.0 && ey2 >= 0.0;
    assert (x.variance + ex2) * (y.variance + ey2)
      == x.variance * y.variance + x.variance * ey2 + ex2 * y.variance + ex2 * ey2;
    assert x.variance * y.variance >= 0.0;
    assert x.variance * ey2 >= 0.0;
    assert ex2 * y.variance >= 0.0;
  }

  /** Outside the chi-square override, `X * Y` of any two random variables, two
      Normals included, is a plain RandomVariable with mean Ex Ey and the
      product-moment variance, whichever operand comes first. */
  lemma ProductMoments(x: RandomVariable, y: RandomVariable)
    requires !(x.kind.ChiSquare? && IsStandardNormal(y))
    requires !(y.kind.ChiSquare? && IsStandardNormal(x))
    ensures PyMul(RV(x), RV(y)) == Value(RandomVariable(Generic, x.mean * y.mean, ProductVariance(x, y)))
    ensures PyMul(RV(y), RV(x)) == PyMul(RV(x), RV(y))
  {
  }

  /** `Normal(0, 1) * Normal(0, 1)` is a plain RandomVariable with mean 0 and
      variance 1, not a chi-square. */
  lemma StandardNormalSquared()
    ensures PyMul(RV(StandardNormal), RV(StandardNormal)) == Value(RandomVariable(Generic, 0.0, 1.0))
  {
  }

  /** `a * b` and `b * a` agree whenever one side is a random variable. */
  lemma MulCommutes(a: Operand, b: Operand)
    requires a.RV? || b.RV?
    ensures PyMul(a, b) == PyMul(b, a)
  {
  }

  /** `X / Y` has mean Ex / Ey and the same variance formula as `X * Y`; a divisor
      with mean 0 raises ZeroDivisionError. */
  lemma QuotientMoments(x: RandomVariable, y: RandomVariable)
    ensures y.mean == 0.0 ==> PyDiv(RV(x), RV(y)) == ZeroDivision
    ensures y.mean != 0.0 ==>
      PyDiv(RV(x), RV(y)) == Value(RandomVariable(Generic, x.mean / y.mean, ProductVariance(x, y)))
  {
  }

  /** The quotient variance disagrees with scalar division: `Normal(0, 1) / 2` has
      variance 1/4, while dividing by the constant `Normal(2, 0)` gives 4. */
  lemma QuotientVarianceDisagreesWithScaling()
    ensures PyDiv(RV(StandardNormal), Int(2)).Value?
    ensures PyDiv(RV(StandardNormal), Int(2)).rv.variance == 0.25
    ensures PyDiv(RV(StandardNormal), RV(RandomVariable(Normal, 2.0, 0.0))).Value?
    ensures PyDiv(RV(StandardNormal), RV(RandomVariable(Normal, 2.0, 0.0))).rv.variance == 4.0
  {
  }

  // ----- Unsupported operands ---------------------------------------------------

  /** A right operand that is neither an int nor a random variable gets `None` back
      from every operator; on the left it gets `None` from `+` and `*` and TypeError
      from `-` and `/`, which have no reflected method. */
  lemma UnsupportedOperand(x: RandomVariable)
    ensures PyAdd(RV(x), Other) == PyNone && PyAdd(Other, RV(x)) == PyNone
    ensures PySub(RV(x), Other) == PyNone && PySub(Other, RV(x)) == TypeError
    ensures PyMul(RV(x), Other) == PyNone && PyMul(Other, RV(x)) == PyNone
    ensures PyDiv(RV(x), Other) == PyNone && PyDiv(Other, RV(x)) == TypeError
  {
  }

  // ----- Equality ---------------------------------------------------------------

  /** `X == Y` is `False` across classes, `True` for the same class and moments, and
      the falsy `None` for the same class with different moments. */
  lemma EqualityOutcomes(x: RandomVariable, y: RandomVariable)
    ensures PyEq(RV(x), y) == EqFalse <==> !SameClass(x, y)
    ensures PyEq(RV(x), y) == EqTrue <==> SameClass(x, y) && x.mean == y.mean && x.variance == y.variance
    ensures PyEq(RV(x), y) == EqNone <==> SameClass(x, y) && (x.mean != y.mean || x.variance != y.variance)
    ensures PyEq(RV(x), x) == EqTrue
    ensures PyEq(RV(x), y) == PyEq(RV(y), x)
  {
  }

  /** On well-formed objects, `X == Y` is truthy exactly when the two are the same value. */
  lemma EqualityIsValueEquality(x: RandomVariable, y: RandomVariable)
    requires Valid(x) && Valid(y)
    ensures Truthy(PyEq(RV(x), y)) <==> x == y
  {
  }

  // ----- ChiSquare --------------------------------------------------------------

  /** `ChiSquare(df)` has mean df and variance 2 df, and is well formed exactly when
      df is not negative; called with two arguments it raises TypeError. */
  lemma ChiSquareConstruction(df: real, variance: real)
    ensures Construct(ChiSquareClass, [df]) == Value(ChiSquareOf(df))
    ensures ChiSquareOf(df).mean == df && ChiSquareOf(df).variance == 2.0 * df
    ensures Valid(ChiSquareOf(df)) <==> df >= 0.0
    ensures Construct(ChiSquareClass, [df, variance]) == TypeError
  {
  }

  /** A chi-square times `Normal(0, 1)`, in either order, gains one degree of freedom. */
  lemma ChiSquareTimesStandardNormal(df: real)
    ensures PyMul(RV(ChiSquareOf(df)), RV(StandardNormal)) == Value(ChiSquareOf(df + 1.0))
    ensures PyMul(RV(StandardNormal), RV(ChiSquareOf(df))) == Value(ChiSquareOf(df + 1.0))
  {
  }

  /** A chi-square times any random variable other than a standard Normal falls back
      to the plain product. */
  lemma ChiSquareTimesOther(x: RandomVariable, y: RandomVariable)
    requires x.kind.ChiSquare? && !IsStandardNormal(y)
    ensures PyMul(RV(x), RV(y)) == Value(RandomVariable(Generic, x.mean * y.mean, ProductVariance(x, y)))
    ensures PyMul(RV(y), RV(x)) == PyMul(RV(x), RV(y))
  {
    ProductMoments(x, y);
  }

  /** Every operator path that calls `self.__class__(mean, variance)` on a chi-square
      raises TypeError: `+ int`, `- int`, `* int`, `/ int` and `+`/`-` of two
      chi-squares (`ChiSquare(2) + ChiSquare(5)` among them). */
  lemma ChiSquareRaises(x: RandomVariable, y: RandomVariable, c: int)
    requires x.kind.ChiSquare? && y.kind.ChiSquare?
    ensures PyAdd(RV(x), Int(c)) == TypeError && PyAdd(Int(c), RV(x)) == TypeError
    ensures PySub(RV(x), Int(c)) == TypeError
    ensures PyAdd(RV(x), RV(y)) == TypeError && PySub(RV(x), RV(y)) == TypeError
    ensures PyMul(RV(x), Int(c)) == TypeError && PyMul(Int(c), RV(x)) == TypeError
    ensures c != 0 ==> PyDiv(RV(x), Int(c)) == TypeError
    ensures PyDiv(RV(x), Int(0)) == ZeroDivision
  {
  }

  /** n standard Normals. */
  function StandardNormals(n: nat): (s: seq<RandomVariable>)
    ensures |s| == n && forall i :: 0 <= i < n ==> s[i] == StandardNormal
  {
    seq(n, _ => StandardNormal)
  }

  /** Multiplying `ChiSquare(df)` by n standard Normals, one after another, gives
      `ChiSquare(df + n)`. */
  lemma {:induction false} ChiSquareChain(df: real, n: nat)
    ensures MulAll(ChiSquareOf(df), StandardNormals(n)) == ChiSquareOf(df + n as real)
    decreases n
  {
    if n > 0 {
      ChiSquareTimesStandardNormal(df);
      assert StandardNormals(n)[1..] == StandardNormals(n - 1);
      ChiSquareChain(df + 1.0, n - 1);
    }
  }

  // ----- The invariant ----------------------------------------------------------

  /** Every operator that returns a random variable returns a well-formed one when its
      random-variable operands are well formed: `+`. */
  lemma AddPreservesValid(left: Operand, right: Operand)
    requires left.RV? || right.RV?
    requires left.RV? ==> Valid(left.x)
    requires right.RV? ==> Valid(right.x)
    ensures PyAdd(left, right).Value? ==> Valid(PyAdd(left, right).rv)
  {
  }

  /** The same for `-`: the variances add even though the means subtract. */
  lemma SubPreservesValid(left: Operand, right: Operand)
    requires left.RV? || right.RV?
    requires left.RV? ==> Valid(left.x)
    requires right.RV? ==> Valid(right.x)
    ensures PySub(left, right).Value? ==> Valid(PySub(left, right).rv)
  {
  }

  /** The same for `*`, which rests on the product variance being non-negative. */
  lemma MulPreservesValid(left: Operand, right: Operand)
    requires left.RV? || right.RV?
    requires left.RV? ==> Valid(left.x)
    requires right.RV? ==> Valid(right.x)
    ensures PyMul(left, right).Value? ==> Valid(PyMul(left, right).rv)
  {
    if left.RV? && right.RV? {
      ProductVarianceNonNegative(left.x, right.x);
      ProductVarianceNonNegative(right.x, left.x);
    } else if right.Int? {
      ScaledVarianceNonNegative(left.x, right.c);
    } else if left.Int? {
      ScaledVarianceNonNegative(right.x, left.c);
    }
  }

  /** The same for `/`. */
  lemma DivPreservesValid(left: Operand, right: Operand)
    requires left.RV? || right.RV?
    requires left.RV? ==> Valid(left.x)
    requires right.RV? ==> Valid(right.x)
    ensures PyDiv(left, right).Value? ==> Valid(PyDiv(left, right).rv)
  {
    if left.RV? && right.RV? {
      ProductVarianceNonNegative(left.x, right.x);
    } else if left.RV? && right.Int? {
      ScaledVarianceNonNegative(left.x, right.c);
    }
  }

  /** v c^2 and, for c other than 0, v / c^2 are not negative when v is not. */
  lemma ScaledVarianceNonNegative(x: RandomVariable, c: int)
    requires Valid(x)
    ensures x.variance * (c as real) * (c as real) >= 0.0
    ensures c != 0 ==> x.variance / ((c as real) * (c as real)) >= 0.0
  {
    var k := c as real;
    assert k * k >= 0.0;
    assert x.variance * k * k == x.variance * (k * k);
  }
}
