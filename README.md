# Moment algebra of `random_variable.py`

A Dafny model of the operator engine of the Python module `random_variable.py`. A random
variable there is an object of some class (`RandomVariable`, `Normal`, `ChiSquare`, ...)
carrying a `mean` and a `variance`; the operators `+`, `-`, `*`, `/` and `==` build a new
object, or a truth value, from their operands by fixed moment formulas. The model follows
the code as it stands, including its failures:

- **Objects** (`values.dfy`). An object is `RandomVariable(kind, mean, variance)` with
  `kind` one of `Generic` (the base class), `Normal` or `ChiSquare(df)`; means and
  variances are `real`. An operand is an `int`, a random variable, or `Other` (any other
  built-in value: float, bool, str, None). An operator's outcome is a new object,
  Python `None`, `TypeError` or `ZeroDivisionError`. `Construct` is the call of a class:
  `RandomVariable` and `Normal` take `(mean, variance)`, `ChiSquare` takes `df` alone, and
  `Binomial`, `Uniform`, `Gamma`, `Poisson` always raise TypeError, because their
  `super().__init__()` passes no arguments to the two-argument base `__init__`.
- **Base operators** (`base_operators.dfy`). `__add__`, `__sub__`, `__mul__`,
  `__truediv__`, `__eq__` of the base class, which Normal inherits unchanged: the `Normal`
  overrides in the file sit inside a string literal and are not code. Scalar operands
  must have `type(...) == int`; an unsupported operand falls off the end of the method
  and gets `None`. `self.__class__(mean, variance)` on a chi-square raises TypeError.
- **ChiSquare** (`chi_square_operators.dfy`). `ChiSquare(df)` has mean `df` and variance
  `2 df`; `__mul__` by an operand equal to `Normal(0, 1)` gives `ChiSquare(df + 1)`,
  anything else goes to the inherited product.
- **Expressions** (`expressions.dfy`). How Python evaluates `a + b`, `a - b`, `a * b`,
  `a / b`: `c + X` and `c * X` reach `__radd__`/`__rmul__`; `c - X` and `c / X` raise
  TypeError because there is no `__rsub__` or `__rtruediv__`; and `X * C` for a chi-square
  `C` and a base or Normal `X` runs `C.__rmul__` first (a subclass's own reflected method
  takes precedence), so `Normal(0, 1) * ChiSquare(k)` is `ChiSquare(k + 1)` too.
- **Families** (`families.dfy`). The Gamma and Poisson moment formulas, which no call can
  reach as the file stands.
- **Properties** (`properties.dfy`). The algebraic laws, round trips, error cases and the
  invariant that operators keep (`Valid`: variance not negative, a chi-square's moments
  tied to its `df`).

The model follows the code where the code does not do what the repository's own text
expects of it. `demo.py:20-21` expects `Normal(0, 1) * Normal(0, 1)` to be a chi-square with
one degree of freedom; in the code it is a plain RandomVariable with mean 0 and variance 1
(`StandardNormalSquared`), because the Normal overrides are inside a string literal.
`demo.py:29-30` expects `ChiSquare(2) + ChiSquare(5)` to add the degrees of freedom; in the
code it raises TypeError (`ChiSquareRaises`). The comment at random_variable.py:21 asks for
an exception on unsupported operands; in the code they get `None` (`UnsupportedOperand`).
The comment at random_variable.py:50 says the variance of `X / Y` is likely wrong; the code
gives it the product variance (`QuotientMoments`), and `QuotientVarianceDisagreesWithScaling`
shows one input where that is so (dividing `Normal(0, 1)` by the constant `Normal(2, 0)`
gives variance 4 where `/ 2` gives 1/4).

## Model

| member | source | states |
|---|---|---|
| Values.Construct | random_variable.py:8-194 | calling a class: RandomVariable and Normal succeed with exactly two arguments and store them as mean and variance; ChiSquare succeeds with exactly one and derives mean df, variance 2 df; every other call raises TypeError, including every call of Binomial, Uniform, Gamma and Poisson, whose `super().__init__()` passes no arguments; the result's class is the called class |
| Families.SubclassConstructorsRaise | random_variable.py:149-194 | Binomial, Uniform, Gamma and Poisson raise TypeError for every argument list |
| Families.GammaMoments | random_variable.py:182-183 | Gamma moments: mean times beta is alpha, variance times beta is the mean, both positive for positive parameters; beta 0 divides by zero |
| Families.PoissonMoments | random_variable.py:193-194 | Poisson mean and variance both equal the rate |
| BaseOperators.Add | random_variable.py:12-21 | `__add__`: None exactly for an unsupported operand; TypeError exactly when a chi-square meets an int or another chi-square; otherwise the receiver's class for an int or a same-class operand, plain RandomVariable across classes |
| BaseOperators.Sub | random_variable.py:26-35 | `__sub__`: the same outcome and class dispatch as `__add__` |
| BaseOperators.Mul | random_variable.py:37-44 | `__mul__`: None exactly for an unsupported operand; TypeError exactly for chi-square times int; an int keeps the class, two random variables give a plain RandomVariable |
| BaseOperators.TrueDiv | random_variable.py:50-56 | `__truediv__`: ZeroDivisionError exactly for the int 0 or a divisor with mean 0; TypeError exactly for a chi-square over a non-zero int; None for an unsupported operand; class as for `__mul__` |
| BaseOperators.Eq | random_variable.py:64-69 | `__eq__`: False exactly across classes, True exactly for the same class and equal moments (None otherwise) |
| BaseOperators.PyEq | random_variable.py:134 | the expression `left == right`: the same three outcomes whichever of Python's reflected orders is taken, and False for an int or other built-in left operand |
| ChiSquareOperators.ChiSquareMul | random_variable.py:133-137 | an operand that is a Normal with mean 0 and variance 1 gives ChiSquare(df + 1); any other operand gives exactly the inherited `__mul__` result |
| ChiSquareOperators.MulMethod | random_variable.py:145-146 | `self.__mul__`, also what `__rmul__` runs: TypeError exactly for chi-square times int, None for an unsupported operand, and a chi-square receiver keeps its class exactly when the operand is a standard Normal |
| Expressions.PyAdd | random_variable.py:23-24 | `a + b`: None exactly when an operand is unsupported; TypeError exactly when a chi-square meets an int (either side) or another chi-square; never ZeroDivisionError |
| Expressions.PySub | random_variable.py:26-35 | `a - b`: TypeError whenever the left operand is not a random variable (no `__rsub__`) or a chi-square meets an int or chi-square; None only for an unsupported right operand |
| Expressions.PyMul | random_variable.py:46-48 | `a * b`: two random variables always give a random variable; None exactly when an operand is unsupported; TypeError exactly for chi-square with an int on either side |
| Expressions.PyDiv | random_variable.py:51-56 | `a / b`: TypeError when the left operand is not a random variable (no `__rtruediv__`) or for a chi-square over a non-zero int; ZeroDivisionError exactly for a zero int or zero-mean divisor |
| Properties.ScalarShift | random_variable.py:12-28 | `X + c`, `c + X` and `X - c` keep X's class, shift the mean by plus or minus c and keep the variance |
| Properties.ShiftRoundTrip | random_variable.py:12-28 | `(X + c) - c` is X again |
| Properties.SameClassSumDifference | random_variable.py:15-31 | same-class `X + Y` and `X - Y` keep the class; means add or subtract, variances add in both |
| Properties.MixedClassSumDifference | random_variable.py:18-33 | different-class `X + Y` and `X - Y` are plain RandomVariables by the same moment rule |
| Properties.AddCommutes | random_variable.py:12-24 | `a + b == b + a` whenever one side is a random variable |
| Properties.ScalarScale | random_variable.py:37-53 | `X * c` and `c * X` keep the class with mean times c and variance times c squared; `X / c` divides likewise; `X / 0` raises ZeroDivisionError |
| Properties.ScaleRoundTrip | random_variable.py:37-53 | `(X * c) / c` is X again for c other than 0 |
| Properties.ProductVarianceNonNegative | random_variable.py:41-42 | the product variance equals Vx Vy + Vx Ey^2 + Ex^2 Vy and is not negative when both variances are not |
| Properties.ProductMoments | random_variable.py:40-42 | outside the chi-square override, `X * Y` (two Normals included) is a plain RandomVariable with mean Ex Ey and the product variance, in either order |
| Properties.StandardNormalSquared | random_variable.py:40-42 | `Normal(0, 1) * Normal(0, 1)` is a plain RandomVariable with mean 0 and variance 1 |
| Properties.MulCommutes | random_variable.py:37-48 | `a * b == b * a` whenever one side is a random variable, chi-square override included |
| Properties.QuotientMoments | random_variable.py:54-56 | `X / Y` has mean Ex/Ey and the product variance; a zero-mean divisor raises ZeroDivisionError |
| Properties.QuotientVarianceDisagreesWithScaling | random_variable.py:50-56 | dividing Normal(0, 1) by 2 gives variance 1/4, dividing it by the constant Normal(2, 0) gives 4 |
| Properties.UnsupportedOperand | random_variable.py:13-56 | an unsupported right operand gets None from every operator; on the left, None from `+` and `*`, TypeError from `-` and `/` |
| Properties.EqualityOutcomes | random_variable.py:64-69 | `X == Y` is False across classes, True for equal class and moments, None for equal class and different moments; reflexive and symmetric |
| Properties.EqualityIsValueEquality | random_variable.py:64-69 | on well-formed objects `X == Y` is truthy exactly when X and Y are the same value |
| Properties.ChiSquareConstruction | random_variable.py:127-131 | `ChiSquare(df)` has mean df and variance 2 df, is well formed exactly for df not negative, and raises TypeError with two arguments |
| Properties.ChiSquareTimesStandardNormal | random_variable.py:133-146 | chi-square times `Normal(0, 1)`, in either order, is ChiSquare(df + 1) |
| Properties.ChiSquareTimesOther | random_variable.py:136-137 | chi-square times any random variable other than a standard Normal is the plain product, in either order |
| Properties.ChiSquareRaises | random_variable.py:14-53 | chi-square plus, minus, times or over an int, and chi-square plus or minus chi-square, raise TypeError; over the int 0 raises ZeroDivisionError |
| Properties.ChiSquareChain | random_variable.py:133-135 | multiplying ChiSquare(df) by n standard Normals in turn gives ChiSquare(df + n) |
| Properties.AddPreservesValid | random_variable.py:12-24 | `+` returns a well-formed object from well-formed operands |
| Properties.SubPreservesValid | random_variable.py:26-33 | `-` returns a well-formed object from well-formed operands |
| Properties.MulPreservesValid | random_variable.py:37-48 | `*` returns a well-formed object from well-formed operands, chi-square override included |
| Properties.DivPreservesValid | random_variable.py:51-56 | `/` returns a well-formed object from well-formed operands |

## Left out

- Sampling: every `generate` method is a call into numpy's random generator with a
  process-wide seed; it is not modelled.
- `__str__` is display formatting and is not modelled.
- The `Normal` operator overrides and the chi-square product rule inside string literals
  are not code and are not modelled.
- The `__main__` block and `demo.py` are demonstration drivers. The covariance
  combinators `add_cov`/`sub_cov` and the `Beta` class that `demo.py` calls do not exist
  in `random_variable.py`, so there is nothing to model them against.
- Gamma's parameter beta: the moment formulas divide by beta as a rate, while the
  sampler passes beta to numpy as the scale; only the moment formulas are modelled.
- Binomial and Uniform moments: Binomial never sets them and Uniform's are unreachable;
  both constructors are modelled only as raising TypeError (`Construct`).
- Floating point: means and variances are exact reals, so rounding, overflow and the
  int/float distinction of the fields are not modelled; only the `type(other) == int`
  test on operands is kept (a bool or float operand is `Other`).
- Operands are limited to ints, random variables and built-in values whose own
  operators return NotImplemented for a random variable; user-defined classes with
  their own operator methods are not modelled.
