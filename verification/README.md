# complex-from-scratch in Dafny

A model of the `Complex` class of complex.py: a complex number `a + b·i` stored
as its real and imaginary parts, the coercion `valueOf` that turns an int, a
float, a Python `complex` or a `Complex` into a `Complex` (and raises
`TypeError` for anything else, `OverflowError` for an int too large for a
double), and the operations `__add__`, `__sub__`,
`__mul__`, `conjugate` and `__truediv__`. Every binary operator first coerces
its right operand with `valueOf`, then computes from a, b (the left operand) and
c, d (the coerced right operand).

- `complex.dfy`, module `ComplexNumbers`: the value type `Complex(re, im)` (the
  datatype constructor is `__init__`; `re`/`im` are the `real`/`imag` fields,
  renamed because `real` is a Dafny keyword), the tagged operand `PyValue`, the
  exception type `Error`, the result type `Result`, the coercion `ValueOf`, the
  arithmetic on two coerced values (`Sum`, `Difference`, `Product`,
  `Conjugate`, `NormSq`, `Quotient`) and the operators `Add`, `Sub`, `Mul`, `Div` that coerce and then compute.
- `complex_laws.dfy`, module `ComplexLaws`: what the docstrings promise, proved
  about the model: the operators fail on exactly the operands `valueOf`
  rejects, the identities of + and *, i·i = −1, conjugation is an involution, a
  value times its conjugate is the real number c·c + d·d, and division is
  multiplication undone, `(x / y) * y == x`, with the distributive law
  `(x + y)/z = x/z + y/z` argued at the head of complex.py.

Python floats are modelled by Dafny's exact `real`, so the model captures the
algebra the docstrings derive, not rounding.

Zero divisor: `__truediv__` does not guard the denominator (complex.py:188-190);
it divides the float `a*c + b*d` by the float `c*c + d*d`, and Python raises
`ZeroDivisionError` for a float division by zero. `Div` returns
`Failure(ZeroDivisionError)` exactly when `c*c + d*d == 0`, which (over exact
reals) is exactly when the divisor is `Complex(0, 0)`.

Int coercion: `float(value)` at complex.py:48 raises `OverflowError` for an int
whose magnitude rounds past the largest double, that is |n| >= 2^1024 - 2^970;
`ValueOf`, and through it every binary operator, returns `Failure(OverflowError)`
there.

## Model

| member | source | states |
|---|---|---|
| `ComplexNumbers.ValueOf` | complex.py:36-55 | fails exactly for an operand that is not an int, float, complex or Complex (TypeError naming the type) and for an int outside the range of a double (OverflowError from `float`); an int in range or a float v becomes the real number v + 0i; a builtin complex keeps both parts; a Complex is returned unchanged |
| `ComplexNumbers.Add` | complex.py:58-74 | fails, with the coercion's exception, exactly when the right operand does not coerce; otherwise the part-by-part sum with the coerced operand |
| `ComplexNumbers.Sub` | complex.py:76-91 | fails, with the coercion's exception, exactly when the right operand does not coerce; otherwise the part-by-part difference, the left operand as minuend |
| `ComplexNumbers.Mul` | complex.py:93-120 | fails, with the coercion's exception, exactly when the right operand does not coerce; otherwise the product (a·c − b·d) + (a·d + b·c)i with the coerced operand |
| `ComplexNumbers.Div` | complex.py:130-191 | the coercion's exception when the right operand does not coerce; otherwise ZeroDivisionError when the denominator c·c + d·d is 0 and `Success` of the quotient when it is not; succeeds exactly in that last case |
| `ComplexNumbers.Conjugate` | complex.py:122-128 | x times its conjugate is the real number c·c + d·d, and the conjugate has the same c·c + d·d as x |
| `ComplexNumbers.NormSq` | complex.py:143-154 | the denominator c·c + d·d is never negative |
| `ComplexNumbers.Quotient` | complex.py:134-180 | the quotient computed part by part equals x times conj(y), scaled by 1/(c·c + d·d): multiplying top and bottom by the conjugate |
| `ComplexLaws.OperatorsRejectExactlyUncoercible` | complex.py:45-55 | add, sub, mul and div all fail, other than by ZeroDivisionError, on exactly the operands `valueOf` rejects: TypeError(type name) for a non-numeric operand, OverflowError for an int outside the range of a double |
| `ComplexLaws.ValueOfAgreesOnScalars` | complex.py:45-54 | an int in the range of a double, the float of the same value and the complex with that real part and 0 imaginary part coerce to the same value; coercing a coerced value again changes nothing |
| `ComplexLaws.AddZeroIsIdentity` | complex.py:72-74 | x + Complex(0, 0) == x and x + 0 == x |
| `ComplexLaws.SumDifferenceInverse` | complex.py:58-91 | (x + y) − y == x and (x − y) + y == x |
| `ComplexLaws.SubSelfIsZero` | complex.py:89-91 | x − x == Complex(0, 0); y − x == 0 − (x − y), so swapping the operands negates the result: the left operand is the minuend |
| `ComplexLaws.SumOfReals` | complex.py:45-74 | Complex(a, 0) + b == Complex(a + b, 0): adding real numbers stays real |
| `ComplexLaws.ISquaredIsMinusOne` | complex.py:99-105 | Complex(0, 1) * Complex(0, 1) == Complex(−1, 0), i·i = −1 |
| `ComplexLaws.MulOneIsIdentity` | complex.py:112-120 | x * Complex(1, 0) == x and x * 1 == x |
| `ComplexLaws.ProductCommutes` | complex.py:118-119 | x * y == y * x, a law of the product formula (no docstring promises it) |
| `ComplexLaws.ProductAssociates` | complex.py:118-119 | (x * y) * z == x * (y * z), a law of the product formula (no docstring promises it) |
| `ComplexLaws.ProductDistributesOverSum` | complex.py:97-100 | (x + y) * z == x * z + y * z, the distributive law the multiplication is derived from |
| `ComplexLaws.ConjugateInvolution` | complex.py:122-128 | conjugate keeps the real part and negates the imaginary part; conjugating twice gives the value back |
| `ComplexLaws.ProductWithConjugate` | complex.py:143-154 | x * conj(x) and conj(x) * x are both Complex(c·c + d·d, 0): imaginary part 0 |
| `ComplexLaws.NormSqPositive` | complex.py:188 | c·c + d·d > 0 for every value other than Complex(0, 0) |
| `ComplexLaws.NormSqZeroIff` | complex.py:188-190 | the denominator is 0 if and only if the divisor is Complex(0, 0) |
| `ComplexLaws.CancelConjugate` | complex.py:134-141 | ((z * y) * conj(y)) / (c·c + d·d) == z: multiplying top and bottom by the conjugate does not change the value |
| `ComplexLaws.QuotientTimesDivisor` | complex.py:5-7 | (x / y) * y == x when the denominator is not 0 |
| `ComplexLaws.QuotientUnique` | complex.py:134-135 | if z * y == x then z == x / y: the quotient is the only value that y multiplies back to x |
| `ComplexLaws.ProductThenQuotient` | complex.py:182-191 | (x * y) / y == x when the denominator is not 0 |
| `ComplexLaws.QuotientDistributesOverSum` | complex.py:3-8 | (x + y) / z == x / z + y / z, by multiplying both sides by z |
| `ComplexLaws.DivThenMul` | complex.py:182-191 | whenever `x / other` succeeds, `(x / other) * other` succeeds and gives x |
| `ComplexLaws.DivByZero` | complex.py:188-190 | `x / other` raises ZeroDivisionError exactly when `other` coerces to Complex(0, 0) |
| `ComplexLaws.OneOverI` | complex.py:188-191 | Complex(1, 0) / Complex(0, 1) == Complex(0, −1) |

## Left out

- Floating point: rounding, overflow to infinity, NaN propagation, and an
  underflow of `c*c + d*d` to 0 for a tiny non-zero divisor; exact reals stand
  in for floats.
- ComplexNumbers.ValueOf: an int within the range of a double is converted
  exactly, without the rounding `float(value)` applies to ints beyond 2^53
  (complex.py:48); ints outside that range do raise OverflowError, as in Python.
- Python operator dispatch: there are no reflected `__radd__`/`__rmul__`
  methods, so `1 + Complex(...)` is not an operation of the class and is not
  modelled; `bool` counts as an `int` in the `isinstance` check and is not a
  separate operand kind here.
- Object identity: `valueOf` returns the very same `Complex` object it was given;
  the model returns an equal value.
- The full text of the TypeError message: the model keeps only the name of the
  offending type.
- test_complex.py: a single construction check; construction is the datatype
  constructor, which stores both parts as given.
