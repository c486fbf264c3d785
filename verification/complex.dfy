/**
  The `Complex` value type of complex.py: a number `re + im·i` held as two
  parts, the coercion `valueOf` that every binary operator applies to its
  right operand, and the five operations add, subtract, multiply, conjugate
  and divide. Python floats are modelled by exact reals, so the model states
  the algebra the docstrings derive, not floating-point rounding.
*/
module ComplexNumbers {

  /** `Complex(real, imag)`: `__init__` stores both parts as given. */
  datatype Complex = Complex(re: real, im: real)

  const Zero := Complex(0.0, 0.0)
  const One := Complex(1.0, 0.0)
  /** The imaginary unit. */
  const I := Complex(0.0, 1.0)

  /** A Python object handed to `valueOf` (or to a binary operator), by kind. */
  datatype PyValue =
    | Int(i: int)                        // an `int`
    | Float(f: real)                     // a `float`
    | BuiltinComplex(re: real, im: real) // Python's own `complex`
    | Instance(c: Complex)               // an existing `Complex`
    | Other(typeName: string)            // anything else, with the name of its type

  /** The exceptions the operations raise. */
  datatype Error =
    | TypeError(typeName: string)        // `valueOf` cannot convert a value of this type
    | OverflowError                      // `float(value)` of an int too large for a double
    | ZeroDivisionError                  // the divisor's c*c + d*d is zero

  /**
    2^1024 - 2^970: the smallest int magnitude that `float()` rounds (to nearest,
    ties to even) up to 2^1024, beyond the largest double 2^1024 - 2^971, and
    so rejects with OverflowError.
  */
  const FloatOverflowBound: int :=
    0xfffffffffffffc00_0000000000000000_0000000000000000_0000000000000000_0000000000000000_0000000000000000_0000000000000000_0000000000000000_0000000000000000_0000000000000000_0000000000000000_0000000000000000_0000000000000000_0000000000000000_0000000000000000_0000000000000000

  /** An int that `float()` converts without OverflowError. */
  predicate InFloatRange(n: int) {
    -FloatOverflowBound < n < FloatOverflowBound
  }

  datatype Result<T> = Success(value: T) | Failure(error: Error)

  /** A value whose imaginary part is zero stands for a real number. */
  predicate IsReal(z: Complex) {
    z.im == 0.0
  }

  /**
    `valueOf`: converts an int, float, builtin complex or Complex, and rejects the
    rest; `float(value)` rejects an int outside the range of a double.
  */
  function ValueOf(v: PyValue): (r: Result<Complex>)
    ensures r.Failure? <==> v.Other? || (v.Int? && !InFloatRange(v.i))
    ensures v.Other? ==> r.error == TypeError(v.typeName)
    ensures v.Int? && !InFloatRange(v.i) ==> r.error == OverflowError
    ensures v.Int? && InFloatRange(v.i) ==> r.Success? && IsReal(r.value) && r.value.re == v.i as real
    ensures v.Float? ==> r.Success? && IsReal(r.value) && r.value.re == v.f
    ensures v.BuiltinComplex? ==> r.Success? && r.value.re == v.re && r.value.im == v.im
    ensures v.Instance? ==> r == Success(v.c)
  {
    match v
    case Int(n) =>
      if InFloatRange(n) then Success(Complex(n as real, 0.0)) else Failure(OverflowError)
    case Float(x) => Success(Complex(x, 0.0))
    case BuiltinComplex(re, im) => Success(Complex(re, im))
    case Instance(c) => Success(c)
    case Other(name) => Failure(TypeError(name))
  }

  // The arithmetic on two already-coerced values: a + b·i is `x`, c + d·i is `y`.

  function Sum(x: Complex, y: Complex): Complex {
    Complex(x.re + y.re, x.im + y.im)
  }

  function Difference(x: Complex, y: Complex): Complex {
    Complex(x.re - y.re, x.im - y.im)
  }

  function Product(x: Complex, y: Complex): Complex {
    Complex(x.re * y.re - x.im * y.im, x.re * y.im + x.im * y.re)
  }

  /**
    `conjugate`: the same real part, the imaginary part negated. A value times its
    conjugate is the real number c*c + d*d, and conjugation keeps that norm.
  */
  function Conjugate(x: Complex): (r: Complex)
    ensures Product(x, r) == Complex(NormSq(x), 0.0)
    ensures NormSq(r) == NormSq(x)
  {
    Complex(x.re, -x.im)
  }

  /** c*c + d*d, the denominator `__truediv__` divides by. */
  function NormSq(x: Complex): (n: real)
    ensures n >= 0.0
  {
    x.re * x.re + x.im * x.im
  }

  /** Multiplication by a real number k. */
  function Scale(x: Complex, k: real): Complex {
    Complex(x.re * k, x.im * k)
  }

  /**
    The quotient x / y as `__truediv__` computes it: (a*c + b*d)/(c*c + d*d) and
    (b*c - a*d)/(c*c + d*d). It is x times the conjugate of y, divided by the real
    number y * conj(y).
  */
  function Quotient(x: Complex, y: Complex): (r: Complex)
    requires NormSq(y) != 0.0
    ensures r == Scale(Product(x, Conjugate(y)), 1.0 / NormSq(y))
  {
    var a, b, c, d := x.re, x.im, y.re, y.im;
    var denominator := c * c + d * d;
    Complex((a * c + b * d) / denominator, (b * c - a * d) / denominator)
  }

  /** `__add__`: coerce the right operand, then add part by part. */
  function Add(self: Complex, other: PyValue): (r: Result<Complex>)
    ensures r.Failure? <==> ValueOf(other).Failure?
    ensures r.Failure? ==> r.error == ValueOf(other).error
    ensures r.Success? ==> r.value == Sum(self, ValueOf(other).value)
  {
    match ValueOf(other)
    case Failure(e) => Failure(e)
    case Success(o) => Success(Sum(self, o))
  }

  /** `__sub__`: coerce the right operand, then subtract it part by part from `self`. */
  function Sub(self: Complex, other: PyValue): (r: Result<Complex>)
    ensures r.Failure? <==> ValueOf(other).Failure?
    ensures r.Failure? ==> r.error == ValueOf(other).error
    ensures r.Success? ==> r.value == Difference(self, ValueOf(other).value)
  {
    match ValueOf(other)
    case Failure(e) => Failure(e)
    case Success(o) => Success(Difference(self, o))
  }

  /** `__mul__`: coerce the right operand, then multiply. */
  function Mul(self: Complex, other: PyValue): (r: Result<Complex>)
    ensures r.Failure? <==> ValueOf(other).Failure?
    ensures r.Failure? ==> r.error == ValueOf(other).error
    ensures r.Success? ==> r.value == Product(self, ValueOf(other).value)
  {
    match ValueOf(other)
    case Failure(e) => Failure(e)
    case Success(o) => Success(Product(self, o))
  }

  /**
    `__truediv__`: coerce the right operand, then divide. Python raises
    ZeroDivisionError when the float denominator c*c + d*d is zero.
  */
  function Div(self: Complex, other: PyValue): (r: Result<Complex>)
    ensures ValueOf(other).Failure? ==> r == Failure(ValueOf(other).error)
    ensures ValueOf(other).Success? && NormSq(ValueOf(other).value) == 0.0 ==>
              r == Failure(ZeroDivisionError)
    ensures ValueOf(other).Success? && NormSq(ValueOf(other).value) != 0.0 ==>
              r == Success(Quotient(self, ValueOf(other).value))
    ensures r.Success? <==> ValueOf(other).Success? && NormSq(ValueOf(other).value) != 0.0
  {
    match ValueOf(other)
    case Failure(e) => Failure(e)
    case Success(o) =>
      if NormSq(o) == 0.0 then Failure(ZeroDivisionError) else Success(Quotient(self, o))
  }
}
