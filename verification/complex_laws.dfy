/**
  What the docstrings of complex.py promise about the operations, proved
  about the model: the coercion every binary operator shares, the identities
  of addition and multiplication, i*i = -1, the conjugate product, and that
  division is multiplication undone.

  Most of these are ring identities the verifier settles by normalising
  polynomials. Two need explicit steps: the sign of c*c + d*d needs a case
  split (NormSqPositive), and (x / y) * y == x is argued part by part after
  clearing the denominator (QuotientTimesDivisor).
*/
module ComplexLaws {
  import opened ComplexNumbers

  // ---------------------------------------------------------------------
  // Coercion shared by the binary operators
  // ---------------------------------------------------------------------

  /**
    add, sub, mul and div fail on exactly the operands `valueOf` rejects, with its
    exception: TypeError for a non-numeric operand, OverflowError for an int
    outside the range of a double.
  */
  lemma OperatorsRejectExactlyUncoercible(x: Complex, v: PyValue)
    ensures Add(x, v).Failure? <==> v.Other? || (v.Int? && !InFloatRange(v.i))
    ensures Sub(x, v).Failure? <==> v.Other? || (v.Int? && !InFloatRange(v.i))
    ensures Mul(x, v).Failure? <==> v.Other? || (v.Int? && !InFloatRange(v.i))
    ensures Div(x, v).Failure? && Div(x, v).error != ZeroDivisionError
            <==> v.Other? || (v.Int? && !InFloatRange(v.i))
    ensures v.Other? ==>
              Add(x, v) == Sub(x, v) == Mul(x, v) == Div(x, v) == Failure(TypeError(v.typeName))
    ensures v.Int? && !InFloatRange(v.i) ==>
              Add(x, v) == Sub(x, v) == Mul(x, v) == Div(x, v) == Failure(OverflowError)
  {
  }

  /**
    An int in the range of a double and the float of the same value are the same
    operand, and coercion is idempotent.
  */
  lemma ValueOfAgreesOnScalars(n: int, v: PyValue)
    ensures InFloatRange(n) ==>
              ValueOf(Int(n)) == ValueOf(Float(n as real)) == ValueOf(BuiltinComplex(n as real, 0.0))
    ensures ValueOf(v).Success? ==> ValueOf(Instance(ValueOf(v).value)) == ValueOf(v)
  {
  }

  // ---------------------------------------------------------------------
  // Addition and subtraction
  // ---------------------------------------------------------------------

  /** Adding 0 (as a Complex or as a plain int) changes nothing. */
  lemma AddZeroIsIdentity(x: Complex)
    ensures Add(x, Instance(Zero)) == Success(x)
    ensures Add(x, Int(0)) == Success(x)
  {
  }

  /** Subtraction undoes addition and addition undoes subtraction. */
  lemma SumDifferenceInverse(x: Complex, y: Complex)
    ensures Difference(Sum(x, y), y) == x
    ensures Sum(Difference(x, y), y) == x
  {
  }

  /** A value minus itself is 0; the left operand is the minuend. */
  lemma SubSelfIsZero(x: Complex, y: Complex)
    ensures Sub(x, Instance(x)) == Success(Zero)
    ensures Difference(y, x) == Difference(Zero, Difference(x, y))
  {
  }

  /** Addition of two real numbers stays real: (x + 0i) + (y + 0i) = (x + y) + 0i. */
  lemma SumOfReals(a: real, b: real)
    ensures Add(Complex(a, 0.0), Float(b)) == Success(Complex(a + b, 0.0))
  {
  }

  // ---------------------------------------------------------------------
  // Multiplication
  // ---------------------------------------------------------------------

  /** i * i = -1. */
  lemma ISquaredIsMinusOne()
    ensures Mul(I, Instance(I)) == Success(Complex(-1.0, 0.0))
  {
  }

  /** Multiplying by 1 (as a Complex or as a plain int) changes nothing. */
  lemma MulOneIsIdentity(x: Complex)
    ensures Mul(x, Instance(One)) == Success(x)
    ensures Mul(x, Int(1)) == Success(x)
  {
  }

  /** A law of the product formula itself (not a docstring promise): the order of the factors does not matter. */
  lemma ProductCommutes(x: Complex, y: Complex)
    ensures Product(x, y) == Product(y, x)
  {
  }

  /** A law of the product formula itself (not a docstring promise): grouping does not matter. */
  lemma ProductAssociates(x: Complex, y: Complex, z: Complex)
    ensures Product(Product(x, y), z) == Product(x, Product(y, z))
  {
  }

  /** The distributive law the docstring of `__mul__` starts from. */
  lemma ProductDistributesOverSum(x: Complex, y: Complex, z: Complex)
    ensures Product(Sum(x, y), z) == Sum(Product(x, z), Product(y, z))
  {
  }

  // ---------------------------------------------------------------------
  // Conjugate
  // ---------------------------------------------------------------------

  /** Conjugating twice gives back the original value. */
  lemma ConjugateInvolution(x: Complex)
    ensures Conjugate(Conjugate(x)) == x
    ensures Conjugate(x).re == x.re && Conjugate(x).im == -x.im
  {
  }

  /**
    (c + d*i) * (c - d*i) = (c*c + d*d) + 0*i: a value times its conjugate is the
    real number NormSq.
  */
  lemma ProductWithConjugate(x: Complex)
    ensures Product(x, Conjugate(x)) == Complex(NormSq(x), 0.0)
    ensures Product(Conjugate(x), x) == Complex(NormSq(x), 0.0)
  {
  }

  /** c*c + d*d is positive for every value but Complex(0, 0). */
  lemma NormSqPositive(x: Complex)
    requires x != Zero
    ensures NormSq(x) > 0.0
  {
    if x.re != 0.0 {
      calc {
        NormSq(x);
      ==
        x.re * x.re + x.im * x.im;
      >=
        x.re * x.re;
      >
        0.0;
      }
    } else {
      calc {
        NormSq(x);
      ==
        x.re * x.re + x.im * x.im;
      >=
        x.im * x.im;
      >
        0.0;
      }
    }
  }

  /** The denominator of `__truediv__` is zero exactly for the divisor Complex(0, 0). */
  lemma NormSqZeroIff(x: Complex)
    ensures NormSq(x) == 0.0 <==> x == Zero
  {
    if x != Zero {
      NormSqPositive(x);
    }
  }

  // ---------------------------------------------------------------------
  // Division
  // ---------------------------------------------------------------------

  /**
    z * (y * conj(y)) / (c*c + d*d) = z: the step of the docstring of
    `__truediv__` that multiplies top and bottom by the conjugate.
  */
  lemma CancelConjugate(z: Complex, y: Complex)
    requires NormSq(y) != 0.0
    ensures Scale(Product(Product(z, y), Conjugate(y)), 1.0 / NormSq(y)) == z
  {
  }

  /** (x / y) * y == x whenever the denominator is not zero. */
  lemma QuotientTimesDivisor(x: Complex, y: Complex)
    requires NormSq(y) != 0.0
    ensures Product(Quotient(x, y), y) == x
  {
    var n := NormSq(y);
    var q := Quotient(x, y);
    var p := Product(q, y);
    assert q.re * n == x.re * y.re + x.im * y.im;
    assert q.im * n == x.im * y.re - x.re * y.im;
    calc {
      p.re * n;
    ==
      (q.re * n) * y.re - (q.im * n) * y.im;
    ==
      (x.re * y.re + x.im * y.im) * y.re - (x.im * y.re - x.re * y.im) * y.im;
    ==
      x.re * n;
    }
    calc {
      p.im * n;
    ==
      (q.re * n) * y.im + (q.im * n) * y.re;
    ==
      (x.re * y.re + x.im * y.im) * y.im + (x.im * y.re - x.re * y.im) * y.re;
    ==
      x.im * n;
    }
  }

  /** The quotient is the only value that gives x when multiplied by y. */
  lemma QuotientUnique(x: Complex, y: Complex, z: Complex)
    requires NormSq(y) != 0.0
    requires Product(z, y) == x
    ensures z == Quotient(x, y)
  {
  }

  /** (x * y) / y == x whenever the denominator is not zero. */
  lemma ProductThenQuotient(x: Complex, y: Complex)
    requires NormSq(y) != 0.0
    ensures Quotient(Product(x, y), y) == x
  {
  }

  /**
    (x + y) / z = x/z + y/z, the identity argued at the head of complex.py
    (multiply both sides by z, then (x/z)*z = x and (y/z)*z = y).
  */
  lemma QuotientDistributesOverSum(x: Complex, y: Complex, z: Complex)
    requires NormSq(z) != 0.0
    ensures Quotient(Sum(x, y), z) == Sum(Quotient(x, z), Quotient(y, z))
  {
  }

  /** `x / other` followed by `* other` gives x back. */
  lemma DivThenMul(x: Complex, v: PyValue)
    ensures Div(x, v).Success? ==> Mul(Div(x, v).value, v) == Success(x)
  {
    if Div(x, v).Success? {
      var y := ValueOf(v).value;
      var q := Div(x, v).value;
      assert q == Quotient(x, y);
      QuotientTimesDivisor(x, y);
      assert Mul(q, v) == Success(Product(q, y));
    }
  }

  /** Division fails with ZeroDivisionError exactly when `other` coerces to Complex(0, 0). */
  lemma DivByZero(x: Complex, v: PyValue)
    ensures Div(x, v) == Failure(ZeroDivisionError) <==> ValueOf(v) == Success(Zero)
  {
    if ValueOf(v).Success? {
      NormSqZeroIff(ValueOf(v).value);
    }
  }

  /** 1 / i = -i. */
  lemma OneOverI()
    ensures Div(One, Instance(I)) == Success(Complex(0.0, -1.0))
  {
    assert ValueOf(Instance(I)) == Success(I);
    calc {
      NormSq(I);
    ==
      0.0 * 0.0 + 1.0 * 1.0;
    ==
      1.0;
    }
    calc {
      Quotient(One, I);
    ==
      Complex((1.0 * 0.0 + 0.0 * 1.0) / 1.0, (0.0 * 0.0 - 1.0 * 1.0) / 1.0);
    ==
      Complex(0.0, -1.0);
    }
  }
}
