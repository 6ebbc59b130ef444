/** Logarithm and power, known only through the laws the capacity model relies on. */
module PowerLaw {

  datatype MathLib = MathLib(log: real -> real, pow: (real, real) -> real) {

    ghost predicate Lawful() {
      && (forall x, y {:trigger log(x), log(y)} :: 0.0 < x < y ==> log(x) < log(y))
      && (forall x, y, z {:trigger log(x), log(y), log(z)} ::
            0.0 < x && 0.0 < y && z == x * y ==> log(z) == log(x) + log(y))
      && (forall b, a {:trigger pow(b, a)} :: 0.0 < b ==> pow(b, a) > 0.0)
      && (forall b, a {:trigger log(pow(b, a))} :: 0.0 < b ==> log(pow(b, a)) == a * log(b))
    }

    lemma LogProduct(x: real, y: real, z: real)
      requires Lawful() && 0.0 < x && 0.0 < y && z == x * y
      ensures 0.0 < z && log(z) == log(x) + log(y)
    {
    }

    lemma LogInjective(x: real, y: real)
      requires Lawful() && 0.0 < x && 0.0 < y
      ensures log(x) == log(y) <==> x == y
    {
    }

    lemma LogMonotone(x: real, y: real)
      requires Lawful() && 0.0 < x && 0.0 < y
      ensures x <= y <==> log(x) <= log(y)
    {
    }

    lemma LogOfPower(b: real, a: real)
      requires Lawful() && 0.0 < b
      ensures pow(b, a) > 0.0 && log(pow(b, a)) == a * log(b)
    {
    }

    /** Every power of one is one. */
    lemma PowOne(a: real)
      requires Lawful()
      ensures pow(1.0, a) == 1.0
    {
      LogProduct(1.0, 1.0, 1.0);
      LogOfPower(1.0, a);
      LogInjective(pow(1.0, a), 1.0);
    }

    /** The first power of a number is the number. */
    lemma PowIdentity(x: real)
      requires Lawful() && x > 0.0
      ensures pow(x, 1.0) == x
    {
      LogOfPower(x, 1.0);
      LogInjective(pow(x, 1.0), x);
    }

    /** A power of a product is the product of the powers. */
    lemma PowProduct(x: real, y: real, z: real, a: real)
      requires Lawful() && 0.0 < x && 0.0 < y && z == x * y
      ensures pow(z, a) == pow(x, a) * pow(y, a)
    {
      hide Lawful;
      LogProduct(x, y, z);
      LogOfPower(x, a);
      LogOfPower(y, a);
      LogOfPower(z, a);
      var p := pow(x, a) * pow(y, a);
      LogProduct(pow(x, a), pow(y, a), p);
      assert a * log(z) == a * log(x) + a * log(y);
      LogInjective(pow(z, a), p);
    }

    /** Powers with a nonnegative exponent do not decrease in the base. */
    lemma PowMonotone(x: real, y: real, a: real)
      requires Lawful() && 0.0 < x <= y && 0.0 <= a
      ensures pow(x, a) <= pow(y, a)
    {
      hide Lawful;
      LogOfPower(x, a);
      LogOfPower(y, a);
      LogMonotone(x, y);
      assert a * log(x) <= a * log(y);
      LogMonotone(pow(x, a), pow(y, a));
    }
  }
}
