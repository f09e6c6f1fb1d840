/**
 From the first byte of the salted label's digest to a colour family.

 The script reads the first two hex digits of the MD5 digest of
 `salt + label` as a byte `h`, scales it to `h / 255.0 * 66` and rounds it
 with Python's `round`, which takes the nearest integer. Python 3 breaks ties
 towards the even integer and Python 2 away from zero; no byte gives a tie,
 so the two agree. Here the digest is a parameter and the rounding is done
 exactly in integers.
 */
module Families {

  /** The first byte of a digest: two hex digits. */
  type Byte = h: int | 0 <= h < 256

  /** A colour family: 67 buckets, numbered 0 to 66. */
  type Family = f: int | 0 <= f <= 66

  /** Python 3's `round` on an exact real: the nearest integer, and on a tie
      the even one of the two. */
  ghost predicate IsPythonRound(x: real, n: int) {
    || ((n as real) - 0.5 < x < (n as real) + 0.5)
    || ((x == (n as real) - 0.5 || x == (n as real) + 0.5) && n % 2 == 0)
  }

  /** The family of a digest byte: `round(h / 255 * 66)`, computed as the
      integer quotient `(44h + 85) / 170`. */
  function FamilyOf(h: Byte): (fam: Family)
    ensures 170 * fam - 85 < 44 * h < 170 * fam + 85
  {
    var q := (44 * h + 85) / 170;
    assert 170 * q <= 44 * h + 85 < 170 * q + 170;
    // 170q - 85 is odd and 44h is even, so the lower bound is strict.
    assert 170 * q - 85 == 2 * (85 * q - 43) + 1 && 44 * h == 2 * (22 * h);
    q
  }

  /** `FamilyOf` agrees with Python's rounding of the exact value
      `h / 255 * 66`, and no other integer does: the value is never a tie. */
  lemma FamilyIsRounding(h: Byte, n: int)
    ensures IsPythonRound((h as real) / 255.0 * 66.0, n) <==> n == FamilyOf(h)
  {
    var x := (h as real) / 255.0 * 66.0;
    var f: int := FamilyOf(h);
    assert x * 170.0 == (44 * h) as real;
    assert ((170 * f - 85) as real) < x * 170.0 < ((170 * f + 85) as real);
    assert (f as real) - 0.5 < x < (f as real) + 0.5;
    if n < f {
      assert (n as real) + 0.5 <= (f as real) - 0.5;
    } else if n > f {
      assert (f as real) + 0.5 <= (n as real) - 0.5;
    }
  }

  /** The scaled byte `h / 255 * 66` is never halfway between two integers,
      so every rounding rule that picks a nearest integer (ties to even in
      Python 3, ties away from zero in Python 2) gives the same family. */
  lemma NoTie(h: Byte, n: int)
    ensures (h as real) / 255.0 * 66.0 != (n as real) + 0.5
  {
    var x := (h as real) / 255.0 * 66.0;
    assert x * 170.0 == (44 * h) as real;
    assert ((n as real) + 0.5) * 170.0 == (170 * n + 85) as real;
    // 44h is even and 170n + 85 is odd.
    assert 44 * h == 2 * (22 * h) && 170 * n + 85 == 2 * (85 * n + 42) + 1;
    assert (44 * h) as real != (170 * n + 85) as real;
  }

  /** The extreme bytes give the extreme families. */
  lemma FamilyEnds()
    ensures FamilyOf(0) == 0
    ensures FamilyOf(255) == 66
  {
  }

  /** A larger byte never gives a smaller family. */
  lemma FamilyMonotone(h1: Byte, h2: Byte)
    requires h1 <= h2
    ensures FamilyOf(h1) <= FamilyOf(h2)
  {
    var f1: int, f2: int := FamilyOf(h1), FamilyOf(h2);
    assert 170 * f1 - 85 < 44 * h1 <= 44 * h2 < 170 * f2 + 85;
    assert 170 * (f1 - f2) < 170;
  }

  /** Every family is reached by some byte. */
  lemma FamilyOnto(f: Family)
    ensures exists h: Byte :: FamilyOf(h) == f
  {
    var h: Byte := (170 * f + 22) / 44;
    var g: int := FamilyOf(h);
    assert 170 * f - 22 < 44 * h <= 170 * f + 22;
    assert 170 * (g - f) < 107 && 170 * (f - g) < 107;
  }
}
