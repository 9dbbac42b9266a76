/** Where `crush_ln` is monotone: everywhere except between its last two inputs. */
module LogOrder {
  import opened CrushLnTable
  import opened PseudoRandom

  /** The `Ll` entry that a normalised word is combined with. */
  function Index(x: nat): (i: nat)
    requires 0x8000 <= x <= 0x1_0000
    ensures i < 256
  {
    x * Rh(x / 256 - 128) / TWO_48 % 256
  }

  /** Sixteen times the logarithm of a normalised word, without its exponent. */
  function Fraction(x: nat): (f: nat)
    requires 0x8000 <= x <= 0x1_0000
    ensures f < TWO_48
  {
    hide Rh, Lh, Ll;
    LookupsInRange(x);
    Lh(x / 256 - 128) + Ll(Index(x))
  }

  lemma LogIsFraction(xin: nat)
    requires xin < 0x1_0000
    ensures var (x, e) := Normalise(xin + 1); CrushLn(xin) == e * ONE + Fraction(x) / 16
  {
    hide Normalise, Rh, Lh, Ll;
  }

  lemma FloorOfMod(p: int, i: int)
    requires 0x8000 * TWO_48 <= p < 0x8100 * TWO_48
    ensures p / TWO_48 % 256 == p / TWO_48 - 0x8000
    ensures p < (0x8000 + i + 1) * TWO_48 ==> p / TWO_48 - 0x8000 <= i
  {
  }

  /** The index is the offset of the product's top word, and a bound of the product bounds it. */
  lemma IndexIsOffset(x: nat, i: int)
    requires 0x8000 <= x <= 0x1_0000
    ensures var p := x * Rh(x / 256 - 128);
            && Index(x) == p / TWO_48 - 0x8000
            && (p < (0x8000 + i + 1) * TWO_48 ==> Index(x) <= i)
  {
    hide Rh;
    LookupsInRange(x);
    FloorOfMod(x * Rh(x / 256 - 128), i);
  }

  lemma FloorRises(a: nat, b: nat)
    requires a <= b
    ensures a / TWO_48 <= b / TWO_48
  {
  }

  /** Words that share a table entry are in order. */
  lemma SameBand(x: nat)
    requires 0x8000 <= x < 0xffff && (x + 1) / 256 == x / 256
    ensures Fraction(x) <= Fraction(x + 1)
  {
    hide Rh, Lh, Ll, Index;
    var rh := Rh(x / 256 - 128);
    IndexIsOffset(x, 0);
    IndexIsOffset(x + 1, 0);
    RhLow(x / 256 - 128);
    assert 0 < rh;
    MulMonotone(x, rh, x + 1, rh);
    FloorRises(x * rh, (x + 1) * rh);
    LlRises(Index(x), Index(x + 1));
  }

  /** The last word of a table entry lies below the first word of the next. */
  lemma NextBand(x: nat)
    requires 0x8000 <= x < 0xffff && (x + 1) / 256 != x / 256
    ensures Fraction(x) <= Fraction(x + 1)
  {
    hide Rh, Lh, Ll, Index, LastIndex;
    var k := x / 256 - 128;
    assert x == (128 + k) * 256 + 255 && (x + 1) / 256 - 128 == k + 1;
    IndexIsOffset(x, LastIndex(k));
    LastShared(k);
    LlRises(Index(x), LastIndex(k));
    BandsRise(k);
    LlBound(Index(x + 1));
  }

  lemma {:induction false} FractionRises(x: nat, y: nat)
    requires 0x8000 <= x <= y < 0x1_0000
    ensures Fraction(x) <= Fraction(y)
  {
    hide Fraction;
    if x < y {
      FractionRises(x, y - 1);
      if y / 256 == (y - 1) / 256 {
        SameBand(y - 1);
      } else {
        NextBand(y - 1);
      }
    }
  }

  lemma LastBand()
    ensures 0xfffe * Rh(127) < (0x8000 + 127 + 1) * TWO_48
    ensures Lh(127) + Ll(127) <= Lh(128)
  {
  }

  /** The two ends of the last band against the word 2^16. */
  lemma FractionAtEnd(x: nat)
    requires 0x8000 <= x < 0xffff
    ensures Fraction(x) <= Fraction(0x1_0000)
  {
    hide Rh, Lh, Ll, Index;
    FractionRises(x, 0xfffe);
    IndexIsOffset(0xfffe, 127);
    LastBand();
    LlRises(Index(0xfffe), 127);
    LlBound(Index(0x1_0000));
  }

  /** A larger word is normalised to a larger exponent, or to the same one and a larger word. */
  lemma NormaliseRises(x: nat, y: nat)
    requires 0 < x < y <= 0x1_0000
    ensures Normalise(x).1 <= Normalise(y).1
    ensures Normalise(x).1 == Normalise(y).1 ==> Normalise(x).0 < Normalise(y).0
  {
    var (a, d) := Normalise(x);
    var (b, e) := Normalise(y);
    hide Normalise;
    Pow2Monotone(0, 15 - d);
    if d > e {
      Pow2Monotone(15 - d + 1, 15 - e);
      PowNext(15 - d);
      TwiceAsLarge(x, Pow2(15 - d), y, Pow2(15 - e));
      FullWord(y);
    } else if d == e {
      StrictlyScaled(x, y, Pow2(15 - d));
    }
  }

  lemma FullWord(y: nat)
    requires 0 < y <= 0x1_0000
    ensures Normalise(y).0 == 0x1_0000 ==> Normalise(y).1 == 15
  {
    hide Clz, Pow2;
  }

  lemma TwiceAsLarge(x: nat, p: nat, y: nat, q: nat)
    requires 0 < x < y && 1 <= p && 2 * p <= q
    ensures 2 * (x * p) < y * q
  {
    MulMonotone(y, 2 * p, y, q);
    MulMonotone(x + 1, p, y, p);
    assert y * (2 * p) == 2 * (y * p);
    assert (x + 1) * p == x * p + p;
  }

  lemma StrictlyScaled(x: nat, y: nat, p: nat)
    requires x < y && 1 <= p
    ensures x * p < y * p
  {
    MulMonotone(x + 1, p, y, p);
    assert (x + 1) * p == x * p + p;
  }

  lemma ExponentsDecide(d: int, f: nat, e: int, g: nat)
    requires d < e && f < TWO_48
    ensures d * ONE + f / 16 < e * ONE + g / 16
  {
  }

  /** `crush_ln` is monotone, with exactly one exception: its last two inputs are in the wrong
      order. */
  lemma MonotoneExactly(a: nat, b: nat)
    requires a <= b < 0x1_0000
    ensures CrushLn(a) <= CrushLn(b) <==> !(a == 0xfffe && b == 0xffff)
  {
    if a == 0xfffe && b == 0xffff {
      NotMonotone();
    } else if a < b {
      hide CrushLn, Normalise, Fraction, Pow2, Clz;
      LogIsFraction(a);
      LogIsFraction(b);
      NormaliseRises(a + 1, b + 1);
      var (x, d) := Normalise(a + 1);
      var (y, e) := Normalise(b + 1);
      if d < e {
        ExponentsDecide(d, Fraction(x), e, Fraction(y));
      } else if y < 0x1_0000 {
        FractionRises(x, y);
      } else {
        TopWord(a + 1);
        FullWord(b + 1);
        FractionAtEnd(x);
      }
    }
  }

  lemma TopWord(x: nat)
    requires 0 < x < 0x1_0000
    ensures Normalise(x).1 == 15 ==> Normalise(x).0 == x
  {
    NormaliseExponent(x);
  }

  lemma NormaliseExponent(x: nat)
    requires 0 < x <= 0x1_0000
    ensures x * Pow2(15 - Normalise(x).1) == Normalise(x).0
    ensures Pow2(0) == 1
  {
    hide Normalise;
  }
}
