/** The straw draw (CRUSH_Research/include/rseudo_random_number.h): a fixed-point logarithm of
    a 16-bit hash, divided by a weight with C's truncating division. */
module PseudoRandom {
  import opened CrushHash
  import opened CrushLnTable

  /** `__u32` */
  type Word = w: int | 0 <= w < 0x1_0000_0000

  const TWO_48: int := 0x1_0000_0000_0000
  const S64_MIN: int := -0x8000_0000_0000_0000

  function Pow2(n: nat): (p: nat)
    ensures p >= 1
  {
    if n == 0 then 1 else 2 * Pow2(n - 1)
  }

  /** `__builtin_clz` on a non-zero 32-bit word. */
  function Clz(v: nat): (n: nat)
    requires 0 < v < 0x1_0000_0000
    ensures 0x8000_0000 <= v * Pow2(n) < 0x1_0000_0000
    decreases 0x1_0000_0000 - v
  {
    if v >= 0x8000_0000 then 0
    else
      var n := Clz(2 * v);
      assert v * Pow2(n + 1) == 2 * v * Pow2(n);
      n + 1
  }

  lemma MulMonotone(a: nat, b: nat, c: nat, d: nat)
    requires a <= c && b <= d
    ensures a * b <= c * d
  {
    assert a * b <= a * d;
    assert a * d <= c * d;
  }

  lemma {:induction false} Pow2Split(a: nat, b: nat)
    ensures Pow2(a + b) == Pow2(a) * Pow2(b)
  {
    if a > 0 {
      Pow2Split(a - 1, b);
      assert Pow2(a + b) == 2 * (Pow2(a - 1) * Pow2(b)) == Pow2(a) * Pow2(b);
    }
  }

  lemma {:induction false} Pow2Monotone(a: nat, b: nat)
    requires a <= b
    ensures Pow2(a) <= Pow2(b)
  {
    if a < b {
      Pow2Monotone(a, b - 1);
    }
  }

  lemma Pow2Values()
    ensures Pow2(16) == 0x1_0000 && Pow2(32) == 0x1_0000_0000
  {
    assert Pow2(4) == 16;
    Pow2Split(4, 4);
    Pow2Split(8, 8);
    Pow2Split(16, 16);
  }

  lemma ShortWordZeros(x: nat)
    requires 0 < x < 0x8000
    ensures 17 <= Clz(x) <= 31
  {
    var n := Clz(x);
    hide Clz, Pow2;
    Pow2Values();
    if n <= 16 {
      Pow2Monotone(n, 16);
      MulMonotone(x, Pow2(n), 0x7fff, 0x1_0000);
    }
    if n >= 32 {
      Pow2Monotone(32, n);
      MulMonotone(1, 0x1_0000_0000, x, Pow2(n));
    }
  }

  /** A 15-bit word has at least 17 leading zeros; shifting by 16 fewer fills 16 bits. */
  lemma NormalisingShift(x: nat)
    requires 0 < x < 0x8000
    ensures 17 <= Clz(x) <= 31
    ensures 0x8000 <= x * Pow2(Clz(x) - 16) < 0x1_0000
  {
    ShortWordZeros(x);
    var n := Clz(x);
    hide *;
    Pow2Values();
    Pow2Split(16, n - 16);
    Unscale(x, Pow2(n), Pow2(n - 16));
  }

  lemma Unscale(x: nat, q: nat, p: nat)
    requires q == 0x1_0000 * p
    ensures x * q == 0x1_0000 * (x * p)
  {
  }

  /** The input shifted into [2^15, 2^16], with the exponent that undoes the shift. */
  function Normalise(x: nat): (r: (nat, nat))
    requires 0 < x <= 0x1_0000
    ensures 0x8000 <= r.0 <= 0x1_0000
    ensures r.1 <= 15
    ensures r.0 == 0x1_0000 ==> x == 0x1_0000
    ensures x * Pow2(15 - r.1) == r.0
  {
    if x < 0x8000 then
      NormalisingShift(x);
      var bits := Clz(x) - 16;
      (x * Pow2(bits), 15 - bits)
    else
      (x, 15)
  }

  /** For a normalised x all lookups are in range, the product fits 64 bits, and its top word is
      2^15 + xf with xf < 2^8; the sum of both logarithm terms stays below 2^48. */
  lemma LookupsInRange(x: nat)
    requires 0x8000 <= x <= 0x1_0000
    ensures 0 <= x / 256 - 128 < 129
    ensures var p := x * Rh(x / 256 - 128);
            && 0x8000_0000_0000_0000 <= p < 0x1_0000_0000_0000_0000
            && 0x8000 <= p / TWO_48 < 0x8100
            && 0 <= Lh(x / 256 - 128) + Ll(p / TWO_48 % 256) < TWO_48
  {
    var k, rh := x / 256 - 128, Rh(x / 256 - 128);
    hide Rh, Lh, Ll;
    RhLow(k);
    RhHigh(k);
    LhBound(k);
    assert 0 < rh;
    MulMonotone((128 + k) * 256, rh, x, rh);
    MulMonotone(x, rh, (128 + k) * 256 + 255, rh);
    LlBound(x * rh / TWO_48 % 256);
    TopEntry();
  }

  lemma TopEntry()
    ensures Rh(128) == 0x8000_0000_0000
  {
  }

  /** `crush_ln`, for the 16-bit inputs its one caller passes. */
  function CrushLn(xin: nat): (result: nat)
    requires xin < 0x1_0000
    ensures result < TWO_48
  {
    var (x, iexpon) := Normalise(xin + 1);
    LookupsInRange(x);
    var k := x / 256 - 128;
    var xl64 := x * Rh(k) / TWO_48;
    var lh := (Lh(k) + Ll(xl64 % 256)) / 16;
    iexpon * 0x1000_0000_0000 + lh
  }

  const ONE: int := 0x1000_0000_0000

  lemma ClzDoubled(y: nat)
    requires 0 < y < 0x8000
    ensures Clz(y) == Clz(2 * y) + 1
  {
    hide Pow2;
  }

  lemma FifteenBits(y: nat)
    requires 0x4000 <= y < 0x8000
    ensures Clz(y) == 17
  {
    NormalisingShift(y);
    var bits := Clz(y) - 16;
    PowNext(0);
    PowNext(1);
    hide Clz, Pow2;
    if bits >= 2 {
      Pow2Monotone(2, bits);
      MulMonotone(0x4000, 4, y, Pow2(bits));
    }
  }

  lemma NormaliseDoubled(y: nat)
    requires 0 < y < 0x8000
    ensures Normalise(2 * y) == (Normalise(y).0, Normalise(y).1 + 1)
  {
    ClzDoubled(y);
    hide Clz, Pow2;
    if y < 0x4000 {
      NormalisingShift(2 * y);
      PowNext(Clz(2 * y) - 16);
      Regroup(y, Pow2(Clz(2 * y) - 16));
    } else {
      FifteenBits(y);
      PowNext(0);
    }
  }

  lemma Regroup(y: nat, p: nat)
    ensures y * (2 * p) == (2 * y) * p
  {
  }

  /** The fixed-point form of log(2y) = 1 + log(y): `crush_ln` takes y - 1 and returns log2(y) with
      44 fractional bits. */
  lemma DoublingAddsOne(y: nat)
    requires 0 < y < 0x8000
    ensures CrushLn(2 * y - 1) == CrushLn(y - 1) + ONE
  {
    hide Normalise, Rh, Lh, Ll;
    NormaliseDoubled(y);
    LookupsInRange(Normalise(y).0);
  }

  /** At powers of two the logarithm is exact. */
  lemma {:induction false} LogOfPower(n: nat)
    requires n <= 15
    ensures Pow2(n) <= 0x8000 && CrushLn(Pow2(n) - 1) == n * ONE
  {
    hide CrushLn, Pow2;
    if n == 0 {
      LogOfOne();
    } else {
      var half := Pow2(n - 1);
      PowNext(n - 1);
      LogOfPower(n - 1);
      Pow2Monotone(n - 1, 14);
      PowFourteen();
      DoublingAddsOne(half);
    }
  }

  /** The doubling law fails at one input only, the last. */
  lemma DoublingExactly(y: nat)
    requires 0 < y <= 0x8000
    ensures CrushLn(2 * y - 1) == CrushLn(y - 1) + ONE <==> y != 0x8000
  {
    if y < 0x8000 {
      DoublingAddsOne(y);
    } else {
      hide CrushLn, Pow2;
      LogOfPower(15);
      PowFourteen();
      PowNext(14);
    }
  }

  lemma PowFourteen()
    ensures Pow2(14) == 0x4000
  {
    assert Pow2(7) == 128;
    Pow2Split(7, 7);
  }

  lemma ClzOfOne()
    ensures Clz(1) == 31
  {
    hide Clz, Pow2;
    NormalisingShift(1);
    PowFourteen();
    if Clz(1) - 16 < 15 {
      Pow2Monotone(Clz(1) - 16, 14);
    }
  }

  lemma NormaliseOne()
    ensures Normalise(1) == (0x8000, 0)
  {
    hide Clz, Pow2;
    ClzOfOne();
    PowFourteen();
    PowNext(14);
  }

  lemma PowNext(n: nat)
    ensures Pow2(0) == 1 && Pow2(n + 1) == 2 * Pow2(n)
  {
  }

  lemma LogOfOne()
    ensures Pow2(0) == 1 && CrushLn(0) == 0
  {
    PowNext(0);
    NormaliseOne();
    hide Normalise, Pow2;
  }

  lemma TableEnds()
    ensures Rh(127) == 0x8080_8080_8081 && Lh(127) == 0xfe8d_f263_f957
    ensures Rh(128) == 0x8000_0000_0000 && Lh(128) == 0xffff_0000_0000
    ensures Ll(0) == 0 && Ll(128) == 0x171_e3b6_d7aa
  {
  }

  /** The tables make the logarithm dip at the very end of its range; `LogOrder` shows that it dips
      nowhere else. */
  lemma NotMonotone()
    ensures CrushLn(0xfffe) == 0xffff_fd61_ad10 && CrushLn(0xffff) == 0xffff_f000_0000
  {
    hide Rh, Lh, Ll, Clz, Pow2;
    TableEnds();
    LookupsInRange(0xffff);
    LookupsInRange(0x1_0000);
    assert 0xffff * 0x8080_8080_8081 / TWO_48 == 0x8080;
  }

  /** The conversion of a `__u32` weight to the `int` parameter of the draw. */
  function Signed(w: Word): (s: int)
    ensures w != 0 ==> s != 0
    ensures -0x8000_0000 <= s < 0x8000_0000 && (w - s) % 0x1_0000_0000 == 0
  {
    if w < 0x8000_0000 then w else w - 0x1_0000_0000
  }

  /** The product of the quotient and the divisor lies between 0 and the dividend, and less than one
      divisor away from it. */
  predicate Truncates(a: int, b: int, q: int) {
    if a < 0 then a <= q * b <= 0 && q * b - a < Magnitude(b) else 0 <= q * b <= a && a - q * b < Magnitude(b)
  }

  function Magnitude(b: int): nat {
    if b < 0 then -b else b
  }

  /** C division: the quotient is truncated toward zero. */
  function TruncDiv(a: int, b: int): (q: int)
    requires b != 0
    ensures Truncates(a, b, q)
  {
    Quotient(Magnitude(a), Magnitude(b));
    Negate(Magnitude(a) / Magnitude(b), Magnitude(b));
    var m := (if a < 0 then -a else a) / (if b < 0 then -b else b);
    if (a < 0) == (b < 0) then m else -m
  }

  lemma DivAntitone(n: nat, d: int, e: int)
    requires 1 <= d <= e
    ensures 0 <= n / e <= n / d <= n
  {
    Quotient(n, d);
    Quotient(n, e);
    if n / d < n / e {
      MulMonotone(n / d + 1, d, n / e, e);
    }
    MulMonotone(n / d, 1, n / d, d);
  }

  lemma Negate(q: int, b: int)
    ensures (-q) * b == -(q * b) && q * (-b) == -(q * b) && (-q) * (-b) == q * b
  {
  }

  lemma Quotient(n: nat, d: int)
    requires 1 <= d
    ensures 0 <= n / d && (n / d) * d <= n < (n / d + 1) * d
  {
  }

  /** `generate_exponential_distribution` as a function of the masked hash. */
  function Scaled(u: nat, w: Word): (draw: int)
    requires u < 0x1_0000 && w != 0
    ensures -TWO_48 <= draw <= TWO_48
    ensures w < 0x8000_0000 ==> draw <= 0
    ensures w >= 0x8000_0000 ==> draw >= 0
    ensures Truncates(CrushLn(u) - TWO_48, Signed(w), draw)
  {
    hide CrushLn, Truncates;
    var ln := CrushLn(u) - TWO_48;
    var s := Signed(w);
    DivAntitone(-ln, 1, if s < 0 then -s else s);
    TruncDiv(ln, s)
  }

  /** Truncating division of a negative logarithm is monotone in the weight, over the whole
      unsigned range: beyond 2^31 the divisor turns negative and the draw becomes positive. */
  lemma ScaledMonotone(u: nat, w: Word, v: Word)
    requires u < 0x1_0000
    requires 0 < w <= v
    ensures Scaled(u, w) <= Scaled(u, v)
  {
    hide CrushLn;
    var n := TWO_48 - CrushLn(u);
    if v < 0x8000_0000 {
      DivAntitone(n, w, v);
    } else if w >= 0x8000_0000 {
      DivAntitone(n, -Signed(v), -Signed(w));
    }
  }

  /** Two draws from one hash differ as the quotients of the logarithm by the weights do, so a larger
      weight draws a strictly longer straw once the quotients part. */
  lemma ScaledStrictly(u: nat, w: Word, v: Word)
    requires u < 0x1_0000 && 0 < w <= v < 0x8000_0000
    ensures var n := TWO_48 - CrushLn(u);
            && Scaled(u, v) - Scaled(u, w) == n / w - n / v
            && (n * (v - w) >= w * v ==> Scaled(u, w) < Scaled(u, v))
  {
    hide CrushLn, Truncates;
    var n := TWO_48 - CrushLn(u);
    if n * (v - w) >= w * v {
      QuotientsPart(n, w, v);
    }
  }

  lemma QuotientsPart(n: nat, w: int, v: int)
    requires 0 < w <= v && n * (v - w) >= w * v
    ensures n / w > n / v
  {
    var b := n / v;
    Quotient(n, v);
    MulMonotone(b * v, w, n, w);
    assert n * (v - w) == n * v - n * w;
    assert (b + 1) * w * v == b * v * w + w * v;
    CancelFactor(n, (b + 1) * w, v);
    QuotientAtLeast(n, w, b + 1);
  }

  lemma CancelFactor(a: int, b: int, v: int)
    requires v > 0 && a * v >= b * v
    ensures a >= b && (a * v > b * v ==> a > b)
  {
  }

  lemma QuotientAtLeast(n: nat, d: int, q: int)
    requires d >= 1 && n >= q * d
    ensures n / d >= q
  {
    Quotient(n, d);
    CancelFactor(n / d + 1, q, d);
  }

  /** One straw of `bucket_straw2_choose`: a zero weight draws S64_MIN. */
  function Draw(hash: int, x: int, id: int, r: int, w: Word): (draw: int)
    ensures w == 0 <==> draw == S64_MIN
    ensures w != 0 ==> -TWO_48 <= draw <= TWO_48
    ensures 0 < w < 0x8000_0000 ==> draw <= 0
  {
    if w == 0 then S64_MIN else Scaled(Hash32_3(hash, x, id, r) % 0x1_0000, w)
  }

  /** The draw of a rjenkins bucket, from the hash of input, id and replica factor: the logarithm of
      its low 16 bits, less 2^48, divided by the weight with truncation. */
  lemma DrawIsQuotient(x: int, id: int, r: int, w: Word)
    requires w != 0
    ensures var u := Rjenkins([U32(x), U32(id), U32(r)]) as nat % 0x1_0000;
            Truncates(CrushLn(u) - TWO_48, Signed(w), Draw(RJENKINS1, x, id, r, w))
  {
    hide CrushLn, Truncates, Rjenkins;
  }

  lemma DrawMonotone(hash: int, x: int, id: int, r: int, w: Word, v: Word)
    requires w <= v
    ensures Draw(hash, x, id, r, w) <= Draw(hash, x, id, r, v)
  {
    hide Scaled, Hash32_3;
    if w != 0 {
      ScaledMonotone(Hash32_3(hash, x, id, r) % 0x1_0000, w, v);
    }
  }
}
