/** Robert Jenkins' 32-bit mixing chains (CRUSH_Research/crush_hash.c).

    A chain keeps its working words in a register file and applies `crush_hashmix` to
    three registers at a time.  Every mixing step can be undone, so no chain ever merges
    two different inputs before its final projection onto the `hash` register.
 */
module CrushHash {

  const HASH_SEED: bv32 := 1315423911
  const X_INIT: bv32 := 231232
  const Y_INIT: bv32 := 1232

  /** `CRUSH_HASH_RJENKINS1`, the only hash type that does not return 0. */
  const RJENKINS1: int := 0

  datatype Words = Words(a: bv32, b: bv32, c: bv32)

  function Subtract(p: bv32, q: bv32): bv32 { p - q }

  function Add(p: bv32, q: bv32): bv32 { p + q }

  function Toggle(p: bv32, m: bv32): bv32 { p ^ m }

  /** One line of the macro, `p = p-q; p = p-r; p = p^m`. */
  function Line(p: bv32, q: bv32, r: bv32, m: bv32): bv32 {
    Toggle(Subtract(Subtract(p, q), r), m)
  }

  function Unline(p: bv32, q: bv32, r: bv32, m: bv32): bv32 {
    Add(Add(Toggle(p, m), r), q)
  }

  function Shr(w: bv32, n: nat): bv32
    requires n < 32
  {
    w >> n
  }

  function Shl(w: bv32, n: nat): bv32
    requires n < 32
  {
    w << n
  }

  lemma ToggleTwice(p: bv32, m: bv32)
    ensures Toggle(Toggle(p, m), m) == p
  {
  }

  lemma SubtractAdd(p: bv32, q: bv32)
    ensures Add(Subtract(p, q), q) == p
    ensures Subtract(Add(p, q), q) == p
  {
    assert Add(p - q, q) == p;
    assert Subtract(p, q) == p - q;
    assert Subtract(p + q, q) == p;
    assert Add(p, q) == p + q;
  }

  lemma LineBijective(p: bv32, q: bv32, r: bv32, m: bv32)
    ensures Unline(Line(p, q, r, m), q, r, m) == p
    ensures Line(Unline(p, q, r, m), q, r, m) == p
  {
    hide Add, Subtract, Toggle;
    ToggleTwice(Subtract(Subtract(p, q), r), m);
    SubtractAdd(Subtract(p, q), r);
    SubtractAdd(p, q);
    ToggleTwice(p, m);
    SubtractAdd(Toggle(p, m), r);
    SubtractAdd(Add(Toggle(p, m), r), q);
  }

  /** One third of `crush_hashmix`: three lines with the given shifts. */
  function Round(w: Words, s1: nat, s2: nat, s3: nat): Words
    requires s1 < 32 && s2 < 32 && s3 < 32
  {
    var a := Line(w.a, w.b, w.c, Shr(w.c, s1));
    var b := Line(w.b, w.c, a, Shl(a, s2));
    var c := Line(w.c, a, b, Shr(b, s3));
    Words(a, b, c)
  }

  function Unround(w: Words, s1: nat, s2: nat, s3: nat): Words
    requires s1 < 32 && s2 < 32 && s3 < 32
  {
    var c := Unline(w.c, w.a, w.b, Shr(w.b, s3));
    var b := Unline(w.b, c, w.a, Shl(w.a, s2));
    var a := Unline(w.a, b, c, Shr(c, s1));
    Words(a, b, c)
  }

  lemma RoundBijective(w: Words, s1: nat, s2: nat, s3: nat)
    requires s1 < 32 && s2 < 32 && s3 < 32
    ensures Unround(Round(w, s1, s2, s3), s1, s2, s3) == w
    ensures Round(Unround(w, s1, s2, s3), s1, s2, s3) == w
  {
    hide Line, Unline, Shr, Shl;
    var v := Round(w, s1, s2, s3);
    LineBijective(w.c, v.a, v.b, Shr(v.b, s3));
    LineBijective(w.b, w.c, v.a, Shl(v.a, s2));
    LineBijective(w.a, w.b, w.c, Shr(w.c, s1));
    var u := Unround(w, s1, s2, s3);
    LineBijective(w.a, u.b, u.c, Shr(u.c, s1));
    LineBijective(w.b, u.c, w.a, Shl(w.a, s2));
    LineBijective(w.c, w.a, w.b, Shr(w.b, s3));
  }

  function Mix(w: Words): Words {
    Round(Round(Round(w, 13, 8, 13), 12, 16, 5), 3, 10, 15)
  }

  function Unmix(w: Words): Words {
    Unround(Unround(Unround(w, 3, 10, 15), 12, 16, 5), 13, 8, 13)
  }

  /** `crush_hashmix` is a bijection on three words, with the explicit inverse `Unmix`. */
  lemma MixBijective(w: Words)
    ensures Unmix(Mix(w)) == w
    ensures Mix(Unmix(w)) == w
  {
    hide Round, Unround;
    var m1 := Round(w, 13, 8, 13);
    var m2 := Round(m1, 12, 16, 5);
    RoundBijective(w, 13, 8, 13);
    RoundBijective(m1, 12, 16, 5);
    RoundBijective(m2, 3, 10, 15);
    var u1 := Unround(w, 3, 10, 15);
    var u2 := Unround(u1, 12, 16, 5);
    RoundBijective(w, 3, 10, 15);
    RoundBijective(u1, 12, 16, 5);
    RoundBijective(u2, 13, 8, 13);
  }

  /** The macro as the source runs it: nine lines, each overwriting one word. */
  method CrushHashMix(a0: bv32, b0: bv32, c0: bv32) returns (a: bv32, b: bv32, c: bv32)
    ensures Words(a, b, c) == Mix(Words(a0, b0, c0))
  {
    hide Line, Shr, Shl;
    a, b, c := a0, b0, c0;
    a := Line(a, b, c, Shr(c, 13));
    b := Line(b, c, a, Shl(a, 8));
    c := Line(c, a, b, Shr(b, 13));
    a := Line(a, b, c, Shr(c, 12));
    b := Line(b, c, a, Shl(a, 16));
    c := Line(c, a, b, Shr(b, 5));
    a := Line(a, b, c, Shr(c, 3));
    b := Line(b, c, a, Shl(a, 10));
    c := Line(c, a, b, Shr(b, 15));
  }

  // ---------------------------------------------------------------- chains

  /** The registers one `crush_hashmix` call overwrites. */
  datatype Step = Step(i: nat, j: nat, k: nat)

  predicate Fits(s: Step, n: nat) {
    s.i < n && s.j < n && s.k < n && s.i != s.j && s.j != s.k && s.i != s.k
  }

  predicate AllFit(chain: seq<Step>, n: nat) {
    forall s <- chain :: Fits(s, n)
  }

  function Put(regs: seq<bv32>, s: Step, w: Words): (r: seq<bv32>)
    requires Fits(s, |regs|)
    ensures |r| == |regs|
  {
    regs[s.i := w.a][s.j := w.b][s.k := w.c]
  }

  function Get(regs: seq<bv32>, s: Step): Words
    requires Fits(s, |regs|)
  {
    Words(regs[s.i], regs[s.j], regs[s.k])
  }

  /** The register file after the whole chain. */
  function Run(chain: seq<Step>, regs: seq<bv32>): (r: seq<bv32>)
    requires AllFit(chain, |regs|)
    ensures |r| == |regs|
  {
    if chain == [] then regs
    else Run(chain[1..], Put(regs, chain[0], Mix(Get(regs, chain[0]))))
  }

  /** The chain run backwards. */
  function Unwind(chain: seq<Step>, regs: seq<bv32>): (r: seq<bv32>)
    requires AllFit(chain, |regs|)
    ensures |r| == |regs|
  {
    if chain == [] then regs
    else
      var later := Unwind(chain[1..], regs);
      Put(later, chain[0], Unmix(Get(later, chain[0])))
  }

  lemma PutUndone(regs: seq<bv32>, s: Step)
    requires Fits(s, |regs|)
    ensures var mixed := Put(regs, s, Mix(Get(regs, s)));
            Put(mixed, s, Unmix(Get(mixed, s))) == regs
  {
    hide Mix, Unmix;
    var w := Get(regs, s);
    var mixed := Put(regs, s, Mix(w));
    assert Get(mixed, s) == Mix(w);
    MixBijective(w);
  }

  /** Whatever the chain, its final register file determines the initial one. */
  lemma {:induction false} ChainReversible(chain: seq<Step>, regs: seq<bv32>)
    requires AllFit(chain, |regs|)
    ensures Unwind(chain, Run(chain, regs)) == regs
  {
    hide Mix, Unmix;
    if chain != [] {
      var next := Put(regs, chain[0], Mix(Get(regs, chain[0])));
      ChainReversible(chain[1..], next);
      PutUndone(regs, chain[0]);
    }
  }

  // Register files: the inputs first, then x, y and hash.
  const CHAIN1: seq<Step> := [Step(1, 2, 4), Step(3, 0, 4)]
  const CHAIN2: seq<Step> := [Step(0, 1, 4), Step(2, 0, 4), Step(1, 3, 4)]
  const CHAIN3: seq<Step> := [Step(0, 1, 5), Step(2, 3, 5), Step(4, 0, 5), Step(1, 3, 5), Step(4, 2, 5)]
  const CHAIN4: seq<Step> :=
    [Step(0, 1, 6), Step(2, 3, 6), Step(0, 4, 6), Step(5, 1, 6), Step(2, 4, 6), Step(5, 3, 6)]
  const CHAIN5: seq<Step> :=
    [Step(0, 1, 7), Step(2, 3, 7), Step(4, 5, 7), Step(6, 0, 7), Step(1, 5, 7), Step(6, 2, 7),
     Step(3, 5, 7), Step(6, 4, 7)]

  function Xor(words: seq<bv32>): bv32 {
    if words == [] then HASH_SEED else Toggle(Xor(words[..|words| - 1]), words[|words| - 1])
  }

  /** `crush_hash32_rjenkins1` copies its input into the extra register `b` first. */
  function InitialRegisters(inputs: seq<bv32>): (regs: seq<bv32>)
    ensures inputs <= regs
  {
    (if |inputs| == 1 then inputs + inputs else inputs) + [X_INIT, Y_INIT, Xor(inputs)]
  }

  function ChainFor(n: nat): (chain: seq<Step>)
    requires 1 <= n <= 5
    ensures AllFit(chain, if n == 1 then 5 else n + 3)
  {
    match n
    case 1 => CHAIN1
    case 2 => CHAIN2
    case 3 => CHAIN3
    case 4 => CHAIN4
    case 5 => CHAIN5
  }

  function FinalRegisters(inputs: seq<bv32>): (regs: seq<bv32>)
    requires 1 <= |inputs| <= 5
    ensures |regs| >= 5
  {
    Run(ChainFor(|inputs|), InitialRegisters(inputs))
  }

  /** The value `crush_hash32_rjenkins1_n` returns: the last register. */
  function Rjenkins(inputs: seq<bv32>): bv32
    requires 1 <= |inputs| <= 5
  {
    var regs := FinalRegisters(inputs);
    regs[|regs| - 1]
  }

  /** The full working state at the end of each chain is an injective function of the inputs:
      two chains of the same arity end in the same state only on equal inputs. */
  lemma FinalStateInjective(p: seq<bv32>, q: seq<bv32>)
    requires 1 <= |p| <= 5 && |q| == |p|
    ensures FinalRegisters(p) == FinalRegisters(q) <==> p == q
  {
    hide Run, Unwind, Xor;
    ChainReversible(ChainFor(|p|), InitialRegisters(p));
    ChainReversible(ChainFor(|q|), InitialRegisters(q));
    if FinalRegisters(p) == FinalRegisters(q) {
      assert InitialRegisters(p) == InitialRegisters(q);
      assert p == InitialRegisters(p)[..|p|] == q;
    }
  }

  /** The body of `crush_hash32_rjenkins1_n` after its initialisations: one macro call after
      another, each overwriting three of the working words. */
  method RunInPlace(chain: seq<Step>, regs: array<bv32>)
    requires AllFit(chain, regs.Length)
    modifies regs
    ensures regs[..] == Run(chain, old(regs[..]))
  {
    hide Mix;
    for n := 0 to |chain|
      invariant Run(chain, old(regs[..])) == Run(chain[n..], regs[..])
    {
      var s := chain[n];
      assert s in chain && Fits(s, regs.Length);
      ghost var was := regs[..];
      regs[s.i], regs[s.j], regs[s.k] := CrushHashMix(regs[s.i], regs[s.j], regs[s.k]);
      assert regs[..] == Put(was, s, Mix(Get(was, s)));
      assert chain[n..][1..] == chain[n + 1..];
    }
  }

  // ---------------------------------------------------------------- the chains as written

  /** The register file after one macro call. */
  function Call(regs: seq<bv32>, s: Step): (r: seq<bv32>)
    requires Fits(s, |regs|)
    ensures |r| == |regs|
  {
    Put(regs, s, Mix(Get(regs, s)))
  }

  lemma CallAt(regs: seq<bv32>, i: nat, j: nat, k: nat)
    requires Fits(Step(i, j, k), |regs|)
    ensures var m, r := Mix(Words(regs[i], regs[j], regs[k])), Call(regs, Step(i, j, k));
            && r[i] == m.a && r[j] == m.b && r[k] == m.c
            && forall n | 0 <= n < |regs| && n != i && n != j && n != k :: r[n] == regs[n]
  {
    hide Mix;
  }

  lemma RunCall(chain: seq<Step>, n: nat, regs: seq<bv32>, i: nat, j: nat, k: nat)
    requires n < |chain| && chain[n] == Step(i, j, k) && Fits(Step(i, j, k), |regs|) && AllFit(chain, |regs|)
    ensures Run(chain[n..], regs) == Run(chain[n + 1..], Call(regs, Step(i, j, k)))
  {
    hide Mix, Put;
    assert chain[n..][1..] == chain[n + 1..];
  }

  lemma RunNothing(chain: seq<Step>, regs: seq<bv32>)
    requires AllFit(chain, |regs|)
    ensures Run(chain[|chain|..], regs) == regs && chain[0..] == chain
  {
  }

  /** `crush_hash32_rjenkins1` after its initialisations, word by word. */
  method Written1(a0: bv32, b0: bv32, x0: bv32, y0: bv32, hash0: bv32) returns (hash: bv32)
    ensures hash == Run(CHAIN1, [a0, b0, x0, y0, hash0])[4]
  {
    hide Mix, Run, Call, Put;
    var a, b, x, y := a0, b0, x0, y0;
    hash := hash0;
    ghost var r := [a, b, x, y, hash];
    CallAt(r, 1, 2, 4);
    RunCall(CHAIN1, 0, r, 1, 2, 4);
    r := Call(r, Step(1, 2, 4));
    b, x, hash := CrushHashMix(b, x, hash);
    CallAt(r, 3, 0, 4);
    RunCall(CHAIN1, 1, r, 3, 0, 4);
    r := Call(r, Step(3, 0, 4));
    y, a, hash := CrushHashMix(y, a, hash);
    RunNothing(CHAIN1, r);
  }

  /** `crush_hash32_rjenkins1_2` after its initialisations, word by word. */
  method Written2(a0: bv32, b0: bv32, x0: bv32, y0: bv32, hash0: bv32) returns (hash: bv32)
    ensures hash == Run(CHAIN2, [a0, b0, x0, y0, hash0])[4]
  {
    hide Mix, Run, Call, Put;
    var a, b, x, y := a0, b0, x0, y0;
    hash := hash0;
    ghost var r := [a, b, x, y, hash];
    CallAt(r, 0, 1, 4);
    RunCall(CHAIN2, 0, r, 0, 1, 4);
    r := Call(r, Step(0, 1, 4));
    a, b, hash := CrushHashMix(a, b, hash);
    CallAt(r, 2, 0, 4);
    RunCall(CHAIN2, 1, r, 2, 0, 4);
    r := Call(r, Step(2, 0, 4));
    x, a, hash := CrushHashMix(x, a, hash);
    CallAt(r, 1, 3, 4);
    RunCall(CHAIN2, 2, r, 1, 3, 4);
    r := Call(r, Step(1, 3, 4));
    b, y, hash := CrushHashMix(b, y, hash);
    RunNothing(CHAIN2, r);
  }

  /** `crush_hash32_rjenkins1_3` after its initialisations, word by word. */
  method Written3(a0: bv32, b0: bv32, c0: bv32, x0: bv32, y0: bv32, hash0: bv32) returns (hash: bv32)
    ensures hash == Run(CHAIN3, [a0, b0, c0, x0, y0, hash0])[5]
  {
    hide Mix, Run, Call, Put;
    var a, b, c, x, y := a0, b0, c0, x0, y0;
    hash := hash0;
    ghost var r := [a, b, c, x, y, hash];
    CallAt(r, 0, 1, 5);
    RunCall(CHAIN3, 0, r, 0, 1, 5);
    r := Call(r, Step(0, 1, 5));
    a, b, hash := CrushHashMix(a, b, hash);
    CallAt(r, 2, 3, 5);
    RunCall(CHAIN3, 1, r, 2, 3, 5);
    r := Call(r, Step(2, 3, 5));
    c, x, hash := CrushHashMix(c, x, hash);
    CallAt(r, 4, 0, 5);
    RunCall(CHAIN3, 2, r, 4, 0, 5);
    r := Call(r, Step(4, 0, 5));
    y, a, hash := CrushHashMix(y, a, hash);
    CallAt(r, 1, 3, 5);
    RunCall(CHAIN3, 3, r, 1, 3, 5);
    r := Call(r, Step(1, 3, 5));
    b, x, hash := CrushHashMix(b, x, hash);
    CallAt(r, 4, 2, 5);
    RunCall(CHAIN3, 4, r, 4, 2, 5);
    r := Call(r, Step(4, 2, 5));
    y, c, hash := CrushHashMix(y, c, hash);
    RunNothing(CHAIN3, r);
  }

  /** `crush_hash32_rjenkins1` */
  method Rjenkins1(a: bv32) returns (hash: bv32)
    ensures hash == Rjenkins([a])
  {
    hide Run, Xor;
    XorOf1(a);
    hide Toggle;
    assert InitialRegisters([a]) == [a, a, X_INIT, Y_INIT, Toggle(HASH_SEED, a)];
    hash := Written1(a, a, X_INIT, Y_INIT, Toggle(HASH_SEED, a));
  }

  lemma XorOf1(a: bv32)
    ensures Xor([a]) == Toggle(HASH_SEED, a)
  {
    hide Toggle;
    assert [a][..0] == [] && Xor([]) == HASH_SEED;
  }

  /** `crush_hash32_rjenkins1_2` */
  method Rjenkins2(a: bv32, b: bv32) returns (hash: bv32)
    ensures hash == Rjenkins([a, b])
  {
    hide Run, Xor;
    XorOf2(a, b);
    hide Toggle;
    assert InitialRegisters([a, b]) == [a, b, X_INIT, Y_INIT, Toggle(Toggle(HASH_SEED, a), b)];
    hash := Written2(a, b, X_INIT, Y_INIT, Toggle(Toggle(HASH_SEED, a), b));
  }

  lemma XorOf2(a: bv32, b: bv32)
    ensures Xor([a, b]) == Toggle(Toggle(HASH_SEED, a), b)
  {
    hide Toggle;
    XorOf1(a);
    assert [a, b][..1] == [a];
  }

  /** `crush_hash32_rjenkins1_3` */
  method Rjenkins3(a: bv32, b: bv32, c: bv32) returns (hash: bv32)
    ensures hash == Rjenkins([a, b, c])
  {
    hide Run, Xor;
    XorOf3(a, b, c);
    hide Toggle;
    assert InitialRegisters([a, b, c]) == [a, b, c, X_INIT, Y_INIT, Toggle(Toggle(Toggle(HASH_SEED, a), b), c)];
    hash := Written3(a, b, c, X_INIT, Y_INIT, Toggle(Toggle(Toggle(HASH_SEED, a), b), c));
  }

  lemma XorOf3(a: bv32, b: bv32, c: bv32)
    ensures Xor([a, b, c]) == Toggle(Toggle(Toggle(HASH_SEED, a), b), c)
  {
    hide Toggle;
    XorOf2(a, b);
    assert [a, b, c][..2] == [a, b];
  }

  // ---------------------------------------------------------------- dispatchers

  /** The conversion of a C `int` argument to `__u32`. */
  function U32(i: int): bv32 {
    (i % 0x1_0000_0000) as bv32
  }

  /** `crush_hash32_2` */
  function Hash32_2(kind: int, a: int, b: int): (h: nat)
    ensures h == if kind == RJENKINS1 then Rjenkins([U32(a), U32(b)]) as nat else 0
    ensures h < 0x1_0000_0000
  {
    if kind == RJENKINS1 then Rjenkins([U32(a), U32(b)]) as nat else 0
  }

  /** `crush_hash32_3` */
  function Hash32_3(kind: int, a: int, b: int, c: int): (h: nat)
    ensures h == if kind == RJENKINS1 then Rjenkins([U32(a), U32(b), U32(c)]) as nat else 0
    ensures h < 0x1_0000_0000
  {
    if kind == RJENKINS1 then Rjenkins([U32(a), U32(b), U32(c)]) as nat else 0
  }
}
