/** The splitmix64 generator, kept twice (arena-mythos, arena-content), on wrapping 64-bit words.
    Each stage of the scrambler is a function with an inverse. */
module SplitMix {

  type Word = bv64

  // ---- the stages ----

  function Shift30(z: Word): Word { z ^ (z >> 30) }

  function Unshift30(z: Word): Word { z ^ (z >> 30) ^ (z >> 60) }

  function Shift27(z: Word): Word { z ^ (z >> 27) }

  function Unshift27(z: Word): Word { z ^ (z >> 27) ^ (z >> 54) }

  function Shift31(z: Word): Word { z ^ (z >> 31) }

  function Unshift31(z: Word): Word { z ^ (z >> 31) ^ (z >> 62) }

  function ByFirst(z: Word): Word { z * 0xBF58_476D_1CE4_E5B9 }

  function OffFirst(z: Word): Word { z * 0x96DE_1B17_3F11_9089 }

  function BySecond(z: Word): Word { z * 0x94D0_49BB_1331_11EB }

  function OffSecond(z: Word): Word { z * 0x3196_42B2_D24D_8EC3 }

  function ByGamma(z: Word): Word { z * 0x9E37_79B9_7F4A_7C15 }

  function OffGamma(z: Word): Word { z * 0xF1DE_83E1_9937_733D }

  function ByPrime(z: Word): Word { z * 0x100_0000_01B3 }

  function OffPrime(z: Word): Word { z * 0xCE96_5057_AFF6_957B }

  function Plus(x: Word, y: Word): Word { x + y }

  function Minus(x: Word, y: Word): Word { x - y }

  function WithSalt(z: Word): Word { z ^ 0xD1B5_4A32_D192_ED03 }

  function WithOffset(z: Word): Word { z ^ 0xCBF2_9CE4_8422_2325 }

  function WithByte(z: Word, b: bv8): Word { z ^ (b as Word) }

  /** The scrambler: the state is shifted onto itself and multiplied, twice, and shifted again. */
  function Mix(z: Word): Word { Shift31(BySecond(Shift27(ByFirst(Shift30(z))))) }

  function Unmix(z: Word): Word { Unshift30(OffFirst(Unshift27(OffSecond(Unshift31(z))))) }

  /** The state after `k` draws, the count itself taken modulo 2^64. */
  function After(state: Word, k: Word): Word { Plus(state, ByGamma(k)) }

  /** How many draws lead from one state to another. */
  function Between(state: Word, later: Word): Word { OffGamma(Minus(later, state)) }

  /** A draw advances the state, then scrambles it. */
  function Output(state: Word): Word { Mix(Plus(state, 0x9E37_79B9_7F4A_7C15)) }

  /** The output of draw number `k`, counting from zero. */
  function Draw(state: Word, k: Word): Word { Output(After(state, k)) }

  /** The state a word is drawn from. */
  function Source(word: Word): Word { Minus(Unmix(word), 0x9E37_79B9_7F4A_7C15) }

  /** The draw at which a word comes up. */
  function DrawOf(state: Word, word: Word): Word { Between(state, Source(word)) }

  function Seeded(seed: Word): Word { WithSalt(ByGamma(seed)) }

  function FoldSalt(h: Word, salt: seq<bv8>): Word
    decreases |salt|
  {
    if salt == [] then h else FoldSalt(ByPrime(WithByte(h, salt[0])), salt[1..])
  }

  function FromTick(tick: Word, salt: seq<bv8>): Word { Seeded(FoldSalt(WithOffset(tick), salt)) }

  function Value(z: Word): nat { z as int }

  lemma WordRange(z: Word)
    ensures Value(z) < 0x1_0000_0000_0000_0000
  {
  }

  /** The state after `n` calls, and the word the next call returns. */
  function StateAt(seed: Word, n: nat): Word {
    if n == 0 then seed else After(StateAt(seed, n - 1), 1)
  }

  function WordAt(seed: Word, n: nat): Word { Draw(StateAt(seed, n), 0) }

  /** One call as a function: the word's value and the state after it. */
  function Next(state: Word): (nat, Word) { (Value(Draw(state, 0)), After(state, 1)) }

  /** The published answers: the first words of splitmix64 from 1234567, and the 64-bit FNV-1a hash
      of nothing and of a single letter, which is how tick zero folds a salt. */
  lemma KnownAnswers()
    ensures Draw(1234567, 0) == 6457827717110365317
    ensures Draw(1234567, 1) == 3203168211198807973
    ensures Draw(1234567, 2) == 9817491932198370423
    ensures var (z, s) := Next(1234567); z == 6457827717110365317 && Next(s).0 == 3203168211198807973
    ensures FoldSalt(WithOffset(0), []) == 0xCBF2_9CE4_8422_2325
    ensures FoldSalt(WithOffset(0), [0x61]) == 0xAF63_DC4C_8601_EC8C
    ensures FromTick(0, []) == 0x290E_D8FB_3216_230A
  {
  }

  // ---- the generators ----

  lemma OneStep(state: Word)
    ensures After(state, 0) == state && After(state, 1) == Plus(state, 0x9E37_79B9_7F4A_7C15)
  {
    assert ByGamma(0) == 0 && ByGamma(1) == 0x9E37_79B9_7F4A_7C15;
  }

  class Rng {
    var state: Word

    constructor (seed: Word)
      ensures state == Seeded(seed)
    {
      state := (seed * 0x9E37_79B9_7F4A_7C15) ^ 0xD1B5_4A32_D192_ED03;
    }

    constructor FromTickAndSalt(tick: Word, salt: seq<bv8>)
      ensures state == FromTick(tick, salt)
    {
      var h := WithOffset(tick);
      var i := 0;
      while i < |salt|
        invariant i <= |salt|
        invariant FoldSalt(h, salt[i..]) == FoldSalt(WithOffset(tick), salt)
      {
        h := WithByte(h, salt[i]);
        h := ByPrime(h);
        i := i + 1;
      }
      state := Seeded(h);
    }

    method NextWord() returns (z: Word)
      modifies this
      ensures z == Draw(old(state), 0) && state == After(old(state), 1)
    {
      OneStep(state);
      state := Plus(state, 0x9E37_79B9_7F4A_7C15);
      z := state;
      z := ByFirst(Shift30(z));
      z := BySecond(Shift27(z));
      z := Shift31(z);
    }

    /** A draw below `n`; asking below zero draws nothing. */
    method Below(n: nat) returns (r: nat)
      modifies this
      ensures n == 0 ==> r == 0 && state == old(state)
      ensures n != 0 ==> r < n && r == Value(Draw(old(state), 0)) % n && state == After(old(state), 1)
    {
      if n == 0 {
        r := 0;
      } else {
        var z := NextWord();
        r := Value(z) % n;
      }
    }
  }

  /** The copy in the loot roller: the state is passed by reference. */
  method NextLoot(state: Word) returns (next: Word, z: Word)
    ensures z == Draw(state, 0) && next == After(state, 1) && (Value(z), next) == Next(state)
  {
    OneStep(state);
    next := Plus(state, 0x9E37_79B9_7F4A_7C15);
    z := next;
    z := ByFirst(Shift30(z));
    z := BySecond(Shift27(z));
    z := Shift31(z);
  }

  // ---- every stage can be undone ----

  lemma Shifted30(z: Word)
    ensures (z ^ (z >> 30)) ^ ((z ^ (z >> 30)) >> 30) ^ ((z ^ (z >> 30)) >> 60) == z
    ensures (z ^ (z >> 30) ^ (z >> 60)) ^ ((z ^ (z >> 30) ^ (z >> 60)) >> 30) == z
  {
  }

  lemma UndoShift30(z: Word)
    ensures Unshift30(Shift30(z)) == z && Shift30(Unshift30(z)) == z
  {
    Shifted30(z);
    assert Shift30(z) == z ^ (z >> 30);
    assert Unshift30(z) == z ^ (z >> 30) ^ (z >> 60);
  }

  lemma Shifted27(z: Word)
    ensures (z ^ (z >> 27)) ^ ((z ^ (z >> 27)) >> 27) ^ ((z ^ (z >> 27)) >> 54) == z
    ensures (z ^ (z >> 27) ^ (z >> 54)) ^ ((z ^ (z >> 27) ^ (z >> 54)) >> 27) == z
  {
  }

  lemma UndoShift27(z: Word)
    ensures Unshift27(Shift27(z)) == z && Shift27(Unshift27(z)) == z
  {
    Shifted27(z);
    assert Shift27(z) == z ^ (z >> 27);
    assert Unshift27(z) == z ^ (z >> 27) ^ (z >> 54);
  }

  lemma Shifted31(z: Word)
    ensures (z ^ (z >> 31)) ^ ((z ^ (z >> 31)) >> 31) ^ ((z ^ (z >> 31)) >> 62) == z
    ensures (z ^ (z >> 31) ^ (z >> 62)) ^ ((z ^ (z >> 31) ^ (z >> 62)) >> 31) == z
  {
  }

  lemma UndoShift31(z: Word)
    ensures Unshift31(Shift31(z)) == z && Shift31(Unshift31(z)) == z
  {
    Shifted31(z);
    assert Shift31(z) == z ^ (z >> 31);
    assert Unshift31(z) == z ^ (z >> 31) ^ (z >> 62);
  }

  /** The first multiplier is odd, so it has an inverse modulo 2^64. */
  lemma FirstInverse(z: Word)
    ensures z * 0xBF58_476D_1CE4_E5B9 * 0x96DE_1B17_3F11_9089 == z &&
            z * 0x96DE_1B17_3F11_9089 * 0xBF58_476D_1CE4_E5B9 == z
  {
  }

  lemma FirstProducts(z: Word)
    ensures OffFirst(z * 0xBF58_476D_1CE4_E5B9) == z && ByFirst(z * 0x96DE_1B17_3F11_9089) == z
  {
    FirstInverse(z);
  }

  lemma UndoFirst(z: Word)
    ensures OffFirst(ByFirst(z)) == z && ByFirst(OffFirst(z)) == z
  {
    FirstProducts(z);
  }

  /** The second is odd, so it has an inverse modulo 2^64. */
  lemma SecondInverse(z: Word)
    ensures z * 0x94D0_49BB_1331_11EB * 0x3196_42B2_D24D_8EC3 == z &&
            z * 0x3196_42B2_D24D_8EC3 * 0x94D0_49BB_1331_11EB == z
  {
  }

  lemma SecondProducts(z: Word)
    ensures OffSecond(z * 0x94D0_49BB_1331_11EB) == z && BySecond(z * 0x3196_42B2_D24D_8EC3) == z
  {
    SecondInverse(z);
  }

  lemma UndoSecond(z: Word)
    ensures OffSecond(BySecond(z)) == z && BySecond(OffSecond(z)) == z
  {
    SecondProducts(z);
  }

  /** The increment is odd, so it has an inverse modulo 2^64. */
  lemma GammaInverse(z: Word)
    ensures z * 0x9E37_79B9_7F4A_7C15 * 0xF1DE_83E1_9937_733D == z &&
            z * 0xF1DE_83E1_9937_733D * 0x9E37_79B9_7F4A_7C15 == z
  {
  }

  lemma GammaProducts(z: Word)
    ensures OffGamma(z * 0x9E37_79B9_7F4A_7C15) == z && ByGamma(z * 0xF1DE_83E1_9937_733D) == z
  {
    GammaInverse(z);
  }

  lemma UndoGamma(z: Word)
    ensures OffGamma(ByGamma(z)) == z && ByGamma(OffGamma(z)) == z
  {
    GammaProducts(z);
  }

  /** The FNV prime is odd, so it has an inverse modulo 2^64. */
  lemma PrimeInverse(z: Word)
    ensures z * 0x100_0000_01B3 * 0xCE96_5057_AFF6_957B == z &&
            z * 0xCE96_5057_AFF6_957B * 0x100_0000_01B3 == z
  {
  }

  lemma PrimeProducts(z: Word)
    ensures OffPrime(z * 0x100_0000_01B3) == z && ByPrime(z * 0xCE96_5057_AFF6_957B) == z
  {
    PrimeInverse(z);
  }

  lemma UndoPrime(z: Word)
    ensures OffPrime(ByPrime(z)) == z && ByPrime(OffPrime(z)) == z
  {
    PrimeProducts(z);
  }

  lemma MixIsUndone(z: Word)
    ensures Unmix(Mix(z)) == z
  {
    UndoShift30(z);
    UndoFirst(Shift30(z));
    UndoShift27(ByFirst(Shift30(z)));
    UndoSecond(Shift27(ByFirst(Shift30(z))));
    UndoShift31(BySecond(Shift27(ByFirst(Shift30(z)))));
  }

  lemma MixIsRedone(z: Word)
    ensures Mix(Unmix(z)) == z
  {
    UndoShift31(z);
    UndoSecond(Unshift31(z));
    UndoShift27(OffSecond(Unshift31(z)));
    UndoFirst(Unshift27(OffSecond(Unshift31(z))));
    UndoShift30(OffFirst(Unshift27(OffSecond(Unshift31(z)))));
  }

  // ---- the stream ----

  lemma PlusMinus(x: Word, y: Word)
    ensures (x + y) - x == y && x + (y - x) == y
  {
  }

  lemma UndoPlus(x: Word, y: Word)
    ensures Minus(Plus(x, y), x) == y && Minus(Plus(y, x), x) == y
  {
    PlusMinus(x, y);
    assert Plus(x, y) == x + y && Plus(y, x) == y + x;
  }

  lemma RedoPlus(x: Word, y: Word)
    ensures Plus(x, Minus(y, x)) == y && Plus(Minus(y, x), x) == y
  {
    PlusMinus(x, y);
    assert Minus(y, x) == y - x;
  }

  lemma CountsBack(state: Word, k: Word)
    ensures Between(state, After(state, k)) == k
  {
    UndoPlus(state, ByGamma(k));
    UndoGamma(k);
  }

  lemma EveryStateIsReached(state: Word, later: Word)
    ensures After(state, Between(state, later)) == later
  {
    RedoPlus(state, later);
    UndoGamma(Minus(later, state));
  }

  lemma OutputIsUndone(state: Word)
    ensures Source(Output(state)) == state
  {
    UndoPlus(0x9E37_79B9_7F4A_7C15, state);
    MixIsUndone(Plus(state, 0x9E37_79B9_7F4A_7C15));
  }

  lemma OutputIsRedone(word: Word)
    ensures Output(Source(word)) == word
  {
    RedoPlus(0x9E37_79B9_7F4A_7C15, Unmix(word));
    MixIsRedone(word);
  }

  /** The draw a word comes from can be read off the word. */
  lemma DrawIsFound(state: Word, k: Word)
    ensures DrawOf(state, Draw(state, k)) == k
  {
    OutputIsUndone(After(state, k));
    CountsBack(state, k);
  }

  lemma WordIsDrawn(state: Word, word: Word)
    ensures Draw(state, DrawOf(state, word)) == word
  {
    EveryStateIsReached(state, Source(word));
    OutputIsRedone(word);
  }

  lemma DrawIff(state: Word, word: Word, k: Word)
    ensures Draw(state, k) == word <==> k == DrawOf(state, word)
  {
    DrawIsFound(state, k);
    WordIsDrawn(state, word);
  }

  lemma Distribute(j: Word, k: Word)
    ensures (j + k) * 0x9E37_79B9_7F4A_7C15 == j * 0x9E37_79B9_7F4A_7C15 + k * 0x9E37_79B9_7F4A_7C15
  {
  }

  lemma GammaDistributes(j: Word, k: Word)
    ensures ByGamma(j + k) == Plus(ByGamma(j), ByGamma(k))
  {
    Distribute(j, k);
    assert ByGamma(j) == j * 0x9E37_79B9_7F4A_7C15 && ByGamma(k) == k * 0x9E37_79B9_7F4A_7C15;
  }

  lemma PlusReorders(x: Word, y: Word, z: Word)
    ensures (x + y) + z == x + (z + y)
    ensures (x + y) + z == (x + z) + y
  {
  }

  lemma PlusRegroups(x: Word, y: Word, z: Word)
    ensures Plus(Plus(x, y), z) == Plus(x, Plus(z, y))
  {
    PlusReorders(x, y, z);
    assert Plus(x, y) == x + y && Plus(z, y) == z + y;
  }

  /** Draws made one after another add up. */
  lemma StepsAdd(s: Word, j: Word, k: Word)
    ensures After(After(s, j), k) == After(s, k + j)
  {
    PlusRegroups(s, ByGamma(j), ByGamma(k));
    GammaDistributes(k, j);
  }

  // ---- counting calls in 64 bits ----

  const PERIOD: nat := 0x1_0000_0000_0000_0000

  /** `n` increments of a word. */
  function Count(n: nat): Word { if n == 0 then 0 else Plus(Count(n - 1), 1) }

  const LAST: Word := 0xFFFF_FFFF_FFFF_FFFF

  /** How often one can step back before reaching zero. */
  function Rank(w: Word): nat
    decreases w
  {
    if w == 0 then 0 else Rank(w - 1) + 1
  }

  lemma StepBack(w: Word)
    ensures Plus(w, 1) - 1 == w
    ensures Plus(w - 1, 1) == w
    ensures Plus(w, 1) == 0 <==> w == LAST
  {
  }

  lemma {:induction false} CountOfRank(w: Word)
    ensures Count(Rank(w)) == w
    decreases w
  {
    if w != 0 {
      CountOfRank(w - 1);
      StepBack(w);
    }
  }

  lemma RankNext(w: Word)
    ensures Rank(Plus(w, 1)) == if w == LAST then 0 else Rank(w) + 1
  {
    StepBack(w);
  }

  lemma DoubleBack(w: Word)
    requires 0 < w <= 0x7FFF_FFFF_FFFF_FFFF
    ensures Plus(w, w) != 0 && Plus(w, w) - 1 != 0 && (Plus(w, w) - 1) - 1 == Plus(w - 1, w - 1)
  {
  }

  lemma {:induction false} RankDoubles(w: Word)
    requires w <= 0x7FFF_FFFF_FFFF_FFFF
    ensures Rank(Plus(w, w)) == 2 * Rank(w)
    decreases w
  {
    if w == 0 {
      assert Plus(w, w) == 0;
    } else {
      RankDoubles(w - 1);
      DoubleBack(w);
    }
  }

  /** A one shifted in at the bottom. */
  lemma OneIn(w: Word, n: nat)
    requires w <= 0x7FFF_FFFF_FFFF_FFFF && Rank(w) == n
    ensures Rank((w << 1) | 1) == 2 * n + 1
  {
    RankDoubles(w);
    RankNext(Plus(w, w));
    ShiftIn(w);
  }

  lemma ShiftIn(w: Word)
    ensures Plus(w, w) != LAST && Plus(Plus(w, w), 1) == (w << 1) | 1
  {
  }

  /** Four ones, shifted in one by one. */
  lemma DigitIn(w: Word, n: nat)
    requires w <= 0x0FFF_FFFF_FFFF_FFFF && Rank(w) == n
    ensures Rank((w << 4) | 15) == 16 * n + 15
  {
    var w1 := (w << 1) | 1;
    var w2 := (w1 << 1) | 1;
    var w3 := (w2 << 1) | 1;
    RoomForFour(w);
    OneIn(w, n);
    OneIn(w1, 2 * n + 1);
    OneIn(w2, 4 * n + 3);
    OneIn(w3, 8 * n + 7);
  }

  lemma RoomForFour(w: Word)
    requires w <= 0x0FFF_FFFF_FFFF_FFFF
    ensures w <= 0x7FFF_FFFF_FFFF_FFFF && (w << 1) | 1 <= 0x7FFF_FFFF_FFFF_FFFF
    ensures (((w << 1) | 1) << 1) | 1 <= 0x7FFF_FFFF_FFFF_FFFF
    ensures (((((w << 1) | 1) << 1) | 1) << 1) | 1 <= 0x7FFF_FFFF_FFFF_FFFF
    ensures (((((((w << 1) | 1) << 1) | 1) << 1) | 1) << 1) | 1 == (w << 4) | 15
  {
  }

  lemma LastRank()
    ensures Rank(LAST) == PERIOD - 1
  {
    DigitIn(0, 0);
    DigitIn(0xF, 0xF);
    DigitIn(0xFF, 0xFF);
    DigitIn(0xFFF, 0xFFF);
    DigitIn(0xFFFF, 0xFFFF);
    DigitIn(0xF_FFFF, 0xF_FFFF);
    DigitIn(0xFF_FFFF, 0xFF_FFFF);
    DigitIn(0xFFF_FFFF, 0xFFF_FFFF);
    DigitIn(0xFFFF_FFFF, 0xFFFF_FFFF);
    DigitIn(0xF_FFFF_FFFF, 0xF_FFFF_FFFF);
    DigitIn(0xFF_FFFF_FFFF, 0xFF_FFFF_FFFF);
    DigitIn(0xFFF_FFFF_FFFF, 0xFFF_FFFF_FFFF);
    DigitIn(0xFFFF_FFFF_FFFF, 0xFFFF_FFFF_FFFF);
    DigitIn(0xF_FFFF_FFFF_FFFF, 0xF_FFFF_FFFF_FFFF);
    DigitIn(0xFF_FFFF_FFFF_FFFF, 0xFF_FFFF_FFFF_FFFF);
    DigitIn(0xFFF_FFFF_FFFF_FFFF, 0xFFF_FFFF_FFFF_FFFF);
  }

  lemma {:induction false} RankOfCount(n: nat)
    requires n < PERIOD
    ensures Rank(Count(n)) == n
  {
    if n > 0 {
      RankOfCount(n - 1);
      RankNext(Count(n - 1));
      LastRank();
    }
  }

  /** Below 2^64, counting does not repeat. */
  lemma CountIsInjective(m: nat, n: nat)
    requires m < PERIOD && n < PERIOD
    ensures Count(m) == Count(n) <==> m == n
  {
    RankOfCount(m);
    RankOfCount(n);
  }

  lemma {:induction false} CountComesRound(n: nat)
    requires n >= PERIOD
    ensures Count(n) == Count(n - PERIOD)
  {
    if n == PERIOD {
      LastRank();
      CountOfRank(LAST);
      StepBack(LAST);
    } else {
      CountComesRound(n - 1);
    }
  }

  lemma {:induction false} WithinPeriod(n: nat) returns (r: nat)
    ensures r < PERIOD && Count(r) == Count(n)
  {
    if n < PERIOD {
      r := n;
    } else {
      CountComesRound(n);
      r := WithinPeriod(n - PERIOD);
    }
  }

  /** Every word is a count below 2^64. */
  lemma EveryWordIsACount(w: Word) returns (n: nat)
    ensures n < PERIOD && Count(n) == w
  {
    CountOfRank(w);
    n := WithinPeriod(Rank(w));
  }

  // ---- the words of successive calls ----

  lemma AfterNone(s: Word)
    ensures After(s, 0) == s
  {
    OneStep(s);
  }

  /** Calling `n` times is stepping by the count of `n`. */
  lemma {:induction false} StateIsStepped(seed: Word, n: nat)
    ensures StateAt(seed, n) == After(seed, Count(n))
  {
    if n == 0 {
      AfterNone(seed);
    } else {
      StateIsStepped(seed, n - 1);
      StepsAdd(seed, Count(n - 1), 1);
      PlusCommutes(Count(n - 1), 1);
    }
  }

  lemma PlusCommutes(x: Word, y: Word)
    ensures Plus(x, y) == y + x
  {
  }

  lemma WordIsDraw(seed: Word, n: nat)
    ensures WordAt(seed, n) == Draw(seed, Count(n))
  {
    StateIsStepped(seed, n);
    AfterNone(StateAt(seed, n));
  }

  /** The stream repeats no word within 2^64 calls. */
  lemma NoWordRepeats(seed: Word, m: nat, n: nat)
    requires m < PERIOD && n < PERIOD
    ensures WordAt(seed, m) == WordAt(seed, n) <==> m == n
  {
    WordIsDraw(seed, m);
    WordIsDraw(seed, n);
    DrawIff(seed, WordAt(seed, m), Count(m));
    DrawIff(seed, WordAt(seed, m), Count(n));
    CountIsInjective(m, n);
  }

  /** Within 2^64 calls every 64-bit word comes up exactly once: no call repeats another, and no
      word is missing. */
  lemma EveryWordOncePerPeriod(seed: Word, word: Word) returns (n: nat)
    ensures n < PERIOD && WordAt(seed, n) == word
    ensures forall m :: 0 <= m < PERIOD && WordAt(seed, m) == word ==> m == n
  {
    n := EveryWordIsACount(DrawOf(seed, word));
    WordIsDraw(seed, n);
    DrawIff(seed, word, Count(n));
    forall m | 0 <= m < PERIOD && WordAt(seed, m) == word
      ensures m == n
    {
      NoWordRepeats(seed, m, n);
    }
  }

  lemma {:induction false} StatesChain(s: Word, m: nat, n: nat)
    ensures StateAt(StateAt(s, m), n) == StateAt(s, m + n)
  {
    if n > 0 {
      StatesChain(s, m, n - 1);
    }
  }

  /** All states lie on one cycle: within 2^64 calls every state is reached from every other, and
      from there on the two streams are one. */
  lemma OneCycle(s: Word, t: Word) returns (m: nat)
    ensures m < PERIOD && StateAt(s, m) == t
    ensures forall n: nat :: WordAt(t, n) == WordAt(s, m + n)
  {
    m := EveryWordIsACount(Between(s, t));
    StateIsStepped(s, m);
    EveryStateIsReached(s, t);
    forall n: nat
      ensures WordAt(t, n) == WordAt(s, m + n)
    {
      StatesChain(s, m, n);
    }
  }

  // ---- the copies agree ----

  /** From one raw state both generators produce the same words, call for call. */
  method DrawBoth(rng: Rng, n: nat) returns (mythos: seq<Word>, loot: seq<Word>)
    modifies rng
    ensures mythos == loot && |mythos| == n
    ensures forall k :: 0 <= k < n ==> mythos[k] == WordAt(old(rng.state), k)
    ensures rng.state == StateAt(old(rng.state), n)
  {
    mythos, loot := [], [];
    var state := rng.state;
    var i := 0;
    while i < n
      invariant i <= n && rng.state == state == StateAt(old(rng.state), i)
      invariant mythos == loot && |mythos| == i
      invariant forall k :: 0 <= k < i ==> mythos[k] == WordAt(old(rng.state), k)
    {
      var z := rng.NextWord();
      var w;
      state, w := NextLoot(state);
      mythos, loot := mythos + [z], loot + [w];
      i := i + 1;
    }
  }

  // ---- seeding ----

  lemma XorTwice(x: Word, s: Word)
    ensures (x ^ s) ^ s == x
  {
  }

  lemma UndoSalt(z: Word)
    ensures WithSalt(WithSalt(z)) == z && WithOffset(WithOffset(z)) == z
  {
    XorTwice(z, 0xD1B5_4A32_D192_ED03);
    XorTwice(z, 0xCBF2_9CE4_8422_2325);
    assert WithSalt(z) == z ^ 0xD1B5_4A32_D192_ED03 && WithOffset(z) == z ^ 0xCBF2_9CE4_8422_2325;
  }

  lemma UndoByte(z: Word, b: bv8)
    ensures WithByte(WithByte(z, b), b) == z
  {
    XorTwice(z, b as Word);
    assert WithByte(z, b) == z ^ (b as Word);
  }

  lemma SeedsDiffer(s: Word, t: Word)
    ensures Seeded(s) == Seeded(t) <==> s == t
  {
    UndoSalt(ByGamma(s));
    UndoSalt(ByGamma(t));
    UndoGamma(s);
    UndoGamma(t);
  }

  lemma {:induction false} FoldsDiffer(g: Word, h: Word, salt: seq<bv8>)
    ensures FoldSalt(g, salt) == FoldSalt(h, salt) <==> g == h
    decreases |salt|
  {
    if salt != [] {
      FoldsDiffer(ByPrime(WithByte(g, salt[0])), ByPrime(WithByte(h, salt[0])), salt[1..]);
      UndoPrime(WithByte(g, salt[0]));
      UndoPrime(WithByte(h, salt[0]));
      UndoByte(g, salt[0]);
      UndoByte(h, salt[0]);
    }
  }

  /** The same salt at two different ticks never starts from the same state. */
  lemma TicksDiffer(t: Word, u: Word, salt: seq<bv8>)
    ensures FromTick(t, salt) == FromTick(u, salt) <==> t == u
  {
    SeedsDiffer(FoldSalt(WithOffset(t), salt), FoldSalt(WithOffset(u), salt));
    FoldsDiffer(WithOffset(t), WithOffset(u), salt);
    UndoSalt(t);
    UndoSalt(u);
  }
}
