/** Loot tables (arena-content): weighted selection by prefix sums over the splitmix64 stream.
    Weights are reals; generator words, counts and their 16-bit limits are exact. */
module Loot {
  import opened Geometry
  import opened Protocol
  import opened SplitMix

  type U16 = n: nat | n < 0x1_0000

  datatype Entry = Entry(item: Id, weight: real, min: U16, max: U16, rarityBonus: real)

  datatype Drop = Drop(item: Id, count: U16)

  function Effective(e: Entry): real {
    if e.weight + e.rarityBonus > 0.0 then e.weight + e.rarityBonus else 0.0
  }

  function Sum(es: seq<Entry>): real {
    if es == [] then 0.0 else Sum(es[..|es| - 1]) + Effective(es[|es| - 1])
  }

  const WORDS := 0x1_0000_0000_0000_0000

  /** A generator: from a state, the next 64-bit word and the state after it. */
  type Generator<!G(!new)> = G -> (nat, G)

  ghost predicate DrawsWords<G(!new)>(step: Generator<G>) {
    forall g :: step(g).0 < WORDS
  }

  /** The top 24 bits of a word as a fraction: shifting right by 40 divides by 2^40. */
  function Unit(word: nat): real { (word / 0x100_0000_0000) as real / 16777216.0 }

  lemma UnitRange(word: nat)
    requires word < WORDS
    ensures 0.0 <= Unit(word) < 1.0
  {
    var top := word / 0x100_0000_0000;
    assert top < 0x100_0000;
    assert top as real < 16777216.0;
  }

  /** A fraction counts whole steps of 2^-24, and counts those of the word as a fraction of 2^64:
      what it drops is less than one step. */
  lemma UnitCountsSteps(word: nat) returns (n: nat)
    requires word < WORDS
    ensures n < 0x100_0000 && Unit(word) == n as real / 16777216.0
    ensures n * 0x100_0000_0000 <= word < (n + 1) * 0x100_0000_0000
  {
    n := word / 0x100_0000_0000;
  }

  // ---- selection ----

  /** The entry's slice of the line of weights holds the pick. */
  ghost predicate Wins(es: seq<Entry>, pick: real, i: nat) {
    i < |es| && Sum(es[..i]) <= pick < Sum(es[..i + 1])
  }

  lemma SliceSum(es: seq<Entry>, i: nat)
    requires i < |es|
    ensures Sum(es[..i + 1]) == Sum(es[..i]) + Effective(es[i])
  {
    assert es[..i + 1][..i] == es[..i];
  }

  lemma {:induction false} SumMono(es: seq<Entry>, i: nat, j: nat)
    requires i <= j <= |es|
    ensures Sum(es[..i]) <= Sum(es[..j])
    decreases j
  {
    if i < j {
      SumMono(es, i, j - 1);
      SliceSum(es, j - 1);
    }
  }

  /** The last entry whose slice starts at or before the pick. */
  function Winner(es: seq<Entry>, pick: real): (i: nat)
    requires 0.0 <= pick < Sum(es)
    ensures i < |es|
  {
    if pick >= Sum(es[..|es| - 1]) then |es| - 1 else Winner(es[..|es| - 1], pick)
  }

  lemma WinsInPrefix(es: seq<Entry>, n: nat, pick: real, i: nat)
    requires n <= |es| && Wins(es[..n], pick, i)
    ensures Wins(es, pick, i)
  {
    assert es[..n][..i] == es[..i] && es[..n][..i + 1] == es[..i + 1];
  }

  lemma {:induction false} WinnerWins(es: seq<Entry>, pick: real)
    requires 0.0 <= pick < Sum(es)
    ensures Wins(es, pick, Winner(es, pick))
  {
    var n := |es| - 1;
    assert es[..n + 1] == es;
    if pick < Sum(es[..n]) {
      WinnerWins(es[..n], pick);
      WinsInPrefix(es, n, pick, Winner(es[..n], pick));
    }
  }

  /** Each pick on the line selects exactly one entry, and each entry is selected by exactly the
      picks in its slice, whose width is its effective weight: an entry without weight never
      drops. */
  lemma SelectionIsProportional(es: seq<Entry>, pick: real, i: nat)
    requires 0.0 <= pick < Sum(es) && i < |es|
    ensures Winner(es, pick) == i <==> Wins(es, pick, i)
    ensures Wins(es, pick, i) ==> es[i].weight + es[i].rarityBonus > 0.0
    ensures Sum(es[..i + 1]) - Sum(es[..i]) == Max(es[i].weight + es[i].rarityBonus, 0.0)
  {
    WinnerWins(es, pick);
    SliceSum(es, i);
    var w := Winner(es, pick);
    if i < w {
      SumMono(es, i + 1, w);
    } else if w < i {
      SumMono(es, w + 1, i);
    }
  }

  // ---- one roll ----

  function Span(e: Entry): U16 { if e.max >= e.min then e.max - e.min else 0 }

  /** How many of an entry drop, given the word drawn for the count. */
  function CountOf(e: Entry, word: nat): (count: U16)
    ensures e.min <= count && (count <= e.max || count == e.min)
  {
    e.min + word % (Span(e) + 1)
  }

  lemma PickOnLine(es: seq<Entry>, word: nat)
    requires Sum(es) > 0.0 && word < WORDS
    ensures 0.0 <= Times(Unit(word), Sum(es)) < Sum(es)
  {
    UnitRange(word);
    Fraction(Unit(word), Sum(es));
  }

  lemma Fraction(u: real, t: real)
    requires 0.0 <= u < 1.0 && t > 0.0
    ensures 0.0 <= Times(u, t) < t
  {
  }

  function Chosen(es: seq<Entry>, word: nat): Entry
    requires Sum(es) > 0.0 && word < WORDS
  {
    PickOnLine(es, word);
    es[Winner(es, Times(Unit(word), Sum(es)))]
  }

  function Dropped(e: Entry, word: nat): seq<Drop> {
    if CountOf(e, word) > 0 then [Drop(e.item, CountOf(e, word))] else []
  }

  /** What one roll drops, and the state it leaves: a count is drawn only when there is a choice. */
  ghost function RolledOnce<G(!new)>(es: seq<Entry>, step: Generator<G>, g: G): (seq<Drop>, G)
    requires Sum(es) > 0.0 && DrawsWords(step)
  {
    var e, g' := Chosen(es, step(g).0), step(g).1;
    if Span(e) == 0 then (Dropped(e, 0), g') else (Dropped(e, step(g').0), step(g').1)
  }

  ghost function Drops<G(!new)>(es: seq<Entry>, rolls: nat, step: Generator<G>, g: G): seq<Drop>
    requires Sum(es) > 0.0 && DrawsWords(step)
    decreases rolls
  {
    if rolls == 0 then []
    else
      var (dropped, g') := RolledOnce(es, step, g);
      dropped + Drops(es, rolls - 1, step, g')
  }

  /** The counts an entry can drop are those of its range, and the lower end alone if the range is
      turned around. */
  lemma CountsAreTheRange(e: Entry, count: nat)
    ensures (exists word :: 0 <= word < WORDS && CountOf(e, word) == count) <==>
            e.min <= count <= e.max || count == e.min
  {
    if e.min <= count <= e.max {
      assert (count - e.min) % (Span(e) + 1) == count - e.min;
      assert CountOf(e, count - e.min) == count;
    } else if count == e.min {
      assert CountOf(e, 0) == count;
    }
  }

  // ---- how even the counts are ----

  /** How many of the first `n` words make the entry drop `count`. */
  function WordsGiving(e: Entry, count: nat, n: nat): nat {
    if n == 0 then 0 else WordsGiving(e, count, n - 1) + if CountOf(e, n - 1) == count then 1 else 0
  }

  lemma NextQuotient(n: int, m: int)
    requires m > 0
    ensures n % m == m - 1 ==> (n + 1) / m == n / m + 1 && (n + 1) % m == 0
    ensures n % m < m - 1 ==> (n + 1) / m == n / m && (n + 1) % m == n % m + 1
  {
    var q, r := n / m, n % m;
    assert n == q * m + r;
    if r == m - 1 {
      Quotient(n + 1, m, q + 1, 0);
    } else {
      Quotient(n + 1, m, q, r + 1);
    }
  }

  lemma Quotient(n: int, m: int, q: int, r: int)
    requires 0 <= r < m && n == q * m + r
    ensures n / m == q && n % m == r
  {
    assert n == (n / m) * m + n % m;
    assert (n / m) * m - q * m == (n / m - q) * m;
    AtLeastOnce(n / m - q, m);
  }

  lemma AtLeastOnce(d: int, m: int)
    requires m > 0
    ensures d >= 1 ==> d * m >= m
    ensures d <= -1 ==> d * m <= -m
  {
  }

  /** One more word, whose quotient and remainder are `q` and `r`, in front of one with `q'` and `r'`. */
  lemma OneMoreWord(k: int, m: int, q: int, r: int, q': int, r': int)
    requires 0 <= k < m && 0 <= r < m
    requires r == m - 1 ==> q' == q + 1 && r' == 0
    requires r < m - 1 ==> q' == q && r' == r + 1
    ensures q' + (if k < r' then 1 else 0) == q + (if k < r then 1 else 0) + if r == k then 1 else 0
  {
  }

  /** Every count of the range is given by n / (span + 1) of the first `n` words, and the lowest
      n % (span + 1) counts by one word more. */
  lemma {:induction false} WordsGivingIs(e: Entry, count: nat, n: nat)
    requires e.min <= count <= e.min + Span(e)
    ensures WordsGiving(e, count, n) == n / (Span(e) + 1) + if count - e.min < n % (Span(e) + 1) then 1 else 0
  {
    if n > 0 {
      WordsGivingIs(e, count, n - 1);
      var m := Span(e) + 1;
      NextQuotient(n - 1, m);
      OneMoreWord(count - e.min, m, (n - 1) / m, (n - 1) % m, n / m, n % m);
    }
  }

  /** The counts of a range are not quite equally likely: over all words no two differ by more
      than one word, and all are even exactly when the size of the range divides the number of
      words. */
  lemma CountsAreEvenIff(e: Entry)
    ensures forall c, d :: e.min <= c <= e.min + Span(e) && e.min <= d <= e.min + Span(e) ==>
              WordsGiving(e, c, WORDS) <= WordsGiving(e, d, WORDS) + 1
    ensures (forall c, d :: e.min <= c <= e.min + Span(e) && e.min <= d <= e.min + Span(e) ==>
               WordsGiving(e, c, WORDS) == WordsGiving(e, d, WORDS))
       <==> WORDS % (Span(e) + 1) == 0
  {
    forall c | e.min <= c <= e.min + Span(e)
      ensures WordsGiving(e, c, WORDS) ==
              WORDS / (Span(e) + 1) + if c - e.min < WORDS % (Span(e) + 1) then 1 else 0
    {
      WordsGivingIs(e, c, WORDS);
    }
    if WORDS % (Span(e) + 1) != 0 {
      assert WordsGiving(e, e.min, WORDS) != WordsGiving(e, e.min + Span(e), WORDS);
    }
  }

  // ---- the roller ----

  function SaturatingSub(x: U16, y: U16): U16 { if x >= y then x - y else 0 }

  function SaturatingAdd(x: U16, y: U16): U16 { if x + y < 0x1_0000 then x + y else 0xFFFF }

  method Total(es: seq<Entry>) returns (total: real)
    ensures total == Sum(es)
  {
    total := 0.0;
    var i := 0;
    while i < |es|
      invariant i <= |es| && total == Sum(es[..i])
    {
      SliceSum(es, i);
      total := total + Effective(es[i]);
      i := i + 1;
    }
    assert es[..i] == es;
  }

  /** One pass over the entries, stopping at the first whose running total passes the pick. The
      scan cannot run off the end. */
  method Scan(es: seq<Entry>, pick: real) returns (i: nat)
    requires 0.0 <= pick < Sum(es)
    ensures i < |es| && i == Winner(es, pick)
  {
    assert es[..|es|] == es;
    var acc := 0.0;
    i := 0;
    while i < |es|
      invariant i <= |es| && acc == Sum(es[..i]) <= pick
    {
      SliceSum(es, i);
      acc := acc + Effective(es[i]);
      if pick < acc {
        SelectionIsProportional(es, pick, i);
        return;
      }
      i := i + 1;
    }
    assert false;
  }

  /** The count, from the remainder of one word; no step of it wraps, saturates or truncates. */
  method RollCount<G(!new)>(e: Entry, step: Generator<G>, g: G) returns (count: U16, next: G)
    ensures count == CountOf(e, if Span(e) == 0 then 0 else step(g).0)
    ensures next == if Span(e) == 0 then g else step(g).1
  {
    next := g;
    var extra: U16 := 0;
    var span: nat := SaturatingSub(e.max, e.min);
    if span != 0 {
      var (z, g') := step(g);
      next := g';
      extra := (z % (span + 1)) % 0x1_0000;
    }
    count := SaturatingAdd(e.min, extra);
  }

  method RollOnce<G(!new)>(es: seq<Entry>, total: real, step: Generator<G>, g: G) returns (dropped: seq<Drop>, next: G)
    requires DrawsWords(step) && total == Sum(es) > 0.0
    ensures (dropped, next) == RolledOnce(es, step, g)
  {
    var (z, g') := step(g);
    PickOnLine(es, z);
    var i := Scan(es, Times(Unit(z), total));
    var count;
    count, next := RollCount(es[i], step, g');
    dropped := if count > 0 then [Drop(es[i].item, count)] else [];
  }

  method RollAll<G(!new)>(es: seq<Entry>, rolls: nat, step: Generator<G>, g: G) returns (out: seq<Drop>)
    requires DrawsWords(step)
    ensures out == if Sum(es) > 0.0 then Drops(es, rolls, step, g) else []
  {
    out := [];
    if es == [] {
      return;
    }
    var total := Total(es);
    if total <= 0.0 {
      return;
    }
    var state := g;
    var k := 0;
    while k < rolls
      invariant k <= rolls
      invariant out + Drops(es, rolls - k, step, state) == Drops(es, rolls, step, g)
    {
      DropsStep(es, rolls - k, step, state, out);
      var dropped;
      dropped, state := RollOnce(es, total, step, state);
      out := out + dropped;
      k := k + 1;
    }
  }

  lemma DropsStep<G(!new)>(es: seq<Entry>, rolls: nat, step: Generator<G>, g: G, out: seq<Drop>)
    requires Sum(es) > 0.0 && DrawsWords(step) && rolls > 0
    ensures var (dropped, g') := RolledOnce(es, step, g);
            out + Drops(es, rolls, step, g) == (out + dropped) + Drops(es, rolls - 1, step, g')
  {
  }

  lemma SplitMixDrawsWords()
    ensures DrawsWords(Next)
  {
    forall state: Word
      ensures Next(state).0 < WORDS
    {
      WordRange(Draw(state, 0));
    }
  }

  /** A table rolled on a seed: a function of the two and nothing else. */
  method Roll(es: seq<Entry>, rolls: nat, seed: Word) returns (out: seq<Drop>)
    ensures DrawsWords(Next) && out == if Sum(es) > 0.0 then Drops(es, rolls, Next, seed) else []
  {
    SplitMixDrawsWords();
    out := RollAll(es, rolls, Next, seed);
  }

  // ---- what falls out ----

  /** A drop the table allows: a weighted entry's item, in a positive amount within its range. */
  ghost predicate Allowed(es: seq<Entry>, d: Drop) {
    exists e :: e in es && Effective(e) > 0.0 && d.item == e.item && d.count > 0 && e.min <= d.count &&
                (d.count <= e.max || d.count == e.min)
  }

  ghost predicate AllAllowed(es: seq<Entry>, ds: seq<Drop>) {
    forall d :: d in ds ==> Allowed(es, d)
  }

  /** No weighted entry's range reaches down to zero. */
  ghost predicate NeverEmpty(es: seq<Entry>) {
    forall e :: e in es && Effective(e) > 0.0 ==> e.min > 0
  }

  lemma ChosenHasWeight(es: seq<Entry>, word: nat)
    requires Sum(es) > 0.0 && word < WORDS
    ensures Chosen(es, word) in es && Effective(Chosen(es, word)) > 0.0
  {
    PickOnLine(es, word);
    var pick := Times(Unit(word), Sum(es));
    WinnerWins(es, pick);
    SelectionIsProportional(es, pick, Winner(es, pick));
  }

  lemma DroppedIsAllowed(es: seq<Entry>, e: Entry, word: nat)
    requires e in es && Effective(e) > 0.0
    ensures |Dropped(e, word)| <= 1 && AllAllowed(es, Dropped(e, word))
    ensures NeverEmpty(es) ==> |Dropped(e, word)| == 1
  {
  }

  /** At most one drop a roll, each of them allowed; a roll comes out empty only when it selects
      an entry whose range reaches down to zero. */
  lemma {:induction false} DropsAreAllowed<G(!new)>(es: seq<Entry>, rolls: nat, step: Generator<G>, g: G)
    requires Sum(es) > 0.0 && DrawsWords(step)
    ensures |Drops(es, rolls, step, g)| <= rolls
    ensures AllAllowed(es, Drops(es, rolls, step, g))
    ensures NeverEmpty(es) ==> |Drops(es, rolls, step, g)| == rolls
    decreases rolls
  {
    if rolls > 0 {
      var e, g' := Chosen(es, step(g).0), step(g).1;
      ChosenHasWeight(es, step(g).0);
      DroppedIsAllowed(es, e, if Span(e) == 0 then 0 else step(g').0);
      DropsAreAllowed(es, rolls - 1, step, RolledOnce(es, step, g).1);
    }
  }

  lemma {:induction false} WeightMakesSum(es: seq<Entry>)
    ensures Sum(es) >= 0.0
    ensures Sum(es) > 0.0 <==> exists e :: e in es && Effective(e) > 0.0
  {
    if es != [] {
      WeightMakesSum(es[..|es| - 1]);
      assert es == es[..|es| - 1] + [es[|es| - 1]];
    }
  }

  /** What a table yields from any generator: with no weighted entry, nothing; otherwise at most
      one allowed drop a roll, and exactly one when no range reaches zero. */
  lemma Yield<G(!new)>(es: seq<Entry>, rolls: nat, step: Generator<G>, g: G)
    requires DrawsWords(step)
    ensures Sum(es) > 0.0 <==> exists e :: e in es && Effective(e) > 0.0
    ensures Sum(es) > 0.0 ==>
              && |Drops(es, rolls, step, g)| <= rolls
              && AllAllowed(es, Drops(es, rolls, step, g))
              && (NeverEmpty(es) ==> |Drops(es, rolls, step, g)| == rolls)
  {
    WeightMakesSum(es);
    if Sum(es) > 0.0 {
      DropsAreAllowed(es, rolls, step, g);
    }
  }
}
