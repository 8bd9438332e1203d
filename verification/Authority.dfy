/** Stake-weighted rendezvous assignment of zones to authorities (arena-mesh). The score of a
    (session, zone) pair is any function of the candidate. */
module Authority {
  import opened Sorting
  import opened Wrappers

  datatype Candidate = Candidate(node: NodeId, stake: int)

  type Score = Candidate -> nat

  datatype Key = Key(score: nat, node: NodeId)

  function KeyOf(score: Score): Candidate -> Key {
    (c: Candidate) => Key(score(c), c.node)
  }

  /** Who comes first in the failover order: higher score, then smaller id. */
  predicate KeyLeq(a: Key, b: Key) {
    a.score > b.score || (a.score == b.score && LexLeq(a.node, b.node))
  }

  function RankLeq(score: Score): (Candidate, Candidate) -> bool {
    (a: Candidate, b: Candidate) => KeyLeq(KeyOf(score)(a), KeyOf(score)(b))
  }

  /** `a` does not beat `b` for ownership: smaller score, or equal score and smaller-or-equal id. */
  predicate Yields(a: Key, b: Key) {
    a.score < b.score || (a.score == b.score && LexLeq(a.node, b.node))
  }

  /** The candidate a left-to-right maximum scan keeps; a later equal one replaces it. */
  function Best(score: Score, cands: seq<Candidate>): (r: Candidate)
    requires cands != []
    ensures r in cands
    decreases |cands|
  {
    var n := |cands| - 1;
    if n == 0 then cands[0]
    else
      var best := Best(score, cands[..n]);
      if Yields(KeyOf(score)(best), KeyOf(score)(cands[n])) then cands[n] else best
  }

  function AssignAuthority(score: Score, cands: seq<Candidate>): Option<NodeId> {
    if cands == [] then None else Some(Best(score, cands).node)
  }

  function AuthorityRanking(score: Score, cands: seq<Candidate>): seq<NodeId> {
    Map((c: Candidate) => c.node, SortBy(cands, RankLeq(score)))
  }

  // ---- ownership ----

  ghost predicate Wins(score: Score, c: Candidate, cands: seq<Candidate>) {
    c in cands && forall d :: d in cands ==> Yields(KeyOf(score)(d), KeyOf(score)(c))
  }

  lemma {:induction false} BestWins(score: Score, cands: seq<Candidate>)
    requires cands != []
    ensures Wins(score, Best(score, cands), cands)
    decreases |cands|
  {
    LexOrder();
    var n := |cands| - 1;
    if n > 0 {
      BestWins(score, cands[..n]);
      assert cands == cands[..n] + [cands[n]];
    }
  }

  /** The owner is the node every winner carries, and there is one unless nobody stands. */
  lemma OwnerIsTheWinner(score: Score, cands: seq<Candidate>, owner: NodeId)
    ensures AssignAuthority(score, cands) == Some(owner) <==> exists c :: Wins(score, c, cands) && c.node == owner
  {
    LexOrder();
    if cands != [] {
      BestWins(score, cands);
      var b := Best(score, cands);
      forall c | Wins(score, c, cands) ensures c.node == b.node {
        assert Yields(KeyOf(score)(b), KeyOf(score)(c)) && Yields(KeyOf(score)(c), KeyOf(score)(b));
      }
    }
  }

  /** Every node computes the same owner, whatever order discovery listed the candidates in. */
  lemma OwnerIgnoresOrder(score: Score, cands: seq<Candidate>, cands': seq<Candidate>)
    requires forall c :: c in cands <==> c in cands'
    ensures AssignAuthority(score, cands) == AssignAuthority(score, cands')
  {
    assert cands != [] ==> cands[0] in cands';
    assert cands' != [] ==> cands'[0] in cands;
    if cands != [] {
      BestWins(score, cands);
      assert Wins(score, Best(score, cands), cands');
      OwnerIsTheWinner(score, cands', Best(score, cands).node);
    }
  }

  /** A newcomer takes a zone for itself or leaves its owner alone, and it takes the zone
      exactly when the incumbent's key yields to its own. */
  lemma NewcomerDisruption(score: Score, a: seq<Candidate>, x: Candidate, b: seq<Candidate>)
    requires a + b != []
    ensures AssignAuthority(score, a + [x] + b)
         == if Yields(KeyOf(score)(Best(score, a + b)), KeyOf(score)(x)) then Some(x.node)
            else AssignAuthority(score, a + b)
  {
    OwnerIgnoresOrder(score, a + [x] + b, a + b + [x]);
    assert (a + b + [x])[..|a + b|] == a + b;
  }

  lemma BetterIsBest(score: Score, s: seq<Candidate>, t: seq<Candidate>)
    requires s != [] && t != [] && Best(score, s) in t
    ensures Yields(KeyOf(score)(Best(score, s)), KeyOf(score)(Best(score, t)))
  {
    BestWins(score, t);
  }

  /** The general form, for a refresh that adds and drops any number of candidates: a zone whose
      old winner still stands and whose new winner already stood keeps its owner. So a zone moves
      only when its owner left or a newcomer took it. */
  lemma RefreshKeepsOwner(score: Score, s: seq<Candidate>, t: seq<Candidate>)
    requires s != [] && t != [] && Best(score, s) in t && Best(score, t) in s
    ensures AssignAuthority(score, s) == AssignAuthority(score, t)
  {
    LexOrder();
    BetterIsBest(score, s, t);
    BetterIsBest(score, t, s);
  }

  // ---- the failover order ----

  lemma KeyOrder()
    ensures TotalPreorder(KeyLeq)
    ensures forall a, b :: KeyLeq(a, b) && KeyLeq(b, a) ==> a == b
  {
    LexOrder();
  }

  lemma RankOrder(score: Score)
    ensures TotalPreorder(RankLeq(score))
  {
    KeyOrder();
    var leq := RankLeq(score);
    forall a, b ensures leq(a, b) || leq(b, a) {
      assert KeyLeq(KeyOf(score)(a), KeyOf(score)(b)) || KeyLeq(KeyOf(score)(b), KeyOf(score)(a));
    }
    forall a, b, c | leq(a, b) && leq(b, c) ensures leq(a, c) {
      assert KeyLeq(KeyOf(score)(a), KeyOf(score)(c));
    }
  }

  function RankKeys(score: Score, cands: seq<Candidate>): seq<Key> {
    SortBy(Map(KeyOf(score), cands), KeyLeq)
  }

  lemma RankingByKeys(score: Score, cands: seq<Candidate>)
    ensures Map(KeyOf(score), SortBy(cands, RankLeq(score))) == RankKeys(score, cands)
    ensures AuthorityRanking(score, cands) == Map((k: Key) => k.node, RankKeys(score, cands))
  {
    SortMap(cands, KeyOf(score), RankLeq(score), KeyLeq);
  }

  /** The ranking lists every candidate's node exactly as often as it stands, and it depends
      on the candidates only, not on their order - even when ids repeat with different stakes. */
  lemma RankingIsCanonicalPermutation(score: Score, cands: seq<Candidate>, cands': seq<Candidate>)
    requires multiset(cands) == multiset(cands')
    ensures AuthorityRanking(score, cands) == AuthorityRanking(score, cands')
    ensures multiset(AuthorityRanking(score, cands)) == multiset(Map((c: Candidate) => c.node, cands'))
  {
    KeyOrder();
    RankingByKeys(score, cands);
    RankingByKeys(score, cands');
    MultisetMap(cands, cands', KeyOf(score));
    SortCanonical(Map(KeyOf(score), cands), Map(KeyOf(score), cands'), KeyLeq);
    SortByPermutes(cands, RankLeq(score));
    MultisetMap(SortBy(cands, RankLeq(score)), cands', (c: Candidate) => c.node);
  }

  lemma {:induction false} InsertSplits<T>(x: T, s: seq<T>, leq: (T, T) -> bool) returns (k: nat)
    ensures k <= |s| && Insert(x, s, leq) == s[..k] + [x] + s[k..]
  {
    if s == [] || leq(x, s[0]) {
      k := 0;
    } else {
      k := InsertSplits(x, s[1..], leq);
      k := k + 1;
    }
  }

  lemma RankKeysOfNewcomer(score: Score, a: seq<Candidate>, x: Candidate, b: seq<Candidate>)
    ensures RankKeys(score, a + [x] + b) == Insert(KeyOf(score)(x), RankKeys(score, a + b), KeyLeq)
  {
    var front := [x] + (a + b);
    KeyOrder();
    assert Map(KeyOf(score), front)[1..] == Map(KeyOf(score), a + b);
    assert multiset(front) == multiset(a + [x] + b) by {
      assert multiset(a + [x] + b) == multiset(a) + multiset{x} + multiset(b);
      assert multiset(front) == multiset{x} + (multiset(a) + multiset(b));
    }
    MultisetMap(front, a + [x] + b, KeyOf(score));
    SortCanonical(Map(KeyOf(score), front), Map(KeyOf(score), a + [x] + b), KeyLeq);
  }

  lemma MapCut<T, U>(s: seq<T>, x: T, k: nat, f: T -> U)
    requires k <= |s|
    ensures Map(f, s[..k] + [x] + s[k..])[k] == f(x)
    ensures Map(f, s) == Map(f, s[..k] + [x] + s[k..])[..k] + Map(f, s[..k] + [x] + s[k..])[k+1..]
  {
  }

  /** Losing a candidate closes the gap it leaves: nobody else changes places. */
  lemma DeletionKeepsOrder(score: Score, a: seq<Candidate>, x: Candidate, b: seq<Candidate>) returns (k: nat)
    ensures k < |AuthorityRanking(score, a + [x] + b)| && AuthorityRanking(score, a + [x] + b)[k] == x.node
    ensures AuthorityRanking(score, a + b)
         == AuthorityRanking(score, a + [x] + b)[..k] + AuthorityRanking(score, a + [x] + b)[k+1..]
  {
    RankKeysOfNewcomer(score, a, x, b);
    RankingByKeys(score, a + [x] + b);
    RankingByKeys(score, a + b);
    var keys, node := RankKeys(score, a + b), (key: Key) => key.node;
    k := InsertSplits(KeyOf(score)(x), keys, KeyLeq);
    MapCut(keys, KeyOf(score)(x), k, node);
  }

  lemma HeadIsInFront<T>(s: seq<T>, k: nat)
    requires k < |s|
    ensures k > 0 ==> s[0] in s[..k]
  {
    if k > 0 { assert s[..k][0] == s[0]; }
  }

  lemma NotRanked(score: Score, cands: seq<Candidate>, n: NodeId)
    requires forall c :: c in cands ==> c.node != n
    ensures n !in AuthorityRanking(score, cands)
  {
    var s := SortBy(cands, RankLeq(score));
    SortByPermutes(cands, RankLeq(score));
    forall i | 0 <= i < |s| ensures s[i].node != n { assert s[i] in cands; }
  }

  /** With distinct ids, when the primary drops out the runner-up adopts the zone. */
  lemma FailoverPromotesSecond(score: Score, a: seq<Candidate>, x: Candidate, b: seq<Candidate>)
    requires forall c :: c in a + b ==> c.node != x.node
    requires [x.node] <= AuthorityRanking(score, a + [x] + b)
    ensures AuthorityRanking(score, a + [x] + b) == [x.node] + AuthorityRanking(score, a + b)
  {
    var k := DeletionKeepsOrder(score, a, x, b);
    var r, r' := AuthorityRanking(score, a + [x] + b), AuthorityRanking(score, a + b);
    NotRanked(score, a + b, x.node);
    HeadIsInFront(r, k);
    assert x.node !in r[..k];
    assert k == 0;
    assert r[..0] + r[1..] == r[1..];
  }

  ghost predicate HasTopScore(score: Score, c: Candidate, cands: seq<Candidate>) {
    forall e :: e in cands ==> score(e) <= score(c)
  }

  /** Head of the ranking versus owner. The two comparators break ties in opposite
      directions, so they name the same node exactly when all candidates holding the top
      score carry one node id. */
  lemma HeadIsOwnerIff(score: Score, cands: seq<Candidate>)
    requires cands != []
    ensures |AuthorityRanking(score, cands)| == |cands|
    ensures Some(AuthorityRanking(score, cands)[0]) == AssignAuthority(score, cands)
       <==> forall c, d :: c in cands && d in cands && HasTopScore(score, c, cands) && HasTopScore(score, d, cands)
                           ==> c.node == d.node
  {
    LexOrder();
    KeyOrder();
    var leq := RankLeq(score);
    RankOrder(score);
    var s := SortBy(cands, leq);
    SortBySorted(cands, leq);
    SortByPermutes(cands, leq);
    BestWins(score, cands);
    var top, b := s[0], Best(score, cands);
    assert top in cands;
    forall e | e in cands ensures leq(top, e) { assert e in s; assert leq(top, top); }
    assert leq(top, b) && Yields(KeyOf(score)(top), KeyOf(score)(b));
    if top.node == b.node {
      forall c, d | c in cands && d in cands && HasTopScore(score, c, cands) && HasTopScore(score, d, cands)
        ensures c.node == d.node
      {
        assert leq(top, c) && leq(top, d) && Yields(KeyOf(score)(c), KeyOf(score)(b)) &&
               Yields(KeyOf(score)(d), KeyOf(score)(b));
      }
    }
  }

  // ---- the router ----

  lemma Joins(score: Score, before: seq<Candidate>, next: seq<Candidate>, x: Candidate)
    requires AddsOnly(before, next, x)
    ensures AssignAuthority(score, next) in {AssignAuthority(score, before), Some(x.node)}
  {
    OwnerIgnoresOrder(score, next, before + [x] + []);
    if before != [] {
      assert before + [] == before;
      NewcomerDisruption(score, before, x, []);
    }
  }

  /** One node's routing view for a session; `hrw` is the session's score of (zone, candidate). */
  class ZoneRouter<Zone(!new)> {
    const hrw: (Zone, Candidate) -> nat
    var candidates: seq<Candidate>

    constructor (hrw: (Zone, Candidate) -> nat, candidates: seq<Candidate>)
      ensures this.hrw == hrw && this.candidates == candidates
    {
      this.hrw, this.candidates := hrw, candidates;
    }

    function ZoneScore(zone: Zone): Score {
      (c: Candidate) => hrw(zone, c)
    }

    function AuthorityFor(zone: Zone): Option<NodeId>
      reads this
    {
      AssignAuthority(ZoneScore(zone), candidates)
    }

    function RankingFor(zone: Zone): seq<NodeId>
      reads this
    {
      AuthorityRanking(ZoneScore(zone), candidates)
    }

    /** Swapping in a refreshed list. A zone that changes hands lost its owner or went to a
        newcomer; with one newcomer and nobody gone, it went to that one; and a list that is only
        rearranged does not change the failover order either. */
    method UpdateCandidates(next: seq<Candidate>)
      modifies this
      ensures candidates == next
      ensures forall zone :: Stays(ZoneScore(zone), old(candidates), next) ==>
                AuthorityFor(zone) == old(AuthorityFor(zone))
      ensures forall x, zone :: AddsOnly(old(candidates), next, x) ==>
                AuthorityFor(zone) == old(AuthorityFor(zone)) || AuthorityFor(zone) == Some(x.node)
      ensures forall zone :: multiset(next) == multiset(old(candidates)) ==>
                RankingFor(zone) == old(RankingFor(zone))
    {
      forall zone | Stays(ZoneScore(zone), candidates, next)
        ensures AssignAuthority(ZoneScore(zone), next) == AuthorityFor(zone)
      {
        RefreshKeepsOwner(ZoneScore(zone), candidates, next);
      }
      forall x, zone | AddsOnly(candidates, next, x)
        ensures AssignAuthority(ZoneScore(zone), next) in {AuthorityFor(zone), Some(x.node)}
      {
        Joins(ZoneScore(zone), candidates, next, x);
      }
      forall zone | multiset(next) == multiset(candidates)
        ensures AuthorityRanking(ZoneScore(zone), next) == RankingFor(zone)
      {
        RankingIsCanonicalPermutation(ZoneScore(zone), next, candidates);
      }
      candidates := next;
    }
  }

  /** The winner before the refresh still stands and the winner after it already stood. */
  ghost predicate Stays(score: Score, before: seq<Candidate>, next: seq<Candidate>) {
    before != [] && next != [] && Best(score, before) in next && Best(score, next) in before
  }

  ghost predicate AddsOnly(before: seq<Candidate>, next: seq<Candidate>, x: Candidate) {
    forall c :: c in next <==> c in before || c == x
  }
}
