/** State-hash consensus between the replicas of a zone (arena-replica). A 32-byte hash is
    the natural number its bytes spell, most significant first. */
module Quorum {
  import opened Protocol
  import opened Sorting
  import opened Wrappers

  type Proof = (NodeId, Hash)

  datatype Agreement = Agreement(quorumHash: Option<Hash>, agree: seq<NodeId>, dissent: seq<NodeId>, hasQuorum: bool)

  datatype Verdict = Inconclusive | Agreed | ResyncTo(hash: Hash) | PeersDiverged(nodes: seq<NodeId>)

  function Count(proofs: seq<Proof>, h: Hash): nat {
    if proofs == [] then 0
    else Count(proofs[..|proofs|-1], h) + if proofs[|proofs|-1].1 == h then 1 else 0
  }

  /** The nodes whose proof carries `h`, or those whose proof does not. */
  function Nodes(proofs: seq<Proof>, h: Hash, matching: bool): seq<NodeId> {
    if proofs == [] then []
    else
      var p := proofs[|proofs|-1];
      Nodes(proofs[..|proofs|-1], h, matching) + if (p.1 == h) == matching then [p.0] else []
  }

  /** Most frequent, and among the most frequent the smallest. */
  ghost predicate IsWinner(proofs: seq<Proof>, w: Hash) {
    forall h: Hash :: Count(proofs, h) < Count(proofs, w) || (Count(proofs, h) == Count(proofs, w) && w <= h)
  }

  ghost predicate IsAgreement(proofs: seq<Proof>, a: Agreement) {
    if proofs == [] then a == Agreement(None, [], [], false)
    else
      && a.quorumHash.Some?
      && var w := a.quorumHash.value;
      && IsWinner(proofs, w)
      && a.hasQuorum == (Count(proofs, w) * 2 > |proofs|)
      && a.agree == SortBy(Nodes(proofs, w, true), LexLeq)
      && a.dissent == SortBy(Nodes(proofs, w, false), LexLeq)
  }

  lemma {:induction false} CountBound(proofs: seq<Proof>, h: Hash)
    ensures Count(proofs, h) <= |proofs|
    ensures Count(proofs, h) > 0 <==> exists p :: p in proofs && p.1 == h
  {
    if proofs != [] {
      var front := proofs[..|proofs|-1];
      CountBound(front, h);
      assert proofs == front + [proofs[|proofs|-1]];
    }
  }

  method Tally(proofs: seq<Proof>) returns (counts: map<Hash, nat>)
    ensures forall h: Hash :: h in counts <==> Count(proofs, h) > 0
    ensures forall h :: h in counts ==> counts[h] == Count(proofs, h)
  {
    counts := map[];
    for i := 0 to |proofs|
      invariant forall h: Hash :: h in counts <==> Count(proofs[..i], h) > 0
      invariant forall h :: h in counts ==> counts[h] == Count(proofs[..i], h)
    {
      assert proofs[..i+1][..i] == proofs[..i];
      var h := proofs[i].1;
      counts := counts[h := (if h in counts then counts[h] else 0) + 1];
    }
    assert proofs[..|proofs|] == proofs;
  }

  /** Walks the hashes in ascending order; a later one must beat the best, not tie with it. */
  method PickWinner(counts: map<Hash, nat>) returns (winner: Hash, top: nat)
    requires counts != map[]
    requires forall h :: h in counts ==> counts[h] > 0
    ensures winner in counts && counts[winner] == top
    ensures forall h :: h in counts ==> counts[h] < top || (counts[h] == top && winner <= h)
  {
    winner, top := 0, 0;
    var todo := counts.Keys;
    while todo != {}
      invariant todo <= counts.Keys
      invariant forall h, k :: h in counts && h !in todo && k in todo ==> h < k
      invariant forall h :: h in counts && h !in todo ==> counts[h] < top || (counts[h] == top && winner <= h)
      invariant top == 0 ==> todo == counts.Keys
      invariant top > 0 ==> winner in counts && winner !in todo && counts[winner] == top
      decreases todo
    {
      var h := TakeSmallest(todo);
      todo := todo - {h};
      if counts[h] > top {
        winner, top := h, counts[h];
      }
    }
  }

  method TakeSmallest(s: set<nat>) returns (h: nat)
    requires s != {}
    ensures h in s && forall k :: k in s ==> h <= k
  {
    ghost var least := Smallest(s);
    h :| h in s && forall k :: k in s ==> h <= k;
  }

  method Agree(proofs: seq<Proof>) returns (a: Agreement)
    ensures IsAgreement(proofs, a)
  {
    if proofs == [] {
      return Agreement(None, [], [], false);
    }
    var counts := Tally(proofs);
    assert counts != map[] by {
      CountBound(proofs, proofs[0].1);
      assert proofs[0].1 in counts;
    }
    var winner, top := PickWinner(counts);
    assert IsWinner(proofs, winner) by {
      forall h: Hash ensures Count(proofs, h) < top || (Count(proofs, h) == top && winner <= h) {
        assert h in counts || Count(proofs, h) == 0;
      }
    }
    var agree, dissent := [], [];
    for i := 0 to |proofs|
      invariant agree == Nodes(proofs[..i], winner, true)
      invariant dissent == Nodes(proofs[..i], winner, false)
    {
      assert proofs[..i+1][..i] == proofs[..i];
      if proofs[i].1 == winner { agree := agree + [proofs[i].0]; } else { dissent := dissent + [proofs[i].0]; }
    }
    assert proofs[..|proofs|] == proofs;
    a := Agreement(Some(winner), SortBy(agree, LexLeq), SortBy(dissent, LexLeq), top * 2 > |proofs|);
  }

  /** What a node does about an agreement. */
  function VerdictFor(a: Agreement, node: NodeId): Verdict {
    if !a.hasQuorum then Inconclusive
    else if a.dissent == [] then Agreed
    else if node in a.dissent then (if a.quorumHash.Some? then ResyncTo(a.quorumHash.value) else Inconclusive)
    else PeersDiverged(a.dissent)
  }

  // ---- what consensus guarantees ----

  lemma {:induction false} TwoCounts(proofs: seq<Proof>, g: Hash, h: Hash)
    requires g != h
    ensures Count(proofs, g) + Count(proofs, h) <= |proofs|
  {
    if proofs != [] { TwoCounts(proofs[..|proofs|-1], g, h); }
  }

  /** A quorum is reached exactly when some hash has a strict majority, and then that hash is
      the one agreed on: no minority and no tie can outvote it. */
  lemma QuorumIffStrictMajority(proofs: seq<Proof>, a: Agreement)
    requires IsAgreement(proofs, a)
    ensures a.hasQuorum <==> exists h: Hash :: Count(proofs, h) * 2 > |proofs|
    ensures forall h: Hash :: Count(proofs, h) * 2 > |proofs| ==> a.quorumHash == Some(h)
  {
    if a.hasQuorum { assert Count(proofs, a.quorumHash.value) * 2 > |proofs|; }
    forall h: Hash | Count(proofs, h) * 2 > |proofs| ensures a.hasQuorum && a.quorumHash == Some(h) {
      CountBound(proofs, h);
      var w := a.quorumHash.value;
      if w != h { TwoCounts(proofs, w, h); }
    }
  }

  lemma {:induction false} NodesMembers(proofs: seq<Proof>, h: Hash, matching: bool, n: NodeId)
    ensures n in Nodes(proofs, h, matching) <==> exists p :: p in proofs && p.0 == n && (p.1 == h) == matching
  {
    if proofs != [] {
      var front, last := proofs[..|proofs|-1], proofs[|proofs|-1];
      NodesMembers(front, h, matching, n);
      assert proofs == front + [last];
      assert forall p :: p in proofs <==> p in front || p == last;
    }
  }

  /** A node is told to resync exactly when a strict majority agrees on that hash and the node
      itself published another one. So a node that published the majority's hash, and nothing
      else, is never overruled, however the others vote. */
  lemma ResyncIff(proofs: seq<Proof>, a: Agreement, node: NodeId, h: Hash)
    requires IsAgreement(proofs, a)
    ensures VerdictFor(a, node) == ResyncTo(h)
       <==> Count(proofs, h) * 2 > |proofs| && exists p :: p in proofs && p.0 == node && p.1 != h
  {
    QuorumIffStrictMajority(proofs, a);
    if proofs != [] {
      var w := a.quorumHash.value;
      NodesMembers(proofs, w, false, node);
      SortByPermutes(Nodes(proofs, w, false), LexLeq);
    } else {
      CountBound(proofs, h);
    }
  }

  ghost predicate Majority(proofs: seq<Proof>, h: Hash) { Count(proofs, h) * 2 > |proofs| }

  /** The node published something else. */
  ghost predicate Strays(proofs: seq<Proof>, h: Hash, node: NodeId) {
    exists p :: p in proofs && p.0 == node && p.1 != h
  }

  lemma DissentIff(proofs: seq<Proof>, a: Agreement, h: Hash)
    requires IsAgreement(proofs, a) && a.quorumHash == Some(h)
    ensures SortedBy(a.dissent, LexLeq) && forall n :: n in a.dissent <==> Strays(proofs, h, n)
    ensures a.dissent == [] <==> forall p :: p in proofs ==> p.1 == h
  {
    var dissent := Nodes(proofs, h, false);
    LexOrder();
    SortBySorted(dissent, LexLeq);
    SortByPermutes(dissent, LexLeq);
    forall n ensures n in a.dissent <==> Strays(proofs, h, n) { NodesMembers(proofs, h, false, n); }
    if p :| p in proofs && p.1 != h { assert Strays(proofs, h, p.0); }
    if a.dissent != [] { assert a.dissent[0] in a.dissent; }
  }

  /** The other three verdicts: no majority, no verdict; a majority without a dissenter, agreement;
      and whoever is with the majority is handed exactly the nodes that strayed from it, in order. */
  lemma VerdictIff(proofs: seq<Proof>, a: Agreement, node: NodeId)
    requires IsAgreement(proofs, a)
    ensures VerdictFor(a, node) == Inconclusive <==> forall h: Hash :: !Majority(proofs, h)
    ensures forall h: Hash :: Majority(proofs, h) ==>
              (VerdictFor(a, node) == Agreed <==> forall p :: p in proofs ==> p.1 == h)
    ensures forall h: Hash :: Majority(proofs, h) ==>
              (VerdictFor(a, node).PeersDiverged? <==>
               !Strays(proofs, h, node) && exists n :: Strays(proofs, h, n))
    ensures forall h: Hash :: Majority(proofs, h) && VerdictFor(a, node).PeersDiverged? ==>
              var ns := VerdictFor(a, node).nodes;
              SortedBy(ns, LexLeq) && forall n :: n in ns <==> Strays(proofs, h, n)
  {
    QuorumIffStrictMajority(proofs, a);
    assert a.hasQuorum ==> Majority(proofs, a.quorumHash.value);
    if h: Hash :| Majority(proofs, h) {
      CountBound(proofs, h);
      DissentIff(proofs, a, h);
      assert forall g: Hash :: Majority(proofs, g) ==> g == h;
      if a.dissent != [] { assert Strays(proofs, h, a.dissent[0]); }
    }
  }

  lemma TakeLast(s: seq<Proof>, t: seq<Proof>) returns (k: nat)
    requires s != [] && multiset(s) == multiset(t)
    ensures k < |t| && t[k] == s[|s|-1]
    ensures multiset(s[..|s|-1]) == multiset(t[..k] + t[k+1..])
  {
    var n := |s| - 1;
    assert s[n] in multiset(t);
    k :| 0 <= k < |t| && t[k] == s[n];
    OneOut(t, k);
    OneOut(s, n);
    assert s[..n] + s[n+1..] == s[..n];
    Cancel(multiset(s[..n]), multiset(t[..k] + t[k+1..]), s[n]);
  }

  lemma CutFront(s: seq<Proof>, k: nat)
    requires k + 1 < |s|
    ensures s[..k] + s[k+1..] == (s[..|s|-1][..k] + s[..|s|-1][k+1..]) + [s[|s|-1]]
  {
    assert s == s[..|s|-1] + [s[|s|-1]];
  }

  lemma NodesAppend(s: seq<Proof>, x: Proof, h: Hash, matching: bool)
    ensures Nodes(s + [x], h, matching) == Nodes(s, h, matching) + if (x.1 == h) == matching then [x.0] else []
  {
    assert (s + [x])[..|s|] == s;
  }

  function Listed(p: Proof, h: Hash, matching: bool): multiset<NodeId> {
    if (p.1 == h) == matching then multiset{p.0} else multiset{}
  }

  lemma {:induction false} NodesSplit(proofs: seq<Proof>, k: nat, h: Hash, matching: bool)
    requires k < |proofs|
    ensures multiset(Nodes(proofs, h, matching)) ==
            multiset(Nodes(proofs[..k] + proofs[k+1..], h, matching)) + Listed(proofs[k], h, matching)
  {
    var last := |proofs| - 1;
    if k == last {
      assert proofs[..k] + proofs[k+1..] == proofs[..last];
    } else {
      NodesSplit(proofs[..last], k, h, matching);
      CutFront(proofs, k);
      NodesAppend(proofs[..last][..k] + proofs[..last][k+1..], proofs[last], h, matching);
    }
  }

  lemma {:induction false} NodesByContents(proofs: seq<Proof>, proofs': seq<Proof>, h: Hash, matching: bool)
    requires multiset(proofs) == multiset(proofs')
    ensures multiset(Nodes(proofs, h, matching)) == multiset(Nodes(proofs', h, matching))
    decreases |proofs|
  {
    assert |proofs| == |multiset(proofs)| == |multiset(proofs')| == |proofs'|;
    if proofs != [] {
      var n := |proofs| - 1;
      var k := TakeLast(proofs, proofs');
      NodesByContents(proofs[..n], proofs'[..k] + proofs'[k+1..], h, matching);
      NodesSplit(proofs', k, h, matching);
    }
  }

  lemma {:induction false} CountIsNodes(proofs: seq<Proof>, h: Hash)
    ensures Count(proofs, h) == |multiset(Nodes(proofs, h, true))|
  {
    if proofs != [] {
      CountIsNodes(proofs[..|proofs|-1], h);
    }
  }

  lemma CountByContents(proofs: seq<Proof>, proofs': seq<Proof>, h: Hash)
    requires multiset(proofs) == multiset(proofs')
    ensures Count(proofs, h) == Count(proofs', h)
  {
    CountIsNodes(proofs, h);
    CountIsNodes(proofs', h);
    NodesByContents(proofs, proofs', h, true);
  }

  /** Every replica that collected the same proofs reaches the same agreement, whatever order
      they came in. */
  lemma AgreementIsCanonical(proofs: seq<Proof>, proofs': seq<Proof>, a: Agreement, a': Agreement)
    requires multiset(proofs) == multiset(proofs')
    requires IsAgreement(proofs, a) && IsAgreement(proofs', a')
    ensures a == a'
  {
    assert |proofs| == |multiset(proofs)| == |multiset(proofs')| == |proofs'|;
    if proofs != [] {
      var w, w' := a.quorumHash.value, a'.quorumHash.value;
      CountByContents(proofs, proofs', w);
      CountByContents(proofs, proofs', w');
      assert w == w';
      LexOrder();
      SameNodes(proofs, proofs', w, true);
      SameNodes(proofs, proofs', w, false);
    }
  }

  lemma SameNodes(proofs: seq<Proof>, proofs': seq<Proof>, h: Hash, matching: bool)
    requires multiset(proofs) == multiset(proofs')
    ensures SortBy(Nodes(proofs, h, matching), LexLeq) == SortBy(Nodes(proofs', h, matching), LexLeq)
  {
    LexOrder();
    NodesByContents(proofs, proofs', h, matching);
    SortCanonical(Nodes(proofs, h, matching), Nodes(proofs', h, matching), LexLeq);
  }
}
