/** Cross-validation of zone authorities (arena-karma): claims, votes, disputes. A run is a sequence
    of calls; everything the validator decides is tied back to that sequence. */
module CrossVal {
  import opened Protocol
  import opened Sorting
  import opened Wrappers

  type Key = (Zone, Tick)

  const REASSIGN_DISPUTE_THRESHOLD := 1
  const SLASH_DISPUTE_THRESHOLD := 3
  const MIN_VERIFIERS := 3

  datatype Claim = Claim(authority: NodeId, resultHash: Hash)

  datatype Verdict = Verdict(authority: NodeId, disputedTicks: seq<Tick>, recommendSlash: bool, recommendReassign: bool)

  /** The smallest whole number that is at least two thirds of `n`. */
  function Quorum(n: nat): (q: nat)
    ensures 2 * n <= 3 * q < 2 * n + 3
  {
    (2 * n + 2) / 3
  }

  datatype Op =
    | RecordClaim(key: Key, claim: Claim)
    | RecordVote(key: Key, verifier: NodeId, agree: bool, theirHash: Hash)
    | Resolve(key: Key)

  // ---- the validator's state ----

  datatype State = State(
    claims: map<Key, Claim>,
    tallies: map<Key, map<NodeId, bool>>,
    disputed: map<NodeId, set<Tick>>,
    resolved: set<Key>)

  const EMPTY := State(map[], map[], map[], {})

  function Votes(s: State, k: Key): map<NodeId, bool> { if k in s.tallies then s.tallies[k] else map[] }

  function DisputedOf(s: State, a: NodeId): set<Tick> { if a in s.disputed then s.disputed[a] else {} }

  function Dissenting(votes: map<NodeId, bool>): set<NodeId> { set v | v in votes && !votes[v] }

  /** A vote counts as agreement only if the flag says so and the hash, when a claim is
      already known, matches it. */
  function Agreed(claims: map<Key, Claim>, k: Key, agree: bool, theirHash: Hash): bool {
    agree && (k in claims ==> claims[k].resultHash == theirHash)
  }

  /** Enough votes are in to decide a claim. */
  predicate Decidable(s: State, k: Key, q: nat) {
    k in s.claims && k in s.tallies && |s.tallies[k]| >= q
  }

  function Step(s: State, op: Op, q: nat): State {
    match op
    case RecordClaim(k, c) => s.(claims := s.claims[k := c])
    case RecordVote(k, v, agree, h) => s.(tallies := s.tallies[k := Votes(s, k)[v := Agreed(s.claims, k, agree, h)]])
    case Resolve(k) =>
      if !Decidable(s, k, q) then s
      else
        var a := s.claims[k].authority;
        s.(disputed := if |Dissenting(s.tallies[k])| >= q && k !in s.resolved
                       then s.disputed[a := DisputedOf(s, a) + {k.1}] else s.disputed,
           resolved := s.resolved + {k})
  }

  function Run(ops: seq<Op>, q: nat): State {
    if ops == [] then EMPTY else Step(Run(ops[..|ops|-1], q), ops[|ops|-1], q)
  }

  // ---- the same, read off the sequence of calls ----

  /** The claim last recorded for `k`. */
  function Claimed(ops: seq<Op>, k: Key): Option<Claim> {
    if ops == [] then None
    else
      var op := ops[|ops|-1];
      if op.RecordClaim? && op.key == k then Some(op.claim) else Claimed(ops[..|ops|-1], k)
  }

  /** How `v`'s last vote on `k` was judged, against the claim known when it arrived. */
  function Judged(ops: seq<Op>, k: Key, v: NodeId): Option<bool> {
    if ops == [] then None
    else
      var before, op := ops[..|ops|-1], ops[|ops|-1];
      if op.RecordVote? && op.key == k && op.verifier == v then
        var c := Claimed(before, k);
        Some(op.agree && (c.Some? ==> c.value.resultHash == op.theirHash))
      else Judged(before, k, v)
  }

  function Everyone(ops: seq<Op>): set<NodeId> {
    set i | 0 <= i < |ops| && ops[i].RecordVote? :: ops[i].verifier
  }

  function Voters(ops: seq<Op>, k: Key): set<NodeId> {
    set v | v in Everyone(ops) && Judged(ops, k, v).Some?
  }

  function Dissenters(ops: seq<Op>, k: Key): set<NodeId> {
    set v | v in Everyone(ops) && Judged(ops, k, v) == Some(false)
  }

  /** Call `i` resolves a key that has a claim and a quorum of votes. */
  predicate Decides(ops: seq<Op>, i: nat, q: nat)
    requires i < |ops|
  {
    ops[i].Resolve? && Claimed(ops[..i], ops[i].key).Some? && |Voters(ops[..i], ops[i].key)| >= q
  }

  predicate DecidesKey(ops: seq<Op>, i: nat, k: Key, q: nat)
    requires i < |ops|
  {
    Decides(ops, i, q) && ops[i].key == k
  }

  /** Call `i` is the first to decide its key, and it decides against authority `a`. */
  ghost predicate Disputes(ops: seq<Op>, i: nat, a: NodeId, q: nat)
    requires i < |ops|
  {
    && Decides(ops, i, q)
    && (forall j: nat :: j < i ==> !DecidesKey(ops, j, ops[i].key, q))
    && Claimed(ops[..i], ops[i].key).value.authority == a
    && |Dissenters(ops[..i], ops[i].key)| >= q
  }

  lemma {:induction false} VotedIsEveryone(ops: seq<Op>, k: Key, v: NodeId)
    ensures Judged(ops, k, v).Some? ==> v in Everyone(ops)
  {
    if ops != [] {
      var n := |ops| - 1;
      VotedIsEveryone(ops[..n], k, v);
      if v in Everyone(ops[..n]) {
        var i :| 0 <= i < n && ops[..n][i].RecordVote? && ops[..n][i].verifier == v;
        assert ops[i].verifier == v;
      } else if ops[n].RecordVote? && ops[n].verifier == v {
        assert v in Everyone(ops);
      }
    }
  }

  /** Claims and tallies are exactly what the calls say. */
  lemma {:induction false} StateReadsOff(ops: seq<Op>, q: nat, k: Key)
    ensures Claimed(ops, k) == if k in Run(ops, q).claims then Some(Run(ops, q).claims[k]) else None
    ensures forall v :: Judged(ops, k, v) == if v in Votes(Run(ops, q), k) then Some(Votes(Run(ops, q), k)[v]) else None
    ensures k in Run(ops, q).tallies <==> Votes(Run(ops, q), k) != map[]
  {
    if ops != [] {
      StateReadsOff(ops[..|ops|-1], q, k);
      var op := ops[|ops|-1];
      if op.RecordVote? && op.key == k {
        assert op.verifier in Votes(Run(ops, q), k);
      }
    }
  }

  lemma VotesReadOff(ops: seq<Op>, q: nat, k: Key)
    ensures Votes(Run(ops, q), k).Keys == Voters(ops, k)
    ensures Dissenting(Votes(Run(ops, q), k)) == Dissenters(ops, k)
  {
    StateReadsOff(ops, q, k);
    forall v ensures v in Votes(Run(ops, q), k) <==> v in Voters(ops, k) { VotedIsEveryone(ops, k, v); }
    forall v ensures v in Dissenting(Votes(Run(ops, q), k)) <==> v in Dissenters(ops, k) { VotedIsEveryone(ops, k, v); }
  }

  lemma DecidableReadsOff(ops: seq<Op>, i: nat, q: nat)
    requires i < |ops| && ops[i].Resolve? && q > 0
    ensures var s, k := Run(ops[..i], q), ops[i].key;
            && (Decides(ops, i, q) <==> Decidable(s, k, q))
            && (Decidable(s, k, q) ==>
                Claimed(ops[..i], k) == Some(s.claims[k]) && Dissenting(s.tallies[k]) == Dissenters(ops[..i], k))
  {
    var s, k := Run(ops[..i], q), ops[i].key;
    StateReadsOff(ops[..i], q, k);
    VotesReadOff(ops[..i], q, k);
    assert |Votes(s, k)| == |Votes(s, k).Keys|;
  }

  /** What happened stays as it was. */
  lemma SamePast(ops: seq<Op>, more: seq<Op>, i: nat, a: NodeId, q: nat)
    requires i < |ops|
    ensures Decides(ops + more, i, q) == Decides(ops, i, q)
    ensures Disputes(ops + more, i, a, q) == Disputes(ops, i, a, q)
  {
    forall j: nat | j <= i ensures (ops + more)[j] == ops[j] && (ops + more)[..j] == ops[..j] {}
    assert forall j: nat :: j <= i ==> Decides(ops + more, j, q) == Decides(ops, j, q);
    assert forall j: nat :: j < i ==> DecidesKey(ops + more, j, ops[i].key, q) == DecidesKey(ops, j, ops[i].key, q);
  }

  ghost predicate SomeDecides(ops: seq<Op>, k: Key, q: nat) {
    exists i: nat :: i < |ops| && DecidesKey(ops, i, k, q)
  }

  ghost predicate SomeDisputes(ops: seq<Op>, a: NodeId, t: Tick, q: nat) {
    exists i: nat :: i < |ops| && ops[i].Resolve? && ops[i].key.1 == t && Disputes(ops, i, a, q)
  }

  lemma OneMoreCall(ops: seq<Op>, op: Op, k: Key, a: NodeId, t: Tick, q: nat)
    ensures SomeDecides(ops + [op], k, q) <==> SomeDecides(ops, k, q) || DecidesKey(ops + [op], |ops|, k, q)
    ensures SomeDisputes(ops + [op], a, t, q) <==>
              SomeDisputes(ops, a, t, q) || (op.Resolve? && op.key.1 == t && Disputes(ops + [op], |ops|, a, q))
  {
    var all := ops + [op];
    forall i: nat | i < |ops|
      ensures all[i] == ops[i] && Disputes(all, i, a, q) == Disputes(ops, i, a, q) &&
              DecidesKey(all, i, k, q) == DecidesKey(ops, i, k, q)
    {
      SamePast(ops, [op], i, a, q);
    }
  }

  /** The whole-run theorem. A key counts as resolved exactly when some call decided it, and a
      tick counts against an authority exactly when the first call to decide some zone at that
      tick found the authority's claim standing and at least a quorum of distinct verifiers
      whose latest vote disagreed. */
  lemma {:induction false} RunReadsOff(ops: seq<Op>, q: nat, k: Key, a: NodeId, t: Tick)
    requires q > 0
    ensures k in Run(ops, q).resolved <==> SomeDecides(ops, k, q)
    ensures t in DisputedOf(Run(ops, q), a) <==> SomeDisputes(ops, a, t, q)
  {
    if ops != [] {
      var n := |ops| - 1;
      var before, op := ops[..n], ops[n];
      assert ops == before + [op];
      RunReadsOff(before, q, k, a, t);
      OneMoreCall(before, op, k, a, t, q);
      if op.Resolve? {
        RunReadsOff(before, q, op.key, a, t);
        DecidableReadsOff(ops, n, q);
        FirstHere(before, op, q);
      }
    }
  }

  lemma FirstHere(ops: seq<Op>, op: Op, q: nat)
    requires op.Resolve?
    ensures SomeDecides(ops, op.key, q) <==> !(forall j: nat :: j < |ops| ==> !DecidesKey(ops + [op], j, op.key, q))
  {
    forall j: nat | j < |ops| ensures DecidesKey(ops + [op], j, op.key, q) == DecidesKey(ops, j, op.key, q) {
      SamePast(ops, [op], j, "", q);
    }
  }

  // ---- consequences ----

  /** Disputes only accumulate, and so do both recommendations. */
  lemma {:induction false} DisputesOnlyGrow(ops: seq<Op>, more: seq<Op>, q: nat, a: NodeId)
    ensures DisputedOf(Run(ops, q), a) <= DisputedOf(Run(ops + more, q), a)
    ensures |DisputedOf(Run(ops, q), a)| <= |DisputedOf(Run(ops + more, q), a)|
    decreases |more|
  {
    if more == [] {
      assert ops + more == ops;
    } else {
      var n := |more| - 1;
      DisputesOnlyGrow(ops, more[..n], q, a);
      assert (ops + more)[..|ops + more|-1] == ops + more[..n];
    }
    SubsetSize(DisputedOf(Run(ops, q), a), DisputedOf(Run(ops + more, q), a));
  }

  lemma {:induction false} SubsetSize<T>(s: set<T>, t: set<T>)
    requires s <= t
    ensures |s| <= |t|
  {
    assert t == s + (t - s);
  }

  /** Once a key is decided, nothing that follows - votes, claims, further resolves - adds a
      dispute through it. */
  lemma DecidedKeysAreFinal(ops: seq<Op>, more: seq<Op>, i: nat, a: NodeId, q: nat)
    requires |ops| <= i < |ops + more| && (ops + more)[i].Resolve?
    requires SomeDecides(ops, (ops + more)[i].key, q)
    ensures !Disputes(ops + more, i, a, q)
  {
    var k := (ops + more)[i].key;
    var j: nat :| j < |ops| && DecidesKey(ops, j, k, q);
    SamePast(ops, more, j, a, q);
    assert DecidesKey(ops + more, j, k, q);
  }

  /** The last vote a verifier cast on a key: its flag and its hash. */
  function LastVote(ops: seq<Op>, k: Key, v: NodeId): Option<(bool, Hash)> {
    if ops == [] then None
    else
      var op := ops[|ops|-1];
      if op.RecordVote? && op.key == k && op.verifier == v then Some((op.agree, op.theirHash))
      else LastVote(ops[..|ops|-1], k, v)
  }

  /** The claim that stood when a verifier last voted on a key: the one its vote was held against. */
  function HeldAgainst(ops: seq<Op>, k: Key, v: NodeId): Option<Claim> {
    if ops == [] then None
    else
      var before, op := ops[..|ops|-1], ops[|ops|-1];
      if op.RecordVote? && op.key == k && op.verifier == v then Claimed(before, k) else HeldAgainst(before, k, v)
  }

  /** What a flag and a hash amount to beside a claim, if there is one. */
  predicate Confirms(vote: (bool, Hash), claim: Option<Claim>) {
    vote.0 && (claim.Some? ==> claim.value.resultHash == vote.1)
  }

  /** Over every run a verifier's judgement is its last vote beside the claim of that moment,
      whatever claim stands by now. */
  lemma {:induction false} JudgementReadsOff(ops: seq<Op>, k: Key, v: NodeId)
    ensures Judged(ops, k, v) == match LastVote(ops, k, v)
                                 case None => None
                                 case Some(vote) => Some(Confirms(vote, HeldAgainst(ops, k, v)))
  {
    if ops != [] {
      JudgementReadsOff(ops[..|ops|-1], k, v);
    }
  }

  /** So the hashes are the ground truth - a vote counts against the standing claim exactly when its
      flag or its hash says so - unless a vote flagged as agreement met, in its moment, a claim that
      its hash answered otherwise, or no claim at all and its hash is wrong. */
  lemma HashesAreTruthIff(ops: seq<Op>, k: Key, v: NodeId)
    requires Claimed(ops, k).Some? && LastVote(ops, k, v).Some?
    ensures var vote, met, now := LastVote(ops, k, v).value, HeldAgainst(ops, k, v), Claimed(ops, k);
            Judged(ops, k, v) == Some(Confirms(vote, now)) <==>
            (vote.0 ==> ((met.None? || met.value.resultHash == vote.1) <==> now.value.resultHash == vote.1))
  {
    JudgementReadsOff(ops, k, v);
  }

  /** Every claim recorded on the key carries the hash `h`. */
  predicate OneHash(ops: seq<Op>, k: Key, h: Hash) {
    forall o :: o in ops && o.RecordClaim? && o.key == k ==> o.claim.resultHash == h
  }

  lemma {:induction false} ClaimsCarryHash(ops: seq<Op>, k: Key, h: Hash, v: NodeId)
    requires OneHash(ops, k, h)
    ensures Claimed(ops, k).Some? ==> Claimed(ops, k).value.resultHash == h
    ensures HeldAgainst(ops, k, v).Some? ==> HeldAgainst(ops, k, v).value.resultHash == h
  {
    if ops != [] {
      var before, op := ops[..|ops|-1], ops[|ops|-1];
      assert ops == before + [op];
      assert op in ops && forall o :: o in before ==> o in ops;
      ClaimsCarryHash(before, k, h, v);
    }
  }

  /** As long as a key's claims all carry one hash, whenever they came, a verifier dissents exactly
      when its last vote says so or carries another hash and some claim had come by then. */
  lemma DissentIff(ops: seq<Op>, k: Key, h: Hash, v: NodeId)
    requires OneHash(ops, k, h)
    ensures v in Dissenters(ops, k) <==>
              LastVote(ops, k, v).Some? &&
              (!LastVote(ops, k, v).value.0 || (LastVote(ops, k, v).value.1 != h && HeldAgainst(ops, k, v).Some?))
    ensures v in Voters(ops, k) <==> LastVote(ops, k, v).Some?
  {
    JudgementReadsOff(ops, k, v);
    ClaimsCarryHash(ops, k, h, v);
    VotedIsEveryone(ops, k, v);
  }

  /** Whenever a claim of `a` is resolved, no claim on its key ever carried another hash, and every
      verifier outside `faulty` that voted last confirmed that hash. Votes may come before the
      claim, and the faulty ones may say anything. */
  ghost predicate ConfirmedOutside(ops: seq<Op>, a: NodeId, faulty: set<NodeId>) {
    forall i: nat :: i < |ops| && ops[i].Resolve? && Claimed(ops[..i], ops[i].key).Some?
                     && Claimed(ops[..i], ops[i].key).value.authority == a ==>
      var k, h := ops[i].key, Claimed(ops[..i], ops[i].key).value.resultHash;
      OneHash(ops[..i], k, h) && forall v :: v !in faulty ==> LastVote(ops[..i], k, v) in {None, Some((true, h))}
  }

  /** Fewer faulty verifiers than a quorum cannot get an honest authority disputed, whatever
      they send and whenever. */
  lemma FaultyMinorityIsHarmless(ops: seq<Op>, q: nat, a: NodeId, faulty: set<NodeId>, t: Tick)
    requires q > 0 && |faulty| < q && ConfirmedOutside(ops, a, faulty)
    ensures t !in DisputedOf(Run(ops, q), a)
  {
    RunReadsOff(ops, q, (Zone(0, 0), t), a, t);
    if SomeDisputes(ops, a, t, q) {
      var i: nat :| i < |ops| && ops[i].Resolve? && ops[i].key.1 == t && Disputes(ops, i, a, q);
      var before, k := ops[..i], ops[i].key;
      var h := Claimed(before, k).value.resultHash;
      forall v | v in Dissenters(before, k)
        ensures v in faulty
      {
        DissentIff(before, k, h, v);
        assert v !in faulty ==> LastVote(before, k, v) in {None, Some((true, h))};
      }
      SubsetSize(Dissenters(before, k), faulty);
    }
  }

  /** The quorum is two thirds of the expected sample, not of the votes that came in. Judging
      by it is judging by a two-thirds majority of `votes` cast exactly when both round to the
      same number; with more verifiers than expected, a minority can dispute a tick. */
  lemma SupermajorityIff(sample: nat, votes: nat)
    requires votes >= Quorum(sample)
    ensures (forall d: nat :: d <= votes ==> (d >= Quorum(sample) <==> 3 * d >= 2 * votes)) <==>
            Quorum(votes) == Quorum(sample)
  {
    assert Quorum(votes) <= votes;
    if Quorum(votes) != Quorum(sample) {
      var d := if Quorum(votes) < Quorum(sample) then Quorum(votes) else Quorum(sample);
      assert d <= votes && !(d >= Quorum(sample) <==> 3 * d >= 2 * votes);
    }
  }

  /** A minority of the votes cast can reach the quorum exactly when there are more than twice the
      quorum of them. */
  lemma MinorityCanDisputeIff(sample: nat, votes: nat)
    ensures (exists d: nat :: 2 * d < votes && d >= Quorum(sample)) <==> votes > 2 * Quorum(sample)
  {
    if votes > 2 * Quorum(sample) {
      assert 2 * Quorum(sample) < votes && Quorum(sample) >= Quorum(sample);
    }
  }

  lemma RunStep(ops: seq<Op>, op: Op, q: nat)
    ensures Run(ops + [op], q) == Step(Run(ops, q), op, q)
  {
    assert (ops + [op])[..|ops|] == ops;
  }

  /** Distinct names for any number of verifiers. */
  function Verifier(i: nat): NodeId { seq(i, _ => 'v') }

  /** A claim, if there is one to begin with, then `n` verifiers' votes with the hash `h`: the first
      `d` flagged as dissent, the rest as agreement. */
  function Ballot(first: Option<Claim>, k: Key, h: Hash, n: nat, d: nat): seq<Op> {
    if n == 0 then if first.None? then [] else [RecordClaim(k, first.value)]
    else Ballot(first, k, h, n - 1, d) + [RecordVote(k, Verifier(n - 1), n - 1 >= d, h)]
  }

  function Poll(n: nat, d: nat): map<NodeId, bool> {
    if n == 0 then map[] else Poll(n - 1, d)[Verifier(n - 1) := n - 1 >= d]
  }

  lemma {:induction false} PollSize(n: nat, d: nat)
    ensures forall v :: v in Poll(n, d) ==> |v| < n
    ensures |Poll(n, d)| == n
    ensures |Dissenting(Poll(n, d))| == if d <= n then d else n
  {
    if n > 0 {
      PollSize(n - 1, d);
      var v := Verifier(n - 1);
      assert |v| == n - 1 && v !in Poll(n - 1, d);
      assert Dissenting(Poll(n, d)) ==
             if n - 1 >= d then Dissenting(Poll(n - 1, d)) else Dissenting(Poll(n - 1, d)) + {v};
    }
  }

  /** The claim contradicts what the voters say. */
  predicate Contradicts(first: Option<Claim>, h: Hash) { first.Some? && first.value.resultHash != h }

  function Polled(first: Option<Claim>, k: Key, n: nat, d: nat): State {
    State(if first.None? then map[] else map[k := first.value], if n == 0 then map[] else map[k := Poll(n, d)],
          map[], {})
  }

  lemma VotePolls(first: Option<Claim>, k: Key, h: Hash, n: nat, d: nat, m: nat, q: nat)
    requires n > 0 && (n - 1 >= m <==> n - 1 >= d && !Contradicts(first, h))
    ensures Step(Polled(first, k, n - 1, m), RecordVote(k, Verifier(n - 1), n - 1 >= d, h), q) ==
            Polled(first, k, n, m)
  {
    var s := Polled(first, k, n - 1, m);
    assert Votes(s, k) == Poll(n - 1, m);
    assert Agreed(s.claims, k, n - 1 >= d, h) == (n - 1 >= m);
    assert s.tallies[k := Poll(n, m)] == map[k := Poll(n, m)];
  }

  /** `m` of the votes count as dissent: `d`, or all of them beside a claim they contradict. */
  lemma {:induction false} BallotRuns(first: Option<Claim>, k: Key, h: Hash, n: nat, d: nat, m: nat, q: nat)
    requires if Contradicts(first, h) then n <= m else m == d
    ensures Run(Ballot(first, k, h, n, d), q) == Polled(first, k, n, m)
  {
    if n == 0 {
      if first.Some? {
        RunStep([], RecordClaim(k, first.value), q);
        assert [] + [RecordClaim(k, first.value)] == Ballot(first, k, h, n, d);
        assert EMPTY.claims[k := first.value] == map[k := first.value];
      }
    } else {
      BallotRuns(first, k, h, n - 1, d, m, q);
      VotePolls(first, k, h, n, d, m, q);
      RunStep(Ballot(first, k, h, n - 1, d), RecordVote(k, Verifier(n - 1), n - 1 >= d, h), q);
    }
  }

  /** And then it does: a run in which more verifiers confirm the claim than dissent from it, and
      its tick is disputed all the same. */
  lemma MinorityDisputes(k: Key, c: Claim, sample: nat, votes: nat) returns (ops: seq<Op>)
    requires votes > 2 * Quorum(sample)
    ensures |Voters(ops, k)| == votes && |Dissenters(ops, k)| == Quorum(sample) && 2 * Quorum(sample) < votes
    ensures k.1 in DisputedOf(Run(ops + [Resolve(k)], Quorum(sample)), c.authority)
  {
    var q := Quorum(sample);
    ops := Ballot(Some(c), k, c.resultHash, votes, q);
    BallotRuns(Some(c), k, c.resultHash, votes, q, q, q);
    PollSize(votes, q);
    VotesReadOff(ops, q, k);
    assert |Poll(votes, q)| == |Poll(votes, q).Keys|;
    RunStep(ops, Resolve(k), q);
  }

  lemma FirstResolve(s: State, k: Key, q: nat)
    requires Decidable(s, k, q) && s.disputed == map[] && s.resolved == {}
    ensures k.1 in DisputedOf(Step(s, Resolve(k), q), s.claims[k].authority) <==> |Dissenting(s.tallies[k])| >= q
  {
  }

  /** A claim that comes after the votes is judged by the claim that stood before them, if any did:
      `n` verifiers who all computed `h` get its tick disputed exactly when the earlier claim
      contradicted them, whatever hash this one carries. So a wrong claim published late, or put in
      the place of a right one, passes a unanimous vote against it, and a right one put in the
      place of a wrong one is disputed by a unanimous vote for it. */
  lemma LateClaimDisputedIff(first: Option<Claim>, k: Key, c: Claim, h: Hash, n: nat, q: nat)
    requires 0 < q <= n
    ensures k.1 in DisputedOf(Run(Ballot(first, k, h, n, 0) + [RecordClaim(k, c)] + [Resolve(k)], q), c.authority)
       <==> Contradicts(first, h)
  {
    var m := if Contradicts(first, h) then n else 0;
    BallotRuns(first, k, h, n, 0, m, q);
    PollSize(n, m);
    RunStep(Ballot(first, k, h, n, 0), RecordClaim(k, c), q);
    RunStep(Ballot(first, k, h, n, 0) + [RecordClaim(k, c)], Resolve(k), q);
    FirstResolve(Step(Polled(first, k, n, m), RecordClaim(k, c), q), k, q);
  }

  // ---- the validator ----

  /** The set's elements in ascending order. */
  method Ascending(s: set<Tick>) returns (r: seq<Tick>)
    ensures forall i, j :: 0 <= i < j < |r| ==> r[i] < r[j]
    ensures forall t :: t in r <==> t in s
    ensures |r| == |s|
  {
    r := [];
    var todo := s;
    while todo != {}
      invariant todo <= s && |r| + |todo| == |s|
      invariant forall t :: t in r <==> t in s && t !in todo
      invariant forall i, j :: 0 <= i < j < |r| ==> r[i] < r[j]
      invariant forall i, t :: 0 <= i < |r| && t in todo ==> r[i] < t
      decreases todo
    {
      ghost var least := Smallest(todo);
      var t :| t in todo && forall u :: u in todo ==> t <= u;
      todo := todo - {t};
      r := r + [t];
    }
  }

  class CrossValidator {
    const verifierSample: nat
    var claims: map<Key, Claim>
    var tallies: map<Key, map<NodeId, bool>>
    var disputedByAuthority: map<NodeId, set<Tick>>
    var resolved: set<Key>

    constructor (sample: nat)
      ensures Abs() == EMPTY && verifierSample == if sample < MIN_VERIFIERS then MIN_VERIFIERS else sample
    {
      verifierSample := if sample < MIN_VERIFIERS then MIN_VERIFIERS else sample;
      claims, tallies, disputedByAuthority, resolved := map[], map[], map[], {};
    }

    function Abs(): State
      reads this
    {
      State(claims, tallies, disputedByAuthority, resolved)
    }

    method RecordClaim(key: Key, authority: NodeId, resultHash: Hash)
      modifies this
      ensures Abs() == Step(old(Abs()), Op.RecordClaim(key, Claim(authority, resultHash)), Quorum(verifierSample))
    {
      claims := claims[key := Claim(authority, resultHash)];
    }

    method RecordVote(key: Key, verifier: NodeId, agree: bool, theirHash: Hash)
      modifies this
      ensures Abs() == Step(old(Abs()), Op.RecordVote(key, verifier, agree, theirHash), Quorum(verifierSample))
    {
      var agreed := agree;
      if key in claims { agreed := agree && claims[key].resultHash == theirHash; }
      tallies := tallies[key := Votes(Abs(), key)[verifier := agreed]];
    }

    /** Decides a key once a quorum of votes is in; a dispute is recorded once. */
    method Resolve(key: Key) returns (verdict: Option<Verdict>)
      modifies this
      ensures Abs() == Step(old(Abs()), Op.Resolve(key), Quorum(verifierSample))
      ensures verdict.Some? <==> Decidable(old(Abs()), key, Quorum(verifierSample))
      ensures verdict.Some? ==> IsVerdict(verdict.value, old(claims)[key].authority)
    {
      if key !in claims || key !in tallies { return None; }
      var q := Quorum(verifierSample);
      if |tallies[key]| < q { return None; }
      var a := claims[key].authority;
      if |Dissenting(tallies[key])| >= q && key !in resolved {
        disputedByAuthority := disputedByAuthority[a := DisputedOf(Abs(), a) + {key.1}];
      }
      resolved := resolved + {key};
      var v := VerdictFor(a);
      verdict := Some(v);
    }

    /** A verdict lists the authority's disputed ticks in order and draws both conclusions. */
    ghost predicate IsVerdict(v: Verdict, a: NodeId)
      reads this
    {
      && v.authority == a
      && (forall i, j :: 0 <= i < j < |v.disputedTicks| ==> v.disputedTicks[i] < v.disputedTicks[j])
      && (forall t :: t in v.disputedTicks <==> t in DisputedOf(Abs(), a))
      && (v.recommendSlash <==> |DisputedOf(Abs(), a)| >= SLASH_DISPUTE_THRESHOLD)
      && (v.recommendReassign <==> |DisputedOf(Abs(), a)| >= REASSIGN_DISPUTE_THRESHOLD)
    }

    method VerdictFor(a: NodeId) returns (v: Verdict)
      ensures IsVerdict(v, a)
    {
      var ticks := Ascending(DisputedOf(Abs(), a));
      v := Verdict(a, ticks, |ticks| >= SLASH_DISPUTE_THRESHOLD, |ticks| >= REASSIGN_DISPUTE_THRESHOLD);
    }
  }
}
