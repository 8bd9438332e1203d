/** Sustained-dissent auditing of replicas (arena-karma), refined against the history of
    quorum rounds. `Zone` is a grid cell. */
module QuorumAudit {
  import opened Protocol
  import opened Sorting
  import Quorum

  type Key = (Zone, NodeId)

  const SLASH_DISPUTE_THRESHOLD := 3

  datatype Round = Round(zone: Zone, tick: Tick, agreeing: seq<NodeId>, dissenting: seq<NodeId>)

  datatype QuorumVerdict = QuorumVerdict(node: NodeId, zone: Zone, disputedTicks: seq<Tick>, recommendSlash: bool)

  // ---- one round, node by node ----

  function Streak(m: map<Key, nat>, k: Key): nat { if k in m then m[k] else 0 }

  function Ticks(m: map<Key, seq<Tick>>, k: Key): seq<Tick> { if k in m then m[k] else [] }

  function Occurrences(s: seq<NodeId>, n: NodeId): nat {
    if s == [] then 0 else Occurrences(s[..|s|-1], n) + if s[|s|-1] == n then 1 else 0
  }

  function Repeat(t: Tick, k: nat): (r: seq<Tick>)
    ensures |r| == k && forall i :: 0 <= i < k ==> r[i] == t
  {
    seq(k, _ => t)
  }

  function Reset(r: Round, k: Key): bool { k.0 == r.zone && k.1 in r.agreeing }

  function Dissents(r: Round, k: Key): nat { if k.0 == r.zone then Occurrences(r.dissenting, k.1) else 0 }

  function StreakAfter(before: nat, r: Round, k: Key): nat {
    (if Reset(r, k) then 0 else before) + Dissents(r, k)
  }

  function TicksAfter(before: seq<Tick>, r: Round, k: Key): seq<Tick> {
    (if Reset(r, k) then [] else before) + Repeat(r.tick, Dissents(r, k))
  }

  /** The verdicts of a round's first `n` dissent entries: one for every entry that finds its
      node at or past the threshold, not only the one that crosses it. */
  function Verdicts(streak: map<Key, nat>, ticks: map<Key, seq<Tick>>, r: Round, n: nat): seq<QuorumVerdict>
    requires n <= |r.dissenting|
  {
    if n == 0 then []
    else
      var k, upto := (r.zone, r.dissenting[n-1]), Upto(r, n);
      Verdicts(streak, ticks, r, n - 1)
      + if StreakAfter(Streak(streak, k), upto, k) >= SLASH_DISPUTE_THRESHOLD
        then [QuorumVerdict(k.1, r.zone, TicksAfter(Ticks(ticks, k), upto, k), true)] else []
  }

  class QuorumAuditor {
    var streak: map<Key, nat>
    var ticks: map<Key, seq<Tick>>

    constructor ()
      ensures streak == map[] && ticks == map[]
    {
      streak, ticks := map[], map[];
    }

    /** Agreement resets. */
    method ResetAgreeing(zone: Zone, agreeing: seq<NodeId>)
      modifies this
      ensures forall k: Key :: Streak(streak, k) == if k.0 == zone && k.1 in agreeing then 0 else Streak(old(streak), k)
      ensures forall k: Key :: Ticks(ticks, k) == if k.0 == zone && k.1 in agreeing then [] else Ticks(old(ticks), k)
    {
      for i := 0 to |agreeing|
        invariant forall k: Key :: Streak(streak, k) ==
                                   if k.0 == zone && k.1 in agreeing[..i] then 0 else Streak(old(streak), k)
        invariant forall k: Key :: Ticks(ticks, k) ==
                                   if k.0 == zone && k.1 in agreeing[..i] then [] else Ticks(old(ticks), k)
      {
        assert agreeing[..i+1] == agreeing[..i] + [agreeing[i]];
        streak, ticks := streak - {(zone, agreeing[i])}, ticks - {(zone, agreeing[i])};
      }
      assert agreeing[..|agreeing|] == agreeing;
    }

    /** Dissent extends. */
    method Extend(key: Key, tick: Tick) returns (n: nat, ts: seq<Tick>)
      modifies this
      ensures n == Streak(old(streak), key) + 1 && streak == old(streak)[key := n]
      ensures ts == Ticks(old(ticks), key) + [tick] && ticks == old(ticks)[key := ts]
    {
      n, ts := Streak(streak, key) + 1, Ticks(ticks, key) + [tick];
      streak, ticks := streak[key := n], ticks[key := ts];
    }

    method ExtendDissenting(
      ghost r: Round, zone: Zone, tick: Tick, dissenting: seq<NodeId>, ghost s0: map<Key, nat>,
      ghost t0: map<Key, seq<Tick>>)
      returns (verdicts: seq<QuorumVerdict>)
      requires r.zone == zone && r.tick == tick && r.dissenting == dissenting && Halfway(r, 0, s0, t0, streak, ticks)
      modifies this
      ensures Halfway(r, |dissenting|, s0, t0, streak, ticks)
      ensures verdicts == Verdicts(s0, t0, r, |dissenting|)
    {
      verdicts := [];
      for i := 0 to |dissenting|
        invariant Halfway(r, i, s0, t0, streak, ticks)
        invariant verdicts == Verdicts(s0, t0, r, i)
      {
        verdicts := ExtendOne(r, i, zone, tick, dissenting[i], verdicts, s0, t0);
      }
    }

    method ExtendOne(
      ghost r: Round, ghost i: nat, zone: Zone, tick: Tick, node: NodeId, before: seq<QuorumVerdict>,
      ghost s0: map<Key, nat>, ghost t0: map<Key, seq<Tick>>)
      returns (verdicts: seq<QuorumVerdict>)
      requires r.zone == zone && r.tick == tick && i < |r.dissenting| && r.dissenting[i] == node
      requires Halfway(r, i, s0, t0, streak, ticks) && before == Verdicts(s0, t0, r, i)
      modifies this
      ensures Halfway(r, i + 1, s0, t0, streak, ticks)
      ensures verdicts == Verdicts(s0, t0, r, i + 1)
    {
      verdicts := before;
      OneMoreDissent(r, i, s0, t0, streak, ticks);
      var n, ts := Extend((zone, node), tick);
      VerdictStep(r, i, s0, t0, streak, ticks);
      if n >= SLASH_DISPUTE_THRESHOLD {
        verdicts := verdicts + [QuorumVerdict(node, zone, ts, true)];
      }
    }

    method RecordRound(zone: Zone, tick: Tick, agreeing: seq<NodeId>, dissenting: seq<NodeId>)
      returns (verdicts: seq<QuorumVerdict>)
      modifies this
      ensures var r := Round(zone, tick, agreeing, dissenting);
              && (forall k: Key :: Streak(streak, k) == StreakAfter(Streak(old(streak), k), r, k))
              && (forall k: Key :: Ticks(ticks, k) == TicksAfter(Ticks(old(ticks), k), r, k))
              && verdicts == Verdicts(old(streak), old(ticks), r, |dissenting|)
    {
      ghost var r, s0, t0 := Round(zone, tick, agreeing, dissenting), streak, ticks;
      ResetAgreeing(zone, agreeing);
      NoDissentYet(r, s0, t0, streak, ticks);
      verdicts := ExtendDissenting(r, zone, tick, dissenting, s0, t0);
      assert Upto(r, |dissenting|) == r;
    }
  }

  /** The round cut off after its first `i` dissent entries. */
  function Upto(r: Round, i: nat): Round
    requires i <= |r.dissenting|
  {
    r.(dissenting := r.dissenting[..i])
  }

  ghost predicate Halfway(r: Round, i: nat, s0: map<Key, nat>, t0: map<Key, seq<Tick>>, s: map<Key, nat>,
                          t: map<Key, seq<Tick>>)
    requires i <= |r.dissenting|
  {
    forall k: Key :: Streak(s, k) == StreakAfter(Streak(s0, k), Upto(r, i), k) &&
      Ticks(t, k) == TicksAfter(Ticks(t0, k), Upto(r, i), k)
  }

  lemma NoDissentYet(r: Round, s0: map<Key, nat>, t0: map<Key, seq<Tick>>, s: map<Key, nat>, t: map<Key, seq<Tick>>)
    requires forall k: Key :: Streak(s, k) == if Reset(r, k) then 0 else Streak(s0, k)
    requires forall k: Key :: Ticks(t, k) == if Reset(r, k) then [] else Ticks(t0, k)
    ensures Halfway(r, 0, s0, t0, s, t)
  {
    assert Repeat(r.tick, 0) == [];
  }

  lemma OneMoreDissent(r: Round, i: nat, s0: map<Key, nat>, t0: map<Key, seq<Tick>>, s: map<Key, nat>,
                       t: map<Key, seq<Tick>>)
    requires i < |r.dissenting| && Halfway(r, i, s0, t0, s, t)
    ensures var key := (r.zone, r.dissenting[i]);
            Halfway(r, i + 1, s0, t0, s[key := Streak(s, key) + 1], t[key := Ticks(t, key) + [r.tick]])
  {
    var key := (r.zone, r.dissenting[i]);
    var s', t' := s[key := Streak(s, key) + 1], t[key := Ticks(t, key) + [r.tick]];
    forall k: Key
      ensures Streak(s', k) == StreakAfter(Streak(s0, k), Upto(r, i + 1), k) &&
              Ticks(t', k) == TicksAfter(Ticks(t0, k), Upto(r, i + 1), k)
    {
      OneMoreEntry(r, i, k, Streak(s0, k), Ticks(t0, k));
    }
  }

  lemma VerdictStep(r: Round, i: nat, s0: map<Key, nat>, t0: map<Key, seq<Tick>>, s: map<Key, nat>,
                    t: map<Key, seq<Tick>>)
    requires i < |r.dissenting| && Halfway(r, i + 1, s0, t0, s, t)
    ensures var key := (r.zone, r.dissenting[i]);
            Verdicts(s0, t0, r, i + 1) == Verdicts(s0, t0, r, i)
              + if Streak(s, key) >= SLASH_DISPUTE_THRESHOLD
                then [QuorumVerdict(key.1, r.zone, Ticks(t, key), true)] else []
  {
  }

  lemma OneMoreEntry(r: Round, i: nat, k: Key, x: nat, ts: seq<Tick>)
    requires i < |r.dissenting|
    ensures StreakAfter(x, Upto(r, i + 1), k) ==
            StreakAfter(x, Upto(r, i), k) + if k == (r.zone, r.dissenting[i]) then 1 else 0
    ensures TicksAfter(ts, Upto(r, i + 1), k) ==
            TicksAfter(ts, Upto(r, i), k) + if k == (r.zone, r.dissenting[i]) then [r.tick] else []
  {
    assert r.dissenting[..i+1][..i] == r.dissenting[..i];
  }

  // ---- whole histories ----

  function StreakIn(history: seq<Round>, k: Key): nat {
    if history == [] then 0 else StreakAfter(StreakIn(history[..|history|-1], k), history[|history|-1], k)
  }

  function TicksIn(history: seq<Round>, k: Key): seq<Tick> {
    if history == [] then [] else TicksAfter(TicksIn(history[..|history|-1], k), history[|history|-1], k)
  }

  /** Nobody is listed twice in a round. */
  ghost predicate Proper(r: Round) {
    && (forall i, j :: 0 <= i < j < |r.dissenting| ==> r.dissenting[i] != r.dissenting[j])
    && (forall n :: n in r.agreeing ==> n !in r.dissenting)
  }

  /** The rounds that mention a node in a zone, oldest first: when, and whether it dissented. */
  function Mentions(history: seq<Round>, k: Key): seq<(Tick, bool)> {
    if history == [] then []
    else Mentions(history[..|history|-1], k) + MentionsIn(history[|history|-1], k)
  }

  function MentionsIn(r: Round, k: Key): seq<(Tick, bool)> {
    if k.0 == r.zone && (k.1 in r.agreeing || k.1 in r.dissenting) then [(r.tick, k.1 in r.dissenting)] else []
  }

  /** How many of the last mentions in a row are dissents. */
  function Trailing(mentions: seq<(Tick, bool)>): (n: nat)
    ensures n <= |mentions|
    ensures forall i :: |mentions| - n <= i < |mentions| ==> mentions[i].1
    ensures n < |mentions| ==> !mentions[|mentions| - n - 1].1
  {
    if mentions == [] || !mentions[|mentions|-1].1 then 0 else 1 + Trailing(mentions[..|mentions|-1])
  }

  function When(mentions: seq<(Tick, bool)>): seq<Tick> {
    Map((m: (Tick, bool)) => m.0, mentions)
  }

  lemma {:induction false} OneOccurrence(s: seq<NodeId>, n: NodeId)
    requires forall i, j :: 0 <= i < j < |s| ==> s[i] != s[j]
    ensures Occurrences(s, n) == if n in s then 1 else 0
  {
    if s != [] {
      OneOccurrence(s[..|s|-1], n);
      assert s == s[..|s|-1] + [s[|s|-1]];
    }
  }

  lemma OneMoreTrails(m: seq<(Tick, bool)>, x: (Tick, bool))
    ensures Trailing(m + [x]) == if x.1 then Trailing(m) + 1 else 0
  {
    assert (m + [x])[..|m|] == m;
  }

  lemma TailAppends(m: seq<(Tick, bool)>, x: (Tick, bool))
    ensures Tail(m + [x]) == if x.1 then Tail(m) + [x] else []
  {
    OneMoreTrails(m, x);
  }

  /** What one more mention does to the trailing dissents. */
  lemma OneMoreMention(m: seq<(Tick, bool)>, t: Tick, dissent: bool)
    ensures Trailing(m + [(t, dissent)]) == if dissent then Trailing(m) + 1 else 0
    ensures When(Tail(m + [(t, dissent)])) == if dissent then When(Tail(m)) + [t] else []
  {
    OneMoreTrails(m, (t, dissent));
    TailAppends(m, (t, dissent));
    WhenAppends(Tail(m), (t, dissent));
  }

  lemma WhenAppends(m: seq<(Tick, bool)>, x: (Tick, bool))
    ensures When(m + [x]) == When(m) + [x.0]
  {
  }

  /** The mentions since the last agreement. */
  function Tail(m: seq<(Tick, bool)>): seq<(Tick, bool)> {
    m[|m| - Trailing(m)..]
  }

  lemma ProperStep(r: Round, k: Key, streak: nat, ticks: seq<Tick>)
    requires Proper(r)
    ensures k.0 == r.zone && k.1 in r.dissenting ==>
            StreakAfter(streak, r, k) == streak + 1 && TicksAfter(ticks, r, k) == ticks + [r.tick]
    ensures k.0 == r.zone && k.1 in r.agreeing ==> StreakAfter(streak, r, k) == 0 && TicksAfter(ticks, r, k) == []
    ensures k.0 != r.zone || (k.1 !in r.agreeing && k.1 !in r.dissenting) ==>
            StreakAfter(streak, r, k) == streak && TicksAfter(ticks, r, k) == ticks
  {
    OneOccurrence(r.dissenting, k.1);
    assert Repeat(r.tick, 0) == [] && Repeat(r.tick, 1) == [r.tick];
  }

  lemma OneMoreRound(m: seq<(Tick, bool)>, r: Round, k: Key)
    requires Proper(r)
    ensures StreakAfter(Trailing(m), r, k) == Trailing(m + MentionsIn(r, k))
    ensures TicksAfter(When(Tail(m)), r, k) == When(Tail(m + MentionsIn(r, k)))
  {
    ProperStep(r, k, Trailing(m), When(Tail(m)));
    if MentionsIn(r, k) == [] {
      assert m + [] == m;
    } else {
      OneMoreMention(m, r.tick, k.1 in r.dissenting);
    }
  }

  /** Over every history of proper rounds, a node's streak in a zone is the number of dissents
      since its last agreement there, and the ticks kept are exactly those rounds' ticks.
      Rounds that leave the node out, and other zones, do not matter. */
  lemma {:induction false} StreakIsTrailingDissents(history: seq<Round>, k: Key)
    requires forall i :: 0 <= i < |history| ==> Proper(history[i])
    ensures StreakIn(history, k) == Trailing(Mentions(history, k))
    ensures TicksIn(history, k) == When(Tail(Mentions(history, k)))
  {
    if history != [] {
      StreakIsTrailingDissents(history[..|history|-1], k);
      OneMoreRound(Mentions(history[..|history|-1], k), history[|history|-1], k);
    }
  }

  ghost predicate Tracks(streak: map<Key, nat>, ticks: map<Key, seq<Tick>>, history: seq<Round>) {
    forall k: Key :: Streak(streak, k) == StreakIn(history, k) && Ticks(ticks, k) == TicksIn(history, k)
  }

  /** What `RecordRound` does to the maps keeps them on the history. */
  lemma RecordKeepsTrack(streak: map<Key, nat>, ticks: map<Key, seq<Tick>>, streak': map<Key, nat>,
                         ticks': map<Key, seq<Tick>>,
                         history: seq<Round>, r: Round)
    requires Tracks(streak, ticks, history)
    requires forall k: Key :: Streak(streak', k) == StreakAfter(Streak(streak, k), r, k)
    requires forall k: Key :: Ticks(ticks', k) == TicksAfter(Ticks(ticks, k), r, k)
    ensures Tracks(streak', ticks', history + [r])
  {
    assert (history + [r])[..|history|] == history;
  }

  /** A proper round slashes a node exactly when the node dissents in it and has now lost at
      least three mentions in a row; the verdict names exactly the lost rounds. */
  lemma SlashIff(streak: map<Key, nat>, ticks: map<Key, seq<Tick>>, history: seq<Round>, r: Round, v: QuorumVerdict)
    requires Tracks(streak, ticks, history)
    requires forall i :: 0 <= i < |history| ==> Proper(history[i])
    requires Proper(r)
    ensures v in Verdicts(streak, ticks, r, |r.dissenting|) <==>
              && v.zone == r.zone && v.node in r.dissenting && v.recommendSlash
              && var m := Mentions(history + [r], (v.zone, v.node));
              && Trailing(m) >= SLASH_DISPUTE_THRESHOLD
              && v.disputedTicks == When(Tail(m))
  {
    var k := (r.zone, v.node);
    var after := history + [r];
    assert after[..|history|] == history;
    StreakIsTrailingDissents(after, k);
    VerdictMembers(streak, ticks, r, |r.dissenting|, v);
    OneOccurrence(r.dissenting, v.node);
    assert r.dissenting[..|r.dissenting|] == r.dissenting;
  }

  lemma {:induction false} VerdictMembers(streak: map<Key, nat>, ticks: map<Key, seq<Tick>>, r: Round, n: nat,
                                          v: QuorumVerdict)
    requires n <= |r.dissenting| && Proper(r)
    ensures v in Verdicts(streak, ticks, r, n) <==>
              && v.zone == r.zone && v.recommendSlash && v.node in r.dissenting[..n]
              && StreakAfter(Streak(streak, (r.zone, v.node)), r, (r.zone, v.node)) >= SLASH_DISPUTE_THRESHOLD
              && v.disputedTicks == TicksAfter(Ticks(ticks, (r.zone, v.node)), r, (r.zone, v.node))
  {
    if n > 0 {
      VerdictMembers(streak, ticks, r, n - 1, v);
      var node := r.dissenting[n-1];
      assert r.dissenting[..n] == r.dissenting[..n-1] + [node];
      SameAsWhole(r, n, (r.zone, node), Streak(streak, (r.zone, node)), Ticks(ticks, (r.zone, node)));
    }
  }

  /** A node's own entry decides its verdict: the later entries are other nodes'. */
  lemma SameAsWhole(r: Round, n: nat, k: Key, x: nat, ts: seq<Tick>)
    requires Proper(r) && 0 < n <= |r.dissenting| && k == (r.zone, r.dissenting[n-1])
    ensures StreakAfter(x, Upto(r, n), k) == StreakAfter(x, r, k) &&
            TicksAfter(ts, Upto(r, n), k) == TicksAfter(ts, r, k)
  {
    OneOccurrence(r.dissenting[..n], k.1);
    OneOccurrence(r.dissenting, k.1);
    assert r.dissenting[..n][n-1] == k.1;
  }

  /** Rounds fed by the state-hash consensus are proper as long as each node proves once. */
  lemma ConsensusRoundsAreProper(proofs: seq<Quorum.Proof>, a: Quorum.Agreement, zone: Zone, tick: Tick)
    requires Quorum.IsAgreement(proofs, a)
    requires forall i, j :: 0 <= i < j < |proofs| ==> proofs[i].0 != proofs[j].0
    ensures Proper(Round(zone, tick, a.agree, a.dissent))
  {
    if proofs != [] {
      var w := a.quorumHash.value;
      SortByPermutes(Quorum.Nodes(proofs, w, true), LexLeq);
      SortByPermutes(Quorum.Nodes(proofs, w, false), LexLeq);
      forall n ensures !(n in a.agree && n in a.dissent) {
        Quorum.NodesMembers(proofs, w, true, n);
        Quorum.NodesMembers(proofs, w, false, n);
      }
      forall i, j | 0 <= i < j < |a.dissent| ensures a.dissent[i] != a.dissent[j] {
        if a.dissent[i] == a.dissent[j] {
          TwiceIn(a.dissent, i, j);
          ProvesOnce(proofs, w, a.dissent[i]);
        }
      }
    }
  }

  lemma {:induction false} ProvesOnce(proofs: seq<Quorum.Proof>, w: Hash, n: NodeId)
    requires forall i, j :: 0 <= i < j < |proofs| ==> proofs[i].0 != proofs[j].0
    ensures multiset(Quorum.Nodes(proofs, w, false))[n] <= 1
    ensures (forall p :: p in proofs ==> p.0 != n) ==> multiset(Quorum.Nodes(proofs, w, false))[n] == 0
  {
    if proofs != [] {
      var front, last := proofs[..|proofs|-1], proofs[|proofs|-1];
      assert proofs == front + [last];
      ProvesOnce(front, w, n);
      Quorum.NodesAppend(front, last, w, false);
      assert multiset(Quorum.Nodes(proofs, w, false))[n] ==
             multiset(Quorum.Nodes(front, w, false))[n] + if last.1 != w && last.0 == n then 1 else 0;
    }
  }
}
