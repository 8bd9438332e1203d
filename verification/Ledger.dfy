/** The karma ledger (arena-karma): balances, the append-only log that explains them, the fusion of
    suspicion with report pressure, and rewards. Karma is a 32-bit integer whose additions wrap. */
module Ledger {
  import opened Protocol
  import opened Sorting
  import opened Wrappers
  import Detector

  const KARMA_DEFAULT := 100
  const KARMA_QUARANTINE := 40
  const KARMA_TEMPBAN := 10
  const KARMA_PERMBAN := -50
  const KARMA_FLOOR := KARMA_PERMBAN - 50
  const KARMA_CEILING := 300
  const I32_MIN := -0x8000_0000
  const I32_MAX := 0x7FFF_FFFF

  type I32 = n: int | I32_MIN <= n <= I32_MAX

  datatype Action = NoAction | Quarantine | TempBan | PermBan

  datatype Update = Update(player: NodeId, karma: int, delta: int, action: Action, at: nat)

  datatype Outcome = Outcome(player: NodeId, kills: U32, deaths: U32, assists: U32, completed: bool)

  datatype State = State(balances: map<NodeId, int>, audit: seq<Update>)

  const EMPTY := State(map[], [])

  function ActionFor(karma: int): Action {
    if karma <= KARMA_PERMBAN then PermBan
    else if karma <= KARMA_TEMPBAN then TempBan
    else if karma <= KARMA_QUARANTINE then Quarantine
    else NoAction
  }

  /** Two's-complement wrap-around. */
  function Wrap(x: int): I32 { (x - I32_MIN) % 0x1_0000_0000 + I32_MIN }

  function Clamp(x: int, lo: int, hi: int): int { if x < lo then lo else if x > hi then hi else x }

  function Balance(s: State, player: NodeId): int {
    if player in s.balances then s.balances[player] else KARMA_DEFAULT
  }

  function After(karma: int, delta: int): int { Clamp(Wrap(karma + delta), KARMA_FLOOR, KARMA_CEILING) }

  function ApplyIn(s: State, player: NodeId, delta: int, at: nat): State {
    var karma := After(Balance(s, player), delta);
    State(s.balances[player := karma],
          s.audit + [Update(player, karma, karma - Balance(s, player), ActionFor(karma), at)])
  }

  // ---- fusion ----

  /** Rounding half away from zero, for what is not negative. */
  function Round(x: real): int { (x + 0.5).Floor }

  /** The cast to 32 bits saturates. */
  function ReportPenalty(pressure: real): int {
    if pressure >= 0.75 then Clamp(-Round((pressure - 0.75) * 4.0), I32_MIN, I32_MAX) else 0
  }

  function DetectorPenalty(suspicion: Option<real>): int {
    match suspicion
    case Some(score) => Detector.PenaltyFor(score)
    case None => 0
  }

  /** Without a detector signal the reports may cost eight points at most. */
  function CappedReports(suspicion: Option<real>, pressure: real): int {
    if DetectorPenalty(suspicion) == 0 && ReportPenalty(pressure) < -8 then -8 else ReportPenalty(pressure)
  }

  function FusedDelta(suspicion: Option<real>, pressure: real): int {
    Wrap(DetectorPenalty(suspicion) + CappedReports(suspicion, pressure))
  }

  function FuseIn(s: State, player: NodeId, suspicion: Option<real>, pressure: real, at: nat): State {
    if FusedDelta(suspicion, pressure) == 0 then s else ApplyIn(s, player, FusedDelta(suspicion, pressure), at)
  }

  // ---- rewards ----

  function KdEdge(o: Outcome): int { Wrap(o.kills - o.deaths) }

  function Reward(o: Outcome): int {
    1 + (if o.kills > o.deaths then (if KdEdge(o) <= 2 then KdEdge(o) else 2) else 0) + (if o.assists > 0 then 1 else 0)
  }

  function Rewards(s: State, o: Outcome): bool { o.completed && Balance(s, o.player) < KARMA_CEILING }

  function OutcomeIn(s: State, o: Outcome, at: nat): State {
    if Rewards(s, o) then ApplyIn(s, o.player, Reward(o), at) else s
  }

  class KarmaLedger {
    var balances: map<NodeId, int>
    var audit: seq<Update>

    ghost function View(): State
      reads this
    {
      State(balances, audit)
    }

    constructor ()
      ensures View() == EMPTY
    {
      balances, audit := map[], [];
    }

    method Karma(player: NodeId) returns (karma: int)
      ensures karma == Balance(View(), player)
    {
      karma := if player in balances then balances[player] else KARMA_DEFAULT;
    }

    method Apply(player: NodeId, delta: I32, at: nat) returns (update: Update)
      modifies this
      ensures View() == ApplyIn(old(View()), player, delta, at)
      ensures audit == old(audit) + [update]
      ensures update.karma == Balance(View(), player) && update.action == ActionFor(update.karma)
    {
      var current := Karma(player);
      var karma := Clamp(Wrap(current + delta), KARMA_FLOOR, KARMA_CEILING);
      balances := balances[player := karma];
      update := Update(player, karma, karma - current, ActionFor(karma), at);
      audit := audit + [update];
    }

    /** Emits the update only when the band changed or the penalty was at least fifteen; the
        balance and the log have moved either way. */
    method Fuse(player: NodeId, suspicion: Option<real>, pressure: real, at: nat) returns (emitted: Option<Update>)
      modifies this
      ensures View() == FuseIn(old(View()), player, suspicion, pressure, at)
      ensures emitted.Some? <==> Emits(old(View()), View(), player, FusedDelta(suspicion, pressure))
      ensures emitted.Some? ==> audit == old(audit) + [emitted.value]
    {
      var detectorPenalty := DetectorPenalty(suspicion);
      var reportPenalty := ReportPenalty(pressure);
      if detectorPenalty == 0 && reportPenalty < -8 {
        reportPenalty := -8;
      }
      var total := Wrap(detectorPenalty + reportPenalty);
      if total == 0 {
        return None;
      }
      var current := Karma(player);
      var before := ActionFor(current);
      var update := Apply(player, total, at);
      emitted := if update.action != before || total <= -15 then Some(update) else None;
    }

    method RecordOutcome(o: Outcome, at: nat) returns (granted: Option<Update>)
      modifies this
      ensures View() == OutcomeIn(old(View()), o, at)
      ensures granted.Some? <==> Rewards(old(View()), o)
      ensures granted.Some? ==> audit == old(audit) + [granted.value]
    {
      if !o.completed {
        return None;
      }
      var reward := 1;
      if o.kills > o.deaths {
        var edge := Wrap(o.kills - o.deaths);
        reward := reward + if edge <= 2 then edge else 2;
      }
      if o.assists > 0 {
        reward := reward + 1;
      }
      var current := Karma(o.player);
      if current >= KARMA_CEILING {
        return None;
      }
      var update := Apply(o.player, reward, at);
      granted := Some(update);
    }
  }

  predicate Emits(before: State, after: State, player: NodeId, delta: int) {
    delta != 0 && (ActionFor(Balance(after, player)) != ActionFor(Balance(before, player)) || delta <= -15)
  }

  // ---- wrap-around ----

  lemma WrapIff(x: int)
    requires 2 * I32_MIN <= x <= 2 * I32_MAX + 1
    ensures Wrap(x) == x <==> I32_MIN <= x <= I32_MAX
    ensures x < I32_MIN ==> Wrap(x) == x + 0x1_0000_0000
    ensures x > I32_MAX ==> Wrap(x) == x - 0x1_0000_0000
  {
  }

  /** A delta moves karma its own way, within the limits, exactly as long as the sum fits. */
  lemma ApplyIsClampedIff(karma: int, delta: I32)
    requires KARMA_FLOOR <= karma <= KARMA_CEILING
    ensures After(karma, delta) == Clamp(karma + delta, KARMA_FLOOR, KARMA_CEILING) <==>
            I32_MIN <= karma + delta <= I32_MAX
  {
    WrapIff(karma + delta);
  }

  lemma ReportPenaltyRange(pressure: real)
    ensures I32_MIN <= ReportPenalty(pressure) <= 0
    ensures ReportPenalty(pressure) == 0 <==> pressure < 0.875
  {
    if pressure >= 0.75 {
      assert (pressure - 0.75) * 4.0 + 0.5 >= 0.5;
    }
  }

  /** `n` is `x` rounded to a whole number, halves up. */
  predicate Rounds(x: real, n: int) { x - 0.5 < n as real <= x + 0.5 }

  /** What a fusion takes. From pressure 0.75 on the reports ask for four points a unit, rounded: a
      silent detector grants at most eight of them, a signal grants them all on top of its own
      penalty, exactly as long as the sum fits in 32 bits. */
  lemma FusionTakes(suspicion: Option<real>, pressure: real) returns (n: int)
    ensures if pressure < 0.75 then n == 0 else Rounds(4.0 * (pressure - 0.75), n) && n >= 0
    ensures suspicion.None? || suspicion.value < 0.5 ==>
              FusedDelta(suspicion, pressure) == if n <= 8 then -n else -8
    ensures suspicion.Some? && suspicion.value >= 0.5 ==>
              var penalty := Detector.PenaltyFor(suspicion.value);
              && penalty < 0
              && (FusedDelta(suspicion, pressure) == penalty - n <==> penalty - n >= I32_MIN)
  {
    n := if pressure >= 0.75 then Round((pressure - 0.75) * 4.0) else 0;
    if suspicion.Some? { Detector.PenaltyIsGraduated(suspicion.value, suspicion.value); }
    ReportPenaltyRange(pressure);
    WrapIff(DetectorPenalty(suspicion) + CappedReports(suspicion, pressure));
  }

  /** So with a signal the reports may add anything to what the detector takes. */
  lemma ReportsPileOn(score: real, more: nat)
    requires score >= 0.5 && more <= I32_MAX - 160
    ensures exists pressure :: FusedDelta(Some(score), pressure) == Detector.PenaltyFor(score) - more
  {
    var pressure := 0.75 + more as real / 4.0;
    var n := FusionTakes(Some(score), pressure);
    Detector.PenaltyIsGraduated(score, score);
    assert 4.0 * (pressure - 0.75) == more as real;
    assert n == more;
    assert FusedDelta(Some(score), pressure) == Detector.PenaltyFor(score) - more;
  }

  /** How hard the enforcement comes down. */
  function Harshness(a: Action): nat {
    match a
    case NoAction => 0
    case Quarantine => 1
    case TempBan => 2
    case PermBan => 3
  }

  /** Each band begins at its mark, the mark included, and holds everything below it down to the next
      harsher one. */
  lemma BandsIff(karma: int)
    ensures Harshness(ActionFor(karma)) >= 1 <==> karma <= 40
    ensures Harshness(ActionFor(karma)) >= 2 <==> karma <= 10
    ensures Harshness(ActionFor(karma)) >= 3 <==> karma <= -50
  {
  }

  /** What one score does to a new player, without reports: karma 90 from 0.5 on, 70 from 0.7, 30 from
      0.85 and -60 from 0.95 - so nothing up to 0.85 that the enforcement acts on, quarantine from
      there, and a permanent ban at the end, but never the temporary one. */
  lemma OneScoreBands(player: NodeId, score: real, at: nat)
    ensures var after := Run(EMPTY, [Fused(player, Some(score), 0.0, at)]);
            && ActionFor(Balance(after, player)) ==
               (if score >= 0.95 then PermBan else if score >= 0.85 then Quarantine else NoAction)
            && Balance(after, player) ==
               if score < 0.5 then 100 else if score < 0.7 then 90 else if score < 0.85 then 70
               else if score < 0.95 then 30 else -60
  {
    assert [Fused(player, Some(score), 0.0, at)][..0] == [];
    var n := FusionTakes(Some(score), 0.0);
    Detector.PenaltyIsGraduated(score, score);
  }

  /** Evidence never raises karma, as long as the penalties and the balance together stay in 32
      bits; past that the balance jumps to the ceiling. Without a detector signal they always do. */
  lemma FusionNeverRaisesIff(karma: int, suspicion: Option<real>, pressure: real)
    requires KARMA_FLOOR <= karma <= KARMA_CEILING
    ensures After(karma, FusedDelta(suspicion, pressure)) <= karma <==>
              || karma == KARMA_CEILING
              || karma + DetectorPenalty(suspicion) + CappedReports(suspicion, pressure) >= I32_MIN
  {
    ReportPenaltyRange(pressure);
    DetectorPenaltyRange(suspicion);
    var d, r := DetectorPenalty(suspicion), CappedReports(suspicion, pressure);
    WrapIff(d + r);
    WrapTwice(karma, d + r);
    WrapIff(karma + d + r);
  }

  lemma DetectorPenaltyRange(suspicion: Option<real>)
    ensures -160 <= DetectorPenalty(suspicion) <= 0
  {
    if suspicion.Some? { Detector.PenaltyIsGraduated(suspicion.value, suspicion.value); }
  }

  lemma WrapTwice(x: int, y: int)
    ensures Wrap(x + Wrap(y)) == Wrap(x + y)
  {
    var k := (y - I32_MIN) / 0x1_0000_0000;
    assert Wrap(y) == y - k * 0x1_0000_0000;
    ModShift(x + y - I32_MIN, k);
  }

  lemma ModShift(x: int, k: int)
    ensures (x - k * 0x1_0000_0000) % 0x1_0000_0000 == x % 0x1_0000_0000
  {
  }

  /** A fusion is silent after moving karma - no update to broadcast, though the log grew -
      exactly for a lesser penalty inside one band. */
  lemma SilentMoveIff(s: State, player: NodeId, suspicion: Option<real>, pressure: real, at: nat)
    ensures var delta, after := FusedDelta(suspicion, pressure), FuseIn(s, player, suspicion, pressure, at);
            after != s && !Emits(s, after, player, delta) <==>
            delta != 0 && delta > -15 && ActionFor(After(Balance(s, player), delta)) == ActionFor(Balance(s, player))
  {
    var after := FuseIn(s, player, suspicion, pressure, at);
    if FusedDelta(suspicion, pressure) != 0 {
      assert |after.audit| == |s.audit| + 1;
    }
  }

  /** The first fusion of a new player can be one: reports alone, at pressure 3, take eight points
      and write them down, and nobody is told. */
  lemma SilentFusion(player: NodeId, at: nat)
    ensures var after := Run(EMPTY, [Fused(player, None, 3.0, at)]);
            && Balance(after, player) == KARMA_DEFAULT - 8 && |after.audit| == 1
            && !Emits(EMPTY, after, player, FusedDelta(None, 3.0))
  {
    assert [Fused(player, None, 3.0, at)][..0] == [];
    assert FusedDelta(None, 3.0) == -8;
    SilentMoveIff(EMPTY, player, None, 3.0, at);
  }

  /** A completed match is worth one to four points, unless the kills outnumber the deaths by
      2^31 or more: the difference is then read as a negative number, and only the very last
      one can still come out positive. */
  lemma RewardIff(o: Outcome)
    ensures Reward(o) <= 4
    ensures Reward(o) >= 1 <==>
              || o.kills - o.deaths <= I32_MAX
              || (o.kills - o.deaths == 0xFFFF_FFFF && o.assists > 0)
  {
    WrapIff(o.kills - o.deaths);
  }

  /** Up to there the ladder of rewards is this: four points exactly for two kills more than deaths
      and an assist, one exactly for neither, and a single kill more than deaths is worth as much as
      an assist. */
  lemma RewardLadder(o: Outcome)
    requires o.kills - o.deaths <= I32_MAX
    ensures Reward(o) == 4 <==> o.kills - o.deaths >= 2 && o.assists > 0
    ensures Reward(o) == 3 <==>
              || (o.kills - o.deaths >= 2 && o.assists == 0)
              || (o.kills - o.deaths == 1 && o.assists > 0)
    ensures Reward(o) == 1 <==> o.kills - o.deaths <= 0 && o.assists == 0
  {
    WrapIff(o.kills - o.deaths);
  }

  // ---- runs ----

  datatype Event =
    | Applied(player: NodeId, delta: I32, at: nat)
    | Fused(player: NodeId, suspicion: Option<real>, pressure: real, at: nat)
    | Recorded(outcome: Outcome, at: nat)

  function Step(s: State, e: Event): State {
    match e
    case Applied(player, delta, at) => ApplyIn(s, player, delta, at)
    case Fused(player, suspicion, pressure, at) => FuseIn(s, player, suspicion, pressure, at)
    case Recorded(outcome, at) => OutcomeIn(s, outcome, at)
  }

  function Run(s: State, es: seq<Event>): State {
    if es == [] then s else Step(Run(s, es[..|es| - 1]), es[|es| - 1])
  }

  /** A completed match of a player whose kills do not outnumber the deaths past 31 bits. */
  ghost predicate CleanMatch(e: Event, player: NodeId) {
    && e.Recorded? && e.outcome.player == player && e.outcome.completed
    && e.outcome.kills - e.outcome.deaths <= I32_MAX
  }

  /** A completed match pays its whole reward up to the ceiling; an abandoned one pays nothing, and
      at the ceiling nothing is written down any more. */
  lemma MatchPays(s: State, o: Outcome, at: nat)
    requires KARMA_FLOOR <= Balance(s, o.player) <= KARMA_CEILING && o.kills - o.deaths <= I32_MAX
    ensures var before, after := Balance(s, o.player), OutcomeIn(s, o, at);
            && (!o.completed ==> after == s)
            && (o.completed ==>
                  Balance(after, o.player) == if before + Reward(o) <= 300 then before + Reward(o) else 300)
            && (after.audit != s.audit <==> o.completed && before < 300)
  {
    RewardIff(o);
    WrapIff(Balance(s, o.player) + Reward(o));
    if Rewards(s, o) { assert |OutcomeIn(s, o, at).audit| == |s.audit| + 1; }
  }

  /** The way back: in a row of completed matches a player regains one to four points each, up to the
      ceiling. */
  lemma {:induction false} MatchesRedeem(s: State, es: seq<Event>, player: NodeId)
    requires KARMA_FLOOR <= Balance(s, player) <= KARMA_CEILING
    requires forall i :: 0 <= i < |es| ==> CleanMatch(es[i], player)
    ensures var before, after := Balance(s, player), Balance(Run(s, es), player);
            && KARMA_FLOOR <= after <= KARMA_CEILING
            && (after >= before + |es| || after == 300)
            && after <= before + 4 * |es|
  {
    if es != [] {
      var front, last := es[..|es| - 1], es[|es| - 1];
      MatchesRedeem(s, front, player);
      assert CleanMatch(last, player);
      MatchPays(Run(s, front), last.outcome, last.at);
      RewardIff(last.outcome);
    }
  }

  function LoggedSum(audit: seq<Update>, player: NodeId): int {
    if audit == [] then 0
    else
      var last := audit[|audit| - 1];
      LoggedSum(audit[..|audit| - 1], player) + if last.player == player then last.delta else 0
  }

  function LastLogged(audit: seq<Update>, player: NodeId): Option<Update> {
    if audit == [] then None
    else if audit[|audit| - 1].player == player then Some(audit[|audit| - 1])
    else LastLogged(audit[..|audit| - 1], player)
  }

  /** Replaying the log explains the balance: it is the default plus the player's logged deltas,
      it is the last karma logged, the band logged with it is its band, and it is in range. */
  ghost predicate Explained(s: State, player: NodeId) {
    && Balance(s, player) == KARMA_DEFAULT + LoggedSum(s.audit, player)
    && KARMA_FLOOR <= Balance(s, player) <= KARMA_CEILING
    && (player in s.balances <==> LastLogged(s.audit, player).Some?)
    && (LastLogged(s.audit, player).Some? ==>
          var last := LastLogged(s.audit, player).value;
          last.karma == Balance(s, player) && last.action == ActionFor(last.karma))
  }

  lemma ApplyExplains(s: State, player: NodeId, delta: int, at: nat, anyone: NodeId)
    requires Explained(s, anyone)
    ensures Explained(ApplyIn(s, player, delta, at), anyone)
  {
    var after := ApplyIn(s, player, delta, at);
    assert after.audit[..|after.audit| - 1] == s.audit;
  }

  lemma {:induction false} RunsAreExplained(es: seq<Event>, player: NodeId)
    ensures Explained(Run(EMPTY, es), player)
  {
    if es != [] {
      var before, last := Run(EMPTY, es[..|es| - 1]), es[|es| - 1];
      RunsAreExplained(es[..|es| - 1], player);
      match last
      case Applied(p, delta, at) => ApplyExplains(before, p, delta, at, player);
      case Fused(p, suspicion, pressure, at) => ApplyExplains(before, p, FusedDelta(suspicion, pressure), at, player);
      case Recorded(o, at) => ApplyExplains(before, o.player, Reward(o), at, player);
    }
  }

  /** The log only grows. */
  lemma {:induction false} LogGrows(s: State, es: seq<Event>)
    ensures s.audit <= Run(s, es).audit
  {
    if es != [] {
      LogGrows(s, es[..|es| - 1]);
    }
  }

  /** If the event concerns the player, it is a fusion without a detector signal or a match. */
  predicate Mild(e: Event, player: NodeId) {
    match e
    case Applied(p, _, _) => p != player
    case Fused(p, suspicion, _, _) => p == player ==> DetectorPenalty(suspicion) == 0
    case Recorded(o, _) => o.player == player ==> Reward(o) >= 1
  }

  function Fusions(es: seq<Event>, player: NodeId): nat {
    if es == [] then 0
    else
      var last := es[|es| - 1];
      Fusions(es[..|es| - 1], player) + if last.Fused? && last.player == player then 1 else 0
  }

  lemma ReportsAloneCostEight(karma: int, suspicion: Option<real>, pressure: real)
    requires DetectorPenalty(suspicion) == 0 && KARMA_FLOOR <= karma <= KARMA_CEILING
    ensures After(karma, FusedDelta(suspicion, pressure)) >= karma - 8
  {
    ReportPenaltyRange(pressure);
    WrapIff(CappedReports(suspicion, pressure));
    WrapIff(karma + CappedReports(suspicion, pressure));
  }

  lemma MildStep(s: State, e: Event, player: NodeId)
    requires KARMA_FLOOR <= Balance(s, player) <= KARMA_CEILING && Mild(e, player)
    ensures KARMA_FLOOR <= Balance(Step(s, e), player) <= KARMA_CEILING
    ensures Balance(Step(s, e), player) >= Balance(s, player) - if e.Fused? && e.player == player then 8 else 0
  {
    var karma := Balance(s, player);
    if e.Fused? && e.player == player {
      ReportsAloneCostEight(karma, e.suspicion, e.pressure);
    } else if e.Recorded? && e.outcome.player == player {
      RewardIff(e.outcome);
      WrapIff(karma + Reward(e.outcome));
    }
  }

  /** However large the report pressures and however long the run, without a detector signal a
      player loses at most eight points a fusion - so nobody at the default karma can be
      quarantined by reports in fewer than eight. */
  lemma {:induction false} ReportsAloneAreCapped(s: State, es: seq<Event>, player: NodeId)
    requires KARMA_FLOOR <= Balance(s, player) <= KARMA_CEILING
    requires forall i :: 0 <= i < |es| ==> Mild(es[i], player)
    ensures KARMA_FLOOR <= Balance(Run(s, es), player) <= KARMA_CEILING
    ensures Balance(Run(s, es), player) >= Balance(s, player) - 8 * Fusions(es, player)
    ensures Balance(s, player) >= KARMA_DEFAULT && Fusions(es, player) < 8 ==>
              ActionFor(Balance(Run(s, es), player)) == NoAction
  {
    if es != [] {
      ReportsAloneAreCapped(s, es[..|es| - 1], player);
      MildStep(Run(s, es[..|es| - 1]), es[|es| - 1], player);
    }
  }
}
