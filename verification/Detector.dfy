/** The statistical cheat detector (arena-karma): the rolling window of a player's rounds, the
    running averages, and the graduated penalty. Rates are reals; counters are exact. */
module Detector {
  import opened Geometry
  import opened Protocol
  import opened Wrappers

  const PROFILE_WINDOW := 12
  const MIN_SHOTS_FOR_ACCURACY := 40
  const WRAP64 := 0x1_0000_0000_0000_0000

  datatype Telemetry = Telemetry(
    shotsFired: U32, shotsHit: U32, headshotFrac: real, aimSnaps: U32, moveCorrections: U32, fireRateViolations: U32,
    medianReactionMs: U32)
  {
    function Accuracy(): real { if shotsFired == 0 then 0.0 else shotsHit as real / shotsFired as real }
  }

  datatype Totals = Totals(shots: nat, aimSnaps: nat, moveCorrections: nat, fireRateViolations: nat) {
    function Plus(t: Telemetry): Totals {
      Totals(shots + t.shotsFired, aimSnaps + t.aimSnaps, moveCorrections + t.moveCorrections,
             fireRateViolations + t.fireRateViolations)
    }
  }

  /** The counters of a list of rounds, added up. */
  function Sum(rounds: seq<Telemetry>): Totals {
    if rounds == [] then Totals(0, 0, 0, 0) else Sum(rounds[..|rounds| - 1]).Plus(rounds[|rounds| - 1])
  }

  function Ewma(prev: Option<real>, sample: real): real {
    match prev
    case Some(p) => 0.35 * sample + (1.0 - 0.35) * p
    case None => sample
  }

  /** The running average over a history, taking only the rounds the measure admits. */
  datatype Measure = Accuracy | Headshots | Reaction {
    predicate Admits(t: Telemetry) {
      if Reaction? then t.medianReactionMs > 0 else t.shotsFired >= MIN_SHOTS_FOR_ACCURACY
    }

    function Sample(t: Telemetry): real {
      match this
      case Accuracy => t.Accuracy()
      case Headshots => t.headshotFrac
      case Reaction => t.medianReactionMs as real
    }

    function Average(history: seq<Telemetry>): Option<real> {
      if history == [] then None
      else
        var before, last := Average(history[..|history| - 1]), history[|history| - 1];
        if Admits(last) then Some(Ewma(before, Sample(last))) else before
    }
  }

  function Window(history: seq<Telemetry>): seq<Telemetry> {
    if |history| <= PROFILE_WINDOW then history else history[|history| - PROFILE_WINDOW..]
  }

  function SaturatingSub(x: nat, y: nat): nat { if x >= y then x - y else 0 }

  function Add64(x: nat, y: nat): nat { (x + y) % WRAP64 }

  class Profile {
    var rounds: seq<Telemetry>
    var averageAccuracy: Option<real>
    var averageHeadshots: Option<real>
    var averageReaction: Option<real>
    var totals: Totals

    /** The profile holds what the whole history of its player makes of it. */
    ghost predicate Reflects(history: seq<Telemetry>)
      reads this
    {
      && rounds == Window(history)
      && totals == Sum(Window(history))
      && averageAccuracy == Accuracy.Average(history)
      && averageHeadshots == Headshots.Average(history)
      && averageReaction == Reaction.Average(history)
    }

    constructor ()
      ensures Reflects([])
    {
      rounds, totals := [], Totals(0, 0, 0, 0);
      averageAccuracy, averageHeadshots, averageReaction := None, None, None;
    }

    /** One more round. */
    method Observe(t: Telemetry, ghost history: seq<Telemetry>)
      requires Reflects(history)
      modifies this
      ensures Reflects(history + [t])
    {
      WindowSlides(history, t);
      Evict();
      Count(t);
      Blend(t, history);
      SumAppends(rounds, t);
      rounds := rounds + [t];
    }

    /** Rolls the oldest round out of a full window: the saturating subtractions never clip. */
    method Evict()
      requires |rounds| <= PROFILE_WINDOW && totals == Sum(rounds)
      modifies this`rounds, this`totals
      ensures rounds == if |old(rounds)| == PROFILE_WINDOW then old(rounds)[1..] else old(rounds)
      ensures totals == Sum(rounds)
    {
      if |rounds| == PROFILE_WINDOW {
        RollsOut(rounds);
        var oldest := rounds[0];
        rounds := rounds[1..];
        totals := Totals(SaturatingSub(totals.shots, oldest.shotsFired),
                         SaturatingSub(totals.aimSnaps, oldest.aimSnaps),
                         SaturatingSub(totals.moveCorrections, oldest.moveCorrections),
                         SaturatingSub(totals.fireRateViolations, oldest.fireRateViolations));
      }
    }

    /** Adds a round's counters: the 64-bit additions never wrap. */
    method Count(t: Telemetry)
      requires |rounds| < PROFILE_WINDOW && totals == Sum(rounds)
      modifies this`totals
      ensures totals == Sum(rounds).Plus(t)
    {
      TotalsFit(rounds);
      totals := Totals(Add64(totals.shots, t.shotsFired), Add64(totals.aimSnaps, t.aimSnaps),
                       Add64(totals.moveCorrections, t.moveCorrections),
                       Add64(totals.fireRateViolations, t.fireRateViolations));
    }

    ghost function Seen(): Evidence
      reads this
    {
      Evidence(averageAccuracy, averageHeadshots, averageReaction, totals, |rounds|)
    }

    /** The score and the signals behind it. */
    method Evaluate(fade: real -> real, log1p: real -> real) returns (score: real, signals: seq<Signal>)
      ensures score == Seen().Score(fade, log1p) && signals == Seen().Fired()
      ensures forall s :: s in signals <==> Seen().Fires(s)
      ensures forall history :: Reflects(history) ==> Seen() == EvidenceOf(history)
    {
      var weighted;
      weighted, signals := Weigh(log1p);
      FiredSignals(Seen());
      score := Clamp(Times(Squash(fade, weighted), Confidence(fade, totals.shots)), 0.0, 1.0);
    }

    method Weigh(log1p: real -> real) returns (weighted: real, signals: seq<Signal>)
      ensures weighted == Seen().Weight(log1p) && signals == Seen().Fired()
    {
      weighted, signals := WeighHits(log1p, 0.0, []);
      weighted, signals := WeighRates(log1p, weighted, signals);
      weighted, signals := WeighFaults(log1p, weighted, signals);
    }

    method WeighHits(log1p: real -> real, weight: real, noted: seq<Signal>)
      returns (weighted: real, signals: seq<Signal>)
      ensures weighted ==
              weight + Seen().Contribution(AccuracySignal, log1p) + Seen().Contribution(HeadshotSignal, log1p)
      ensures signals == noted + Seen().Only(AccuracySignal) + Seen().Only(HeadshotSignal)
    {
      weighted, signals := weight, noted;
      if averageAccuracy.Some? && averageAccuracy.value > 0.45 {
        weighted := weighted + 1.6 * ((averageAccuracy.value - 0.45) / 0.55);
        signals := signals + [AccuracySignal];
      }
      if averageHeadshots.Some? && averageHeadshots.value > 0.7 {
        weighted := weighted + (averageHeadshots.value - 0.7) / 0.3;
        signals := signals + [HeadshotSignal];
      }
    }

    method WeighRates(log1p: real -> real, weight: real, noted: seq<Signal>)
      returns (weighted: real, signals: seq<Signal>)
      ensures weighted ==
              weight + Seen().Contribution(AimSnapSignal, log1p) + Seen().Contribution(MoveSignal, log1p)
      ensures signals == noted + Seen().Only(AimSnapSignal) + Seen().Only(MoveSignal)
    {
      weighted, signals := weight, noted;
      var aimSnapRate := Rate(totals.aimSnaps, |rounds|);
      if aimSnapRate > 0.5 {
        weighted := weighted + 1.2 * log1p(aimSnapRate) / 3.0;
        signals := signals + [AimSnapSignal];
      }
      var moveRate := Rate(totals.moveCorrections, |rounds|);
      if moveRate > 0.5 {
        weighted := weighted + 1.1 * log1p(moveRate) / 3.0;
        signals := signals + [MoveSignal];
      }
    }

    method WeighFaults(log1p: real -> real, weight: real, noted: seq<Signal>)
      returns (weighted: real, signals: seq<Signal>)
      ensures weighted ==
              weight + Seen().Contribution(FireRateSignal, log1p) + Seen().Contribution(ReactionSignal, log1p)
      ensures signals == noted + Seen().Only(FireRateSignal) + Seen().Only(ReactionSignal)
    {
      weighted, signals := weight, noted;
      if totals.fireRateViolations > 0 {
        weighted := weighted + 3.0 * log1p(Rate(totals.fireRateViolations, |rounds|)) / 1.5;
        signals := signals + [FireRateSignal];
      }
      if averageReaction.Some? && averageReaction.value < 120.0 {
        weighted := weighted + 1.8 * Clamp((120.0 - averageReaction.value) / 60.0, 0.0, 1.0);
        signals := signals + [ReactionSignal];
      }
    }

    method Blend(t: Telemetry, ghost history: seq<Telemetry>)
      requires averageAccuracy == Accuracy.Average(history) && averageHeadshots == Headshots.Average(history)
      requires averageReaction == Reaction.Average(history)
      modifies this`averageAccuracy, this`averageHeadshots, this`averageReaction
      ensures averageAccuracy == Accuracy.Average(history + [t]) && averageHeadshots == Headshots.Average(history + [t])
      ensures averageReaction == Reaction.Average(history + [t])
    {
      if t.shotsFired >= MIN_SHOTS_FOR_ACCURACY {
        averageAccuracy := Some(Ewma(averageAccuracy, t.Accuracy()));
        averageHeadshots := Some(Ewma(averageHeadshots, t.headshotFrac));
      }
      if t.medianReactionMs > 0 {
        averageReaction := Some(Ewma(averageReaction, t.medianReactionMs as real));
      }
      assert (history + [t])[..|history|] == history;
    }
  }

  lemma SumAppends(rounds: seq<Telemetry>, t: Telemetry)
    ensures Sum(rounds + [t]) == Sum(rounds).Plus(t)
  {
    assert (rounds + [t])[..|rounds|] == rounds;
  }

  /** Taking the first round out of a sum is exact. */
  lemma {:induction false} RollsOut(rounds: seq<Telemetry>)
    requires rounds != []
    ensures Sum(rounds) == Sum(rounds[1..]).Plus(rounds[0])
  {
    var n := |rounds| - 1;
    if n == 0 {
      assert rounds[..0] == [] && rounds[1..] == [];
    } else {
      RollsOut(rounds[..n]);
      assert rounds[..n][1..] == rounds[1..][..n - 1];
      assert rounds[1..][n - 1] == rounds[n];
    }
  }

  lemma {:induction false} TotalsFit(rounds: seq<Telemetry>)
    ensures Sum(rounds).shots <= |rounds| * 0xFFFF_FFFF
    ensures Sum(rounds).aimSnaps <= |rounds| * 0xFFFF_FFFF
    ensures Sum(rounds).moveCorrections <= |rounds| * 0xFFFF_FFFF
    ensures Sum(rounds).fireRateViolations <= |rounds| * 0xFFFF_FFFF
  {
    if rounds != [] {
      TotalsFit(rounds[..|rounds| - 1]);
    }
  }

  lemma WindowSlides(history: seq<Telemetry>, t: Telemetry)
    ensures |Window(history)| <= PROFILE_WINDOW
    ensures Window(history + [t]) ==
            (if |Window(history)| == PROFILE_WINDOW then Window(history)[1..] else Window(history)) + [t]
  {
  }

  lemma Between(p: real, s: real, lo: real, hi: real)
    requires lo <= p <= hi && lo <= s <= hi
    ensures lo <= Ewma(Some(p), s) <= hi
  {
  }

  /** An average exists once a round was admitted - ever, not just within the window - and lies
      between any bounds on all the samples admitted since the beginning. */
  lemma {:induction false} AverageIsBetween(m: Measure, history: seq<Telemetry>, lo: real, hi: real)
    requires forall t :: t in history && m.Admits(t) ==> lo <= m.Sample(t) <= hi
    ensures m.Average(history).Some? <==> exists t :: t in history && m.Admits(t)
    ensures m.Average(history).Some? ==> lo <= m.Average(history).value <= hi
  {
    if history != [] {
      var before, last := history[..|history| - 1], history[|history| - 1];
      assert history == before + [last];
      AverageIsBetween(m, before, lo, hi);
      if m.Admits(last) && m.Average(before).Some? {
        Between(m.Average(before).value, m.Sample(last), lo, hi);
      }
    }
  }

  /** What one more round does: with fewer than forty shots nothing to the accuracy and the headshots,
      without a reaction nothing to the reactions, and otherwise each average goes 35 percent of the
      way from where it was to what the round shows. */
  lemma RoundMovesAverages(history: seq<Telemetry>, t: Telemetry)
    ensures t.shotsFired < 40 ==>
              Accuracy.Average(history + [t]) == Accuracy.Average(history) &&
              Headshots.Average(history + [t]) == Headshots.Average(history)
    ensures t.medianReactionMs == 0 ==> Reaction.Average(history + [t]) == Reaction.Average(history)
    ensures t.shotsFired >= 40 ==>
              && Moves(Accuracy, history, t, t.shotsHit as real / t.shotsFired as real)
              && Moves(Headshots, history, t, t.headshotFrac)
    ensures t.medianReactionMs > 0 ==> Moves(Reaction, history, t, t.medianReactionMs as real)
  {
    assert (history + [t])[..|history|] == history;
  }

  predicate Moves(m: Measure, history: seq<Telemetry>, t: Telemetry, shown: real) {
    match m.Average(history)
    case None => m.Average(history + [t]) == Some(shown)
    case Some(p) => m.Average(history + [t]) == Some(p + 0.35 * (shown - p))
  }

  // ---- how long a round is remembered ----

  /** Rounds the measure does not admit leave its average alone, however many they are. */
  lemma {:induction false} UnadmittedRoundsKeepAverage(m: Measure, history: seq<Telemetry>, later: seq<Telemetry>)
    requires forall t :: t in later ==> !m.Admits(t)
    ensures m.Average(history + later) == m.Average(history)
  {
    if later == [] {
      assert history + later == history;
    } else {
      assert (history + later)[..|history + later| - 1] == history + later[..|later| - 1];
      UnadmittedRoundsKeepAverage(m, history, later[..|later| - 1]);
    }
  }

  /** How many of the rounds the measure admits. */
  function Admitted(m: Measure, rounds: seq<Telemetry>): nat {
    if rounds == [] then 0
    else Admitted(m, rounds[..|rounds| - 1]) + if m.Admits(rounds[|rounds| - 1]) then 1 else 0
  }

  /** What is left of an average after `k` more samples. */
  function Remnant(k: nat): real { if k == 0 then 1.0 else Times(1.0 - 0.35, Remnant(k - 1)) }

  lemma {:induction false} RemnantIsPositive(k: nat)
    ensures Remnant(k) > 0.0
  {
    if k > 0 {
      RemnantIsPositive(k - 1);
    }
  }

  lemma EwmaShrinksDifference(p: real, q: real, s: real, weight: real, d: real)
    requires p - q == Times(weight, d)
    ensures Ewma(Some(p), s) - Ewma(Some(q), s) == Times(Times(1.0 - 0.35, weight), d)
  {
    assert 0.65 * (weight * d) == (0.65 * weight) * d;
  }

  /** Two histories that continue alike keep their averages apart by exactly 0.65^k of where they
      were, after `k` admitted rounds: an old round fades, and never to nothing. */
  lemma {:induction false} OldRoundsFade(m: Measure, g: seq<Telemetry>, h: seq<Telemetry>, later: seq<Telemetry>)
    requires m.Average(g).Some? && m.Average(h).Some?
    ensures m.Average(g + later).Some? && m.Average(h + later).Some?
    ensures m.Average(g + later).value - m.Average(h + later).value ==
            Times(Remnant(Admitted(m, later)), m.Average(g).value - m.Average(h).value)
  {
    if later == [] {
      assert g + later == g && h + later == h;
    } else {
      var before, last := later[..|later| - 1], later[|later| - 1];
      assert (g + later)[..|g + later| - 1] == g + before && (h + later)[..|h + later| - 1] == h + before;
      OldRoundsFade(m, g, h, before);
      if m.Admits(last) {
        EwmaShrinksDifference(m.Average(g + before).value, m.Average(h + before).value, m.Sample(last),
                              Remnant(Admitted(m, before)), m.Average(g).value - m.Average(h).value);
      }
    }
  }

  lemma NonZeroProduct(x: real, y: real)
    requires x > 0.0
    ensures Times(x, y) == 0.0 <==> y == 0.0
  {
  }

  lemma BothAgreeIff(m: Measure, g: seq<Telemetry>, h: seq<Telemetry>, later: seq<Telemetry>)
    requires m.Average(g).Some? && m.Average(h).Some?
    ensures m.Average(g + later) == m.Average(h + later) <==> m.Average(g) == m.Average(h)
  {
    OldRoundsFade(m, g, h, later);
    RemnantIsPositive(Admitted(m, later));
    NonZeroProduct(Remnant(Admitted(m, later)), m.Average(g).value - m.Average(h).value);
  }

  /** The first sample the measure admits. */
  function First(m: Measure, rounds: seq<Telemetry>): Option<real> {
    if rounds == [] then None
    else if m.Admits(rounds[0]) then Some(m.Sample(rounds[0]))
    else First(m, rounds[1..])
  }

  lemma {:induction false} NothingBefore(m: Measure, h: seq<Telemetry>, later: seq<Telemetry>)
    requires m.Average(h).None?
    ensures m.Average(h + later) == m.Average(later)
  {
    if later == [] {
      assert h + later == h;
    } else {
      NothingBefore(m, h, later[..|later| - 1]);
      assert (h + later)[..|h + later| - 1] == h + later[..|later| - 1];
    }
  }

  lemma AverageOfOneMore(m: Measure, h: seq<Telemetry>, t: Telemetry)
    ensures m.Average(h + [t]) == if m.Admits(t) then Some(Ewma(m.Average(h), m.Sample(t))) else m.Average(h)
  {
    assert (h + [t])[..|h|] == h;
  }

  lemma KeepsIff(p: real, s: real)
    ensures Ewma(Some(p), s) == s <==> p == s
  {
  }

  /** A history whose average exists, and what follows it alone: the two averages agree exactly if
      the old one happened to equal the first sample that came after. */
  lemma {:induction false} FollowerAgreesIff(m: Measure, h: seq<Telemetry>, later: seq<Telemetry>)
    requires m.Average(h).Some?
    ensures m.Average(h + later) == m.Average(later) <==> First(m, later) == m.Average(h)
    decreases |later|
  {
    if later == [] {
      assert h + later == h;
    } else {
      var first, rest := later[0], later[1..];
      assert later == [first] + rest && h + later == (h + [first]) + rest && [] + [first] == [first];
      AverageOfOneMore(m, h, first);
      AverageOfOneMore(m, [], first);
      if m.Admits(first) {
        BothAgreeIff(m, h + [first], [first], rest);
        KeepsIff(m.Average(h).value, m.Sample(first));
      } else {
        FollowerAgreesIff(m, h + [first], rest);
        NothingBefore(m, [first], rest);
      }
    }
  }

  /** So no number of further rounds ages a bad streak out of an average: those of two histories
      agree after them exactly if they agreed before, or if only one of the two had an average yet
      and it equals the first sample that followed. */
  lemma AveragesAgreeIff(m: Measure, g: seq<Telemetry>, h: seq<Telemetry>, later: seq<Telemetry>)
    ensures m.Average(g + later) == m.Average(h + later) <==>
              || m.Average(g) == m.Average(h)
              || (m.Average(g).None? && First(m, later) == m.Average(h))
              || (m.Average(h).None? && First(m, later) == m.Average(g))
  {
    if m.Average(g).None? {
      NothingBefore(m, g, later);
      if m.Average(h).None? { NothingBefore(m, h, later); } else { FollowerAgreesIff(m, h, later); }
    } else if m.Average(h).None? {
      NothingBefore(m, h, later);
      FollowerAgreesIff(m, g, later);
    } else {
      BothAgreeIff(m, g, h, later);
    }
  }

  /** In particular an average is that of the window alone exactly if nothing admitted came before
      it, or the average by then equals the first sample admitted within. */
  lemma WindowAloneIff(m: Measure, history: seq<Telemetry>)
    ensures var before := history[..|history| - |Window(history)|];
            m.Average(history) == m.Average(Window(history)) <==>
            m.Average(before).None? || First(m, Window(history)) == m.Average(before)
  {
    var before := history[..|history| - |Window(history)|];
    assert history == before + Window(history) && [] + Window(history) == Window(history);
    AveragesAgreeIff(m, before, [], Window(history));
  }

  function Shooting(hits: U32): Telemetry { Telemetry(100, hits, 0.0, 0, 0, 0, 0) }

  /** Two players with the same twelve last rounds, one of whom once hit every shot: the windows are
      the same, the accuracies are not. */
  lemma WindowForgetsAverageDoesNot(later: seq<Telemetry>)
    requires |later| == PROFILE_WINDOW
    ensures Window([Shooting(100)] + later) == Window([Shooting(30)] + later)
    ensures Accuracy.Average([Shooting(100)] + later) != Accuracy.Average([Shooting(30)] + later)
  {
    var g, h := [Shooting(100)], [Shooting(30)];
    assert g[..0] == [] && h[..0] == [];
    assert Shooting(100).Accuracy() == 1.0 && Shooting(30).Accuracy() == 0.3;
    assert Accuracy.Average(g) == Some(1.0) && Accuracy.Average(h) == Some(0.3);
    AveragesAgreeIff(Accuracy, g, h, later);
  }

  // ---- the score ----

  /** All that is used of the exponential e^-x and of ln(1 + x). */
  ghost predicate IsFade(fade: real -> real) {
    fade(0.0) == 1.0 && forall x :: x > 0.0 ==> 0.0 < fade(x) < 1.0
  }

  ghost predicate IsLog1p(log1p: real -> real) {
    forall x :: x > 0.0 ==> log1p(x) > 0.0
  }

  /** A rate per retained round. */
  function Rate(total: nat, rounds: nat): real { total as real / (if rounds == 0 then 1 else rounds) as real }

  /** The six signals; each is silent inside the human range. */
  datatype Signal = AccuracySignal | HeadshotSignal | AimSnapSignal | MoveSignal | FireRateSignal | ReactionSignal

  datatype Evidence = Evidence(
    accuracy: Option<real>, headshots: Option<real>, reaction: Option<real>, totals: Totals, rounds: nat)
  {
    predicate Fires(s: Signal) {
      match s
      case AccuracySignal => accuracy.Some? && accuracy.value > 0.45
      case HeadshotSignal => headshots.Some? && headshots.value > 0.7
      case AimSnapSignal => Rate(totals.aimSnaps, rounds) > 0.5
      case MoveSignal => Rate(totals.moveCorrections, rounds) > 0.5
      case FireRateSignal => totals.fireRateViolations > 0
      case ReactionSignal => reaction.Some? && reaction.value < 120.0
    }

    function Strength(s: Signal, log1p: real -> real): real
      requires Fires(s)
    {
      match s
      case AccuracySignal => 1.6 * ((accuracy.value - 0.45) / 0.55)
      case HeadshotSignal => (headshots.value - 0.7) / 0.3
      case AimSnapSignal => 1.2 * log1p(Rate(totals.aimSnaps, rounds)) / 3.0
      case MoveSignal => 1.1 * log1p(Rate(totals.moveCorrections, rounds)) / 3.0
      case FireRateSignal => 3.0 * log1p(Rate(totals.fireRateViolations, rounds)) / 1.5
      case ReactionSignal => 1.8 * Clamp((120.0 - reaction.value) / 60.0, 0.0, 1.0)
    }

    function Contribution(s: Signal, log1p: real -> real): real {
      if Fires(s) then Strength(s, log1p) else 0.0
    }

    function Only(s: Signal): seq<Signal> { if Fires(s) then [s] else [] }

    /** The signals that fire, in the order they are looked at. */
    function Fired(): seq<Signal> {
      Only(AccuracySignal) + Only(HeadshotSignal) + Only(AimSnapSignal) + Only(MoveSignal) + Only(FireRateSignal)
      + Only(ReactionSignal)
    }

    function Weight(log1p: real -> real): real {
      Contribution(AccuracySignal, log1p) + Contribution(HeadshotSignal, log1p) + Contribution(AimSnapSignal, log1p)
      + Contribution(MoveSignal, log1p) + Contribution(FireRateSignal, log1p) + Contribution(ReactionSignal, log1p)
    }

    function Score(fade: real -> real, log1p: real -> real): real {
      Clamp(Times(Squash(fade, Weight(log1p)), Confidence(fade, totals.shots)), 0.0, 1.0)
    }
  }

  function Squash(fade: real -> real, weight: real): real { if weight <= 0.0 then 0.0 else 1.0 - fade(weight) }

  function Confidence(fade: real -> real, shots: nat): real { 1.0 - fade(shots as real / 200.0) }

  lemma StrengthIsPositive(e: Evidence, s: Signal, log1p: real -> real)
    requires IsLog1p(log1p) && e.Fires(s)
    ensures e.Strength(s, log1p) > 0.0
  {
    if s.FireRateSignal? {
      RateIsPositive(e.totals.fireRateViolations, e.rounds);
    }
  }

  lemma RateIsPositive(total: nat, rounds: nat)
    requires total > 0
    ensures Rate(total, rounds) > 0.0
  {
  }

  lemma WeightIffSignal(e: Evidence, log1p: real -> real)
    requires IsLog1p(log1p)
    ensures e.Weight(log1p) >= 0.0
    ensures e.Weight(log1p) > 0.0 <==> exists s :: e.Fires(s)
  {
    forall s: Signal
      ensures e.Contribution(s, log1p) >= 0.0
      ensures e.Contribution(s, log1p) > 0.0 <==> e.Fires(s)
    {
      if e.Fires(s) { StrengthIsPositive(e, s, log1p); }
    }
  }

  lemma Product(x: real, y: real)
    requires 0.0 <= x < 1.0 && 0.0 <= y < 1.0
    ensures 0.0 <= Times(x, y) <= y && (Times(x, y) > 0.0 <==> x > 0.0 && y > 0.0)
  {
    assert (1.0 - x) * y >= 0.0;
    assert (1.0 - x) * y == y - x * y;
  }

  /** The reasons given with a score are the signals that fire. */
  lemma FiredSignals(e: Evidence)
    ensures forall s :: s in e.Fired() <==> e.Fires(s)
  {
  }

  /** Suspicion needs a signal and a sample: the score is positive exactly when some signal fires
      and some shot was fired, and never exceeds the confidence the shots allow. */
  lemma ScoreIffSignal(e: Evidence, fade: real -> real, log1p: real -> real)
    requires IsFade(fade) && IsLog1p(log1p)
    ensures 0.0 <= e.Score(fade, log1p) <= Confidence(fade, e.totals.shots) < 1.0
    ensures e.Score(fade, log1p) > 0.0 <==> e.totals.shots > 0 && exists s :: e.Fires(s)
  {
    WeightIffSignal(e, log1p);
    assert e.totals.shots > 0 ==> e.totals.shots as real / 200.0 > 0.0;
    Product(Squash(fade, e.Weight(log1p)), Confidence(fade, e.totals.shots));
  }

  // ---- independent evidence ----

  /** The exponential turns sums into products. */
  ghost predicate IsExponential(fade: real -> real) {
    IsFade(fade) && forall x, y :: x >= 0.0 && y >= 0.0 ==> fade(x + y) == Times(fade(x), fade(y))
  }

  /** What of the benefit of the doubt the signals leave, one after the other. */
  function Doubt(e: Evidence, fade: real -> real, log1p: real -> real, signals: seq<Signal>): real {
    if signals == [] then 1.0
    else
      var n := |signals| - 1;
      Times(Doubt(e, fade, log1p, signals[..n]), fade(e.Contribution(signals[n], log1p)))
  }

  function WeightOf(e: Evidence, log1p: real -> real, signals: seq<Signal>): real {
    if signals == [] then 0.0
    else WeightOf(e, log1p, signals[..|signals| - 1]) + e.Contribution(signals[|signals| - 1], log1p)
  }

  lemma ContributionIsNone(e: Evidence, log1p: real -> real, s: Signal)
    requires IsLog1p(log1p)
    ensures e.Contribution(s, log1p) >= 0.0
  {
    if e.Fires(s) { StrengthIsPositive(e, s, log1p); }
  }

  lemma {:induction false} DoubtFades(e: Evidence, fade: real -> real, log1p: real -> real, signals: seq<Signal>)
    requires IsExponential(fade) && IsLog1p(log1p)
    ensures WeightOf(e, log1p, signals) >= 0.0
    ensures Doubt(e, fade, log1p, signals) == fade(WeightOf(e, log1p, signals))
  {
    if signals != [] {
      var n := |signals| - 1;
      DoubtFades(e, fade, log1p, signals[..n]);
      ContributionIsNone(e, log1p, signals[n]);
    }
  }

  const SIGNALS := [AccuracySignal, HeadshotSignal, AimSnapSignal, MoveSignal, FireRateSignal, ReactionSignal]

  lemma OneMoreWeight(e: Evidence, log1p: real -> real, signals: seq<Signal>, s: Signal)
    ensures WeightOf(e, log1p, signals + [s]) == WeightOf(e, log1p, signals) + e.Contribution(s, log1p)
  {
    assert (signals + [s])[..|signals|] == signals;
  }

  lemma WeightOfHits(e: Evidence, log1p: real -> real)
    ensures WeightOf(e, log1p, [AccuracySignal, HeadshotSignal]) ==
            e.Contribution(AccuracySignal, log1p) + e.Contribution(HeadshotSignal, log1p)
  {
    OneMoreWeight(e, log1p, [], AccuracySignal);
    OneMoreWeight(e, log1p, [AccuracySignal], HeadshotSignal);
    assert [] + [AccuracySignal] == [AccuracySignal];
    assert [AccuracySignal] + [HeadshotSignal] == [AccuracySignal, HeadshotSignal];
  }

  lemma WeightOfRates(e: Evidence, log1p: real -> real, noted: seq<Signal>)
    ensures WeightOf(e, log1p, noted + [AimSnapSignal] + [MoveSignal]) ==
            WeightOf(e, log1p, noted) + e.Contribution(AimSnapSignal, log1p) + e.Contribution(MoveSignal, log1p)
  {
    OneMoreWeight(e, log1p, noted, AimSnapSignal);
    OneMoreWeight(e, log1p, noted + [AimSnapSignal], MoveSignal);
  }

  lemma WeightOfFaults(e: Evidence, log1p: real -> real, noted: seq<Signal>)
    ensures WeightOf(e, log1p, noted + [FireRateSignal] + [ReactionSignal]) ==
            WeightOf(e, log1p, noted) + e.Contribution(FireRateSignal, log1p) + e.Contribution(ReactionSignal, log1p)
  {
    OneMoreWeight(e, log1p, noted, FireRateSignal);
    OneMoreWeight(e, log1p, noted + [FireRateSignal], ReactionSignal);
  }

  lemma WeightOfAll(e: Evidence, log1p: real -> real)
    ensures e.Weight(log1p) == WeightOf(e, log1p, SIGNALS)
  {
    var hits := [AccuracySignal, HeadshotSignal];
    var rates := hits + [AimSnapSignal] + [MoveSignal];
    WeightOfHits(e, log1p);
    WeightOfRates(e, log1p, hits);
    WeightOfFaults(e, log1p, rates);
    assert SIGNALS == rates + [FireRateSignal] + [ReactionSignal];
  }

  /** The signals are independent evidence: each leaves its own share of the doubt, and what they
      take away together, times what the shots fired take away of the other doubt, is the score. */
  lemma DoubtsMultiply(e: Evidence, fade: real -> real, log1p: real -> real)
    requires IsExponential(fade) && IsLog1p(log1p)
    ensures e.Score(fade, log1p) ==
            Times(1.0 - Doubt(e, fade, log1p, SIGNALS), 1.0 - fade(e.totals.shots as real / 200.0))
  {
    WeightOfAll(e, log1p);
    DoubtFades(e, fade, log1p, SIGNALS);
    WeightIffSignal(e, log1p);
    assert e.totals.shots > 0 ==> e.totals.shots as real / 200.0 > 0.0;
    Product(Squash(fade, e.Weight(log1p)), Confidence(fade, e.totals.shots));
  }

  // ---- what each signal is read from ----

  /** What the profile of a player with this history puts in evidence. */
  function EvidenceOf(history: seq<Telemetry>): Evidence {
    Evidence(Accuracy.Average(history), Headshots.Average(history), Reaction.Average(history),
             Sum(Window(history)), |Window(history)|)
  }

  datatype Counter = Shots | Snaps | Corrections | Violations {
    function Of(t: Telemetry): nat {
      match this
      case Shots => t.shotsFired
      case Snaps => t.aimSnaps
      case Corrections => t.moveCorrections
      case Violations => t.fireRateViolations
    }

    /** The counter added up over rounds. */
    function Tally(rounds: seq<Telemetry>): nat {
      if rounds == [] then 0 else Tally(rounds[..|rounds| - 1]) + Of(rounds[|rounds| - 1])
    }
  }

  lemma {:induction false} SumTallies(rounds: seq<Telemetry>)
    ensures Sum(rounds).shots == Shots.Tally(rounds)
    ensures Sum(rounds).aimSnaps == Snaps.Tally(rounds)
    ensures Sum(rounds).moveCorrections == Corrections.Tally(rounds)
    ensures Sum(rounds).fireRateViolations == Violations.Tally(rounds)
  {
    if rounds != [] { SumTallies(rounds[..|rounds| - 1]); }
  }

  lemma {:induction false} TallyIff(rounds: seq<Telemetry>, c: Counter)
    ensures c.Tally(rounds) > 0 <==> exists t :: t in rounds && c.Of(t) > 0
  {
    if rounds != [] {
      TallyIff(rounds[..|rounds| - 1], c);
      assert rounds == rounds[..|rounds| - 1] + [rounds[|rounds| - 1]];
    }
  }

  lemma MoreThanHalf(total: nat, rounds: nat)
    requires rounds > 0
    ensures Rate(total, rounds) > 0.5 <==> 2 * total > rounds
  {
    assert Rate(total, rounds) * rounds as real == total as real;
    assert Rate(total, rounds) > 0.5 ==> Rate(total, rounds) * rounds as real > 0.5 * rounds as real;
    assert Rate(total, rounds) <= 0.5 ==> Rate(total, rounds) * rounds as real <= 0.5 * rounds as real;
  }

  /** The three signals of the window: more than one snap, or one correction, in two rounds, and a
      single violation of the rate of fire. */
  lemma WindowSignalsIff(history: seq<Telemetry>)
    requires history != []
    ensures var e, window := EvidenceOf(history), Window(history);
            && (e.Fires(AimSnapSignal) <==> 2 * Snaps.Tally(window) > |window|)
            && (e.Fires(MoveSignal) <==> 2 * Corrections.Tally(window) > |window|)
            && (e.Fires(FireRateSignal) <==> exists t :: t in window && t.fireRateViolations > 0)
  {
    var window := Window(history);
    SumTallies(window);
    TallyIff(window, Violations);
    MoreThanHalf(Sum(window).aimSnaps, |window|);
    MoreThanHalf(Sum(window).moveCorrections, |window|);
  }

  /** Some round of the history counts towards the measure. */
  ghost predicate Measured(m: Measure, history: seq<Telemetry>) {
    exists t :: t in history && m.Admits(t)
  }

  /** Every round that counts is inside the human range of the measure, ends included. */
  ghost predicate Human(m: Measure, history: seq<Telemetry>) {
    forall t :: t in history && m.Admits(t) ==>
      match m
      case Accuracy => t.Accuracy() <= 0.45
      case Headshots => t.headshotFrac <= 0.7
      case Reaction => t.medianReactionMs >= 120
  }

  ghost predicate Inhuman(m: Measure, history: seq<Telemetry>) {
    forall t :: t in history && m.Admits(t) ==>
      match m
      case Accuracy => t.Accuracy() > 0.45
      case Headshots => t.headshotFrac > 0.7
      case Reaction => t.medianReactionMs < 120
  }

  function SignalOf(m: Measure): Signal {
    match m
    case Accuracy => AccuracySignal
    case Headshots => HeadshotSignal
    case Reaction => ReactionSignal
  }

  /** The three signals of the averages: play inside the human range never fires one, and play
      outside it, once measured, always does. */
  lemma {:induction false} AverageSignals(m: Measure, history: seq<Telemetry>)
    ensures Human(m, history) || !Measured(m, history) ==> !EvidenceOf(history).Fires(SignalOf(m))
    ensures Inhuman(m, history) && Measured(m, history) ==> EvidenceOf(history).Fires(SignalOf(m))
  {
    if history != [] {
      var before, last := history[..|history| - 1], history[|history| - 1];
      assert history == before + [last];
      AverageSignals(m, before);
      assert m.Average(before).None? ==> m.Average(history) == if m.Admits(last) then Some(m.Sample(last)) else None;
      NoAverageUnmeasured(m, before);
    }
  }

  lemma {:induction false} NoAverageUnmeasured(m: Measure, history: seq<Telemetry>)
    ensures m.Average(history).Some? <==> Measured(m, history)
  {
    if history != [] {
      NoAverageUnmeasured(m, history[..|history| - 1]);
      assert history == history[..|history| - 1] + [history[|history| - 1]];
    }
  }

  /** Somebody who plays like a human in every respect is never suspected of anything. */
  lemma HumanPlayIsClear(history: seq<Telemetry>, fade: real -> real, log1p: real -> real)
    requires IsFade(fade) && IsLog1p(log1p) && history != []
    requires forall m :: Human(m, history)
    requires var window := Window(history);
             && 2 * Snaps.Tally(window) <= |window| && 2 * Corrections.Tally(window) <= |window|
             && forall t :: t in window ==> t.fireRateViolations == 0
    ensures EvidenceOf(history).Fired() == [] && EvidenceOf(history).Score(fade, log1p) == 0.0
  {
    var e := EvidenceOf(history);
    AverageSignals(Accuracy, history);
    AverageSignals(Headshots, history);
    AverageSignals(Reaction, history);
    WindowSignalsIff(history);
    forall s ensures !e.Fires(s) {}
    ScoreIffSignal(e, fade, log1p);
  }

  /** What the signals weigh against each other: perfect accuracy 1.6, nothing but headshots 1, the
      reactions of a trigger 1.8, each fading evenly towards its human end; and of three rates
      alike, a violation of the rate of fire five times a snap and sixty elevenths of a correction. */
  lemma SignalsWeigh(e: Evidence, log1p: real -> real, near: real, far: real)
    ensures var mid := (near + far) / 2.0;
            && (near > 0.45 && far > 0.45 ==>
                  StrengthAt(AccuracySignal, near, log1p) + StrengthAt(AccuracySignal, far, log1p) ==
                  2.0 * StrengthAt(AccuracySignal, mid, log1p))
            && (near > 0.7 && far > 0.7 ==>
                  StrengthAt(HeadshotSignal, near, log1p) + StrengthAt(HeadshotSignal, far, log1p) ==
                  2.0 * StrengthAt(HeadshotSignal, mid, log1p))
            && (60.0 <= near < 120.0 && 60.0 <= far < 120.0 ==>
                  StrengthAt(ReactionSignal, near, log1p) + StrengthAt(ReactionSignal, far, log1p) ==
                  2.0 * StrengthAt(ReactionSignal, mid, log1p))
    ensures StrengthAt(AccuracySignal, 1.0, log1p) == 1.6 && StrengthAt(AccuracySignal, 0.725, log1p) == 0.8
    ensures StrengthAt(HeadshotSignal, 1.0, log1p) == 1.0 && StrengthAt(HeadshotSignal, 0.85, log1p) == 0.5
    ensures StrengthAt(ReactionSignal, 90.0, log1p) == 0.9
    ensures near <= 60.0 ==> StrengthAt(ReactionSignal, near, log1p) == 1.8
    ensures e.Fires(AimSnapSignal) && e.Fires(FireRateSignal) && e.totals.aimSnaps == e.totals.fireRateViolations ==>
              e.Strength(FireRateSignal, log1p) == 5.0 * e.Strength(AimSnapSignal, log1p)
    ensures && e.Fires(MoveSignal) && e.Fires(FireRateSignal)
            && e.totals.moveCorrections == e.totals.fireRateViolations ==>
              11.0 * e.Strength(FireRateSignal, log1p) == 60.0 * e.Strength(MoveSignal, log1p)
    ensures e.Fires(FireRateSignal) ==>
              e.Strength(FireRateSignal, log1p) == 2.0 * log1p(Rate(e.totals.fireRateViolations, e.rounds))
  {
  }

  /** The strength a signal of the averages has at a value; none inside the human range. */
  function StrengthAt(s: Signal, value: real, log1p: real -> real): real {
    Evidence(Some(value), Some(value), Some(value), Totals(0, 0, 0, 0), 0).Contribution(s, log1p)
  }

  // ---- the penalty ----

  function PenaltyFor(score: real): int {
    var s := if score < 0.0 then 0.0 else if score > 1.0 then 1.0 else score;
    if s < 0.5 then 0 else if s < 0.7 then -10 else if s < 0.85 then -30 else if s < 0.95 then -70 else -160
  }

  /** More suspicion never costs less, and the detector is silent exactly below one half. */
  lemma PenaltyIsGraduated(s: real, t: real)
    requires s <= t
    ensures -160 <= PenaltyFor(t) <= PenaltyFor(s) <= 0
    ensures PenaltyFor(s) == 0 <==> s < 0.5
  {
  }
}
