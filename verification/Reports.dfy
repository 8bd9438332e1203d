/** Player reports (arena-karma): one per reporter, accused and tick, weighed by the reporter's
    karma, decaying with age. Weights are reals; the decay curve is a parameter. */
module Reports {
  import opened Geometry
  import opened Protocol
  import opened Sorting

  const TICKS_PER_ROUND: nat := 5760
  const KARMA_DEFAULT := 100
  const KARMA_QUARANTINE := 40
  const BRIGADE_PROTECT_KARMA := 90
  const BRIGADE_PRESSURE := 2.0

  datatype Reason = Aimbot | Wallhack | SpeedHack | Teaming | Griefing | Toxicity | Other

  datatype Report = Report(reporter: NodeId, accused: NodeId, reason: Reason, tick: Tick)

  datatype Stored = Stored(reporter: NodeId, weight: real, tick: Tick)

  type Key = (NodeId, NodeId, Tick)

  datatype State = State(byAccused: map<NodeId, seq<Stored>>, seen: set<Key>)

  /** The share of a report's weight left at an age in ticks. */
  type Decay = nat -> real

  ghost predicate IsDecay(decay: Decay) {
    && (forall a :: 0.0 <= decay(a) <= 1.0)
    && (forall a, b :: a <= b ==> decay(b) <= decay(a))
  }

  function Severity(reason: Reason): real {
    match reason
    case Aimbot => 1.0
    case Wallhack => 0.9
    case SpeedHack => 0.9
    case Teaming => 0.6
    case Griefing => 0.4
    case Toxicity => 0.3
    case Other => 0.25
  }

  function Credibility(karma: int): real {
    if karma <= KARMA_QUARANTINE then 0.0
    else Clamp((karma - KARMA_QUARANTINE) as real / (KARMA_DEFAULT - KARMA_QUARANTINE) as real, 0.0, 1.0)
  }

  /** A report weighs nothing exactly when its reporter is quarantined, and its reason's full
      severity exactly when the reporter stands at the default karma or above. */
  lemma WeightIffCredible(karma: int, reason: Reason)
    ensures 0.0 <= Times(Credibility(karma), Severity(reason)) <= Severity(reason) <= 1.0
    ensures Times(Credibility(karma), Severity(reason)) > 0.0 <==> karma > KARMA_QUARANTINE
    ensures Times(Credibility(karma), Severity(reason)) == Severity(reason) <==> karma >= KARMA_DEFAULT
  {
    var c := Credibility(karma);
    Shrinks(c, Severity(reason));
  }

  lemma Shrinks(c: real, s: real)
    requires 0.0 <= c <= 1.0 && s > 0.0
    ensures 0.0 <= Times(c, s) <= s && (Times(c, s) > 0.0 <==> c > 0.0) && (Times(c, s) == s <==> c == 1.0)
  {
    assert (1.0 - c) * s == s - c * s;
    assert c < 1.0 ==> (1.0 - c) * s > 0.0;
  }

  /** Between the two, every point of karma counts for a sixtieth. */
  lemma CredibilityRises(karma: int, more: nat)
    requires KARMA_QUARANTINE <= karma <= karma + more <= KARMA_DEFAULT
    ensures Credibility(karma + more) == Credibility(karma) + more as real / 60.0
  {
  }

  // ---- operations ----

  function KeyOf(r: Report): Key { (r.reporter, r.accused, r.tick) }

  function StoredOf(r: Report, karma: int): Stored {
    Stored(r.reporter, Times(Credibility(karma), Severity(r.reason)), r.tick)
  }

  function About(s: State, accused: NodeId): seq<Stored> {
    if accused in s.byAccused then s.byAccused[accused] else []
  }

  function FileIn(s: State, r: Report, karma: int): State {
    if KeyOf(r) in s.seen then s
    else State(s.byAccused[r.accused := About(s, r.accused) + [StoredOf(r, karma)]], s.seen + {KeyOf(r)})
  }

  function Age(now: Tick, tick: Tick): nat { if now >= tick then now - tick else 0 }

  /** Rounds to keep, in ticks, saturating at the top of 32 bits. */
  function MaxAge(keepRounds: nat): nat {
    if keepRounds * TICKS_PER_ROUND <= TICK_MAX then keepRounds * TICKS_PER_ROUND else TICK_MAX
  }

  function Recent(rs: seq<Stored>, now: Tick, maxAge: nat): seq<Stored> {
    if rs == [] then []
    else
      Recent(rs[..|rs| - 1], now, maxAge) +
      (if Age(now, rs[|rs| - 1].tick) <= maxAge then [rs[|rs| - 1]] else [])
  }

  function PruneIn(s: State, now: Tick, keepRounds: nat): State {
    State(map n | n in s.byAccused && Recent(s.byAccused[n], now, MaxAge(keepRounds)) != []
            :: Recent(s.byAccused[n], now, MaxAge(keepRounds)), s.seen)
  }

  // ---- pressure ----

  function Shared(peak: real, sum: real): real { 0.75 * peak + 0.25 * sum }

  /** The strongest and the summed decayed weight of one reporter. */
  datatype Tally = Tally(peak: real, sum: real) {
    function Join(t: Tally): Tally { Tally(if peak >= t.peak then peak else t.peak, sum + t.sum) }

    function Share(): real { Shared(peak, sum) }
  }

  function Decayed(decay: Decay, r: Stored, now: Tick): real { Times(r.weight, decay(Age(now, r.tick))) }

  function TallyOne(decay: Decay, r: Stored, reporter: NodeId, now: Tick): Tally {
    if r.reporter == reporter then Tally(Decayed(decay, r, now), Decayed(decay, r, now)) else Tally(0.0, 0.0)
  }

  function TallyOf(decay: Decay, rs: seq<Stored>, reporter: NodeId, now: Tick): (t: Tally)
    ensures t.peak >= 0.0
  {
    if rs == [] then Tally(0.0, 0.0)
    else TallyOf(decay, rs[..|rs| - 1], reporter, now).Join(TallyOne(decay, rs[|rs| - 1], reporter, now))
  }

  ghost function Reporters(rs: seq<Stored>): set<NodeId> { set r | r in rs :: r.reporter }

  ghost function SumOver(shares: NodeId -> real, ns: set<NodeId>): real {
    if ns == {} then 0.0
    else
      var n :| n in ns;
      shares(n) + SumOver(shares, ns - {n})
  }

  function Shares(decay: Decay, rs: seq<Stored>, now: Tick): NodeId -> real {
    (n: NodeId) => TallyOf(decay, rs, n, now).Share()
  }

  /** Each reporter's strongest report counts fully and the others by a quarter. */
  ghost function PressureOf(decay: Decay, rs: seq<Stored>, now: Tick): real {
    SumOver(Shares(decay, rs, now), Reporters(rs))
  }

  // ---- sums over reporters ----

  lemma {:induction false} TakeFromSum(shares: NodeId -> real, ns: set<NodeId>, n: NodeId)
    requires n in ns
    ensures SumOver(shares, ns) == shares(n) + SumOver(shares, ns - {n})
    decreases ns
  {
    var m :| m in ns && SumOver(shares, ns) == shares(m) + SumOver(shares, ns - {m});
    if m != n {
      TakeFromSum(shares, ns - {m}, n);
      TakeFromSum(shares, ns - {n}, m);
      assert ns - {m} - {n} == ns - {n} - {m};
    }
  }

  lemma {:induction false} SumsCompare(f: NodeId -> real, g: NodeId -> real, ns: set<NodeId>)
    requires forall n :: n in ns ==> f(n) <= g(n)
    ensures SumOver(f, ns) <= SumOver(g, ns)
    decreases ns
  {
    if ns != {} {
      var n :| n in ns;
      TakeFromSum(f, ns, n);
      TakeFromSum(g, ns, n);
      SumsCompare(f, g, ns - {n});
    }
  }

  /** Members that contribute nothing may be left out. */
  lemma {:induction false} SumSkips(f: NodeId -> real, ns: set<NodeId>, ms: set<NodeId>)
    requires ms <= ns && forall n :: n in ns && n !in ms ==> f(n) == 0.0
    ensures SumOver(f, ns) == SumOver(f, ms)
    decreases ns
  {
    if ns != ms {
      var n :| n in ns && n !in ms;
      TakeFromSum(f, ns, n);
      SumSkips(f, ns - {n}, ms);
    }
  }

  // ---- tallies ----

  lemma {:induction false} TallySplits(decay: Decay, a: seq<Stored>, b: seq<Stored>, n: NodeId, now: Tick)
    ensures TallyOf(decay, a + b, n, now) == TallyOf(decay, a, n, now).Join(TallyOf(decay, b, n, now))
  {
    if b == [] {
      assert a + b == a;
    } else {
      assert (a + b)[..|a + b| - 1] == a + b[..|b| - 1];
      TallySplits(decay, a, b[..|b| - 1], n, now);
    }
  }

  lemma TallyTakesOut(decay: Decay, rs: seq<Stored>, k: nat, n: NodeId, now: Tick)
    requires k < |rs|
    ensures TallyOf(decay, rs, n, now) ==
            TallyOf(decay, rs[..k] + rs[k + 1..], n, now).Join(TallyOf(decay, [rs[k]], n, now))
  {
    assert rs == rs[..k] + [rs[k]] + rs[k + 1..];
    TallySplits(decay, rs[..k] + [rs[k]], rs[k + 1..], n, now);
    TallySplits(decay, rs[..k], [rs[k]], n, now);
    TallySplits(decay, rs[..k], rs[k + 1..], n, now);
  }

  lemma TallyPutsBack(decay: Decay, rs: seq<Stored>, ts: seq<Stored>, k: nat, n: NodeId, now: Tick)
    requires rs != [] && k < |ts| && ts[k] == rs[0]
    requires TallyOf(decay, rs[1..], n, now) == TallyOf(decay, ts[..k] + ts[k + 1..], n, now)
    ensures TallyOf(decay, rs, n, now) == TallyOf(decay, ts, n, now)
  {
    TallyTakesOut(decay, ts, k, n, now);
    TallyTakesHead(decay, rs, n, now);
  }

  lemma TallyTakesHead(decay: Decay, rs: seq<Stored>, n: NodeId, now: Tick)
    requires rs != []
    ensures TallyOf(decay, rs, n, now) == TallyOf(decay, rs[1..], n, now).Join(TallyOf(decay, [rs[0]], n, now))
  {
    TallyTakesOut(decay, rs, 0, n, now);
    assert rs[..0] + rs[1..] == rs[1..];
  }

  lemma {:induction false} TallyIgnoresOrder(decay: Decay, rs: seq<Stored>, ts: seq<Stored>, n: NodeId, now: Tick)
    requires multiset(rs) == multiset(ts)
    ensures TallyOf(decay, rs, n, now) == TallyOf(decay, ts, n, now)
    decreases |rs|
  {
    if rs == [] {
      assert |ts| == |multiset(ts)|;
    } else {
      var k := TakeOut(rs, ts);
      TallyIgnoresOrder(decay, rs[1..], ts[..k] + ts[k + 1..], n, now);
      TallyPutsBack(decay, rs, ts, k, n, now);
    }
  }

  /** Pressure does not depend on the order in which reports are stored. */
  lemma PressureIgnoresOrder(decay: Decay, rs: seq<Stored>, ts: seq<Stored>, now: Tick)
    requires multiset(rs) == multiset(ts)
    ensures PressureOf(decay, rs, now) == PressureOf(decay, ts, now)
  {
    forall n
      ensures Shares(decay, rs, now)(n) == Shares(decay, ts, now)(n)
    {
      TallyIgnoresOrder(decay, rs, ts, n, now);
    }
    assert Reporters(rs) == Reporters(ts) by {
      forall r: Stored ensures r in rs <==> r in ts { assert r in multiset(rs) <==> r in multiset(ts); }
    }
    SumsCompare(Shares(decay, rs, now), Shares(decay, ts, now), Reporters(rs));
    SumsCompare(Shares(decay, ts, now), Shares(decay, rs, now), Reporters(rs));
  }

  ghost predicate Weighted(rs: seq<Stored>) {
    forall r :: r in rs ==> 0.0 <= r.weight <= 1.0
  }

  lemma DecayedShrinks(decay: Decay, r: Stored, now: Tick, later: Tick)
    requires IsDecay(decay) && 0.0 <= r.weight <= 1.0 && now <= later
    ensures 0.0 <= Decayed(decay, r, later) <= Decayed(decay, r, now) <= r.weight
  {
    Scales(r.weight, decay(Age(later, r.tick)), decay(Age(now, r.tick)));
  }

  lemma Scales(w: real, x: real, y: real)
    requires w >= 0.0 && 0.0 <= x <= y <= 1.0
    ensures 0.0 <= Times(w, x) <= Times(w, y) <= w
  {
  }

  lemma {:induction false} TalliesFade(decay: Decay, rs: seq<Stored>, n: NodeId, now: Tick, later: Tick)
    requires IsDecay(decay) && Weighted(rs) && now <= later
    ensures TallyOf(decay, rs, n, later).peak <= TallyOf(decay, rs, n, now).peak <= 1.0
    ensures 0.0 <= TallyOf(decay, rs, n, later).sum <= TallyOf(decay, rs, n, now).sum
  {
    if rs != [] {
      TalliesFade(decay, rs[..|rs| - 1], n, now, later);
      DecayedShrinks(decay, rs[|rs| - 1], now, later);
    }
  }

  /** Pressure never rises while no report is filed. */
  lemma PressureFades(decay: Decay, rs: seq<Stored>, now: Tick, later: Tick)
    requires IsDecay(decay) && Weighted(rs) && now <= later
    ensures 0.0 <= PressureOf(decay, rs, later) <= PressureOf(decay, rs, now)
  {
    forall n
      ensures 0.0 <= Shares(decay, rs, later)(n) <= Shares(decay, rs, now)(n)
    {
      TalliesFade(decay, rs, n, now, later);
    }
    SumsCompare(Shares(decay, rs, later), Shares(decay, rs, now), Reporters(rs));
    NonNegativeSum(Shares(decay, rs, later), Reporters(rs));
  }

  lemma {:induction false} NonNegativeSum(f: NodeId -> real, ns: set<NodeId>)
    requires forall n :: n in ns ==> f(n) >= 0.0
    ensures SumOver(f, ns) >= 0.0
    decreases ns
  {
    if ns != {} {
      var n :| n in ns;
      TakeFromSum(f, ns, n);
      NonNegativeSum(f, ns - {n});
    }
  }

  function Credible(rs: seq<Stored>): seq<Stored> {
    if rs == [] then []
    else Credible(rs[..|rs| - 1]) + if rs[|rs| - 1].weight > 0.0 then [rs[|rs| - 1]] else []
  }

  lemma TallyAppends(decay: Decay, rs: seq<Stored>, r: Stored, n: NodeId, now: Tick)
    ensures TallyOf(decay, rs + [r], n, now) == TallyOf(decay, rs, n, now).Join(TallyOne(decay, r, n, now))
  {
    assert (rs + [r])[..|rs|] == rs;
  }

  lemma JoinNothing(t: Tally)
    requires t.peak >= 0.0
    ensures t.Join(Tally(0.0, 0.0)) == t
  {
  }

  lemma NothingDecayed(decay: Decay, r: Stored, n: NodeId, now: Tick)
    requires r.weight == 0.0
    ensures TallyOne(decay, r, n, now) == Tally(0.0, 0.0)
  {
  }

  lemma {:induction false} TallyOfCredible(decay: Decay, rs: seq<Stored>, n: NodeId, now: Tick)
    requires Weighted(rs)
    ensures TallyOf(decay, Credible(rs), n, now) == TallyOf(decay, rs, n, now)
  {
    if rs != [] {
      TallyOfCredible(decay, rs[..|rs| - 1], n, now);
      CredibleOneMore(decay, rs[..|rs| - 1], rs[|rs| - 1], n, now);
      assert rs == rs[..|rs| - 1] + [rs[|rs| - 1]];
    }
  }

  lemma CredibleOneMore(decay: Decay, rs: seq<Stored>, last: Stored, n: NodeId, now: Tick)
    requires TallyOf(decay, Credible(rs), n, now) == TallyOf(decay, rs, n, now) && last.weight >= 0.0
    ensures TallyOf(decay, Credible(rs + [last]), n, now) == TallyOf(decay, rs + [last], n, now)
  {
    CredibleAppends(rs, last);
    TallyAppends(decay, rs, last, n, now);
    if last.weight > 0.0 {
      TallyAppends(decay, Credible(rs), last, n, now);
    } else {
      NothingDecayed(decay, last, n, now);
      JoinNothing(TallyOf(decay, rs, n, now));
    }
  }

  lemma CredibleAppends(rs: seq<Stored>, last: Stored)
    ensures Credible(rs + [last]) == if last.weight > 0.0 then Credible(rs) + [last] else Credible(rs)
  {
    assert (rs + [last])[..|rs|] == rs;
  }

  lemma {:induction false} SilentTally(decay: Decay, rs: seq<Stored>, n: NodeId, now: Tick)
    requires n !in Reporters(rs)
    ensures TallyOf(decay, rs, n, now) == Tally(0.0, 0.0)
  {
    if rs != [] {
      var before, last := rs[..|rs| - 1], rs[|rs| - 1];
      assert rs == before + [last];
      StillReported(before, last, n);
      SilentTally(decay, before, n, now);
    }
  }

  lemma StillReported(rs: seq<Stored>, last: Stored, n: NodeId)
    ensures n in Reporters(rs + [last]) <==> n in Reporters(rs) || n == last.reporter
  {
    if n in Reporters(rs) {
      var r :| r in rs && r.reporter == n;
      assert r in rs + [last];
    } else if n == last.reporter {
      assert last in rs + [last];
    }
  }

  lemma {:induction false} CredibleIsPart(rs: seq<Stored>)
    ensures forall r :: r in Credible(rs) <==> r in rs && r.weight > 0.0
  {
    if rs != [] {
      CredibleIsPart(rs[..|rs| - 1]);
      assert rs == rs[..|rs| - 1] + [rs[|rs| - 1]];
    }
  }

  /** Reporters without credibility contribute nothing: dropping all their reports leaves every
      pressure unchanged. */
  lemma OnlyCredibleReportsCount(decay: Decay, rs: seq<Stored>, now: Tick)
    requires IsDecay(decay) && Weighted(rs)
    ensures PressureOf(decay, Credible(rs), now) == PressureOf(decay, rs, now)
  {
    var f, g := Shares(decay, Credible(rs), now), Shares(decay, rs, now);
    forall n
      ensures f(n) == g(n) && (n !in Reporters(Credible(rs)) ==> g(n) == 0.0)
    {
      TallyOfCredible(decay, rs, n, now);
      if n !in Reporters(Credible(rs)) { SilentTally(decay, Credible(rs), n, now); }
    }
    CredibleIsPart(rs);
    SumSkips(g, Reporters(rs), Reporters(Credible(rs)));
    SumsCompare(f, g, Reporters(Credible(rs)));
    SumsCompare(g, f, Reporters(Credible(rs)));
  }

  // ---- how much pressure there can be ----

  lemma {:induction false} AddAtOne(f: NodeId -> real, g: NodeId -> real, ns: set<NodeId>, m: NodeId, d: real)
    requires forall n :: n in ns && n != m ==> f(n) == g(n)
    requires m in ns ==> f(m) == g(m) + d
    ensures SumOver(f, ns) == SumOver(g, ns) + if m in ns then d else 0.0
    decreases ns
  {
    if ns != {} {
      var n :| n in ns;
      TakeFromSum(f, ns, n);
      TakeFromSum(g, ns, n);
      AddAtOne(f, g, ns - {n}, m, d);
    }
  }

  function Sums(decay: Decay, rs: seq<Stored>, now: Tick): NodeId -> real {
    (n: NodeId) => TallyOf(decay, rs, n, now).sum
  }

  lemma {:induction false} SumsAreFew(decay: Decay, rs: seq<Stored>, now: Tick, ns: set<NodeId>)
    requires IsDecay(decay) && Weighted(rs)
    ensures SumOver(Sums(decay, rs, now), ns) <= |rs| as real
  {
    if rs == [] {
      SumSkips(Sums(decay, rs, now), ns, {});
    } else {
      var before, last := rs[..|rs| - 1], rs[|rs| - 1];
      SumsAreFew(decay, before, now, ns);
      DecayedShrinks(decay, last, now, now);
      AddAtOne(Sums(decay, rs, now), Sums(decay, before, now), ns, last.reporter, Decayed(decay, last, now));
    }
  }

  lemma {:induction false} SharesAreFew(f: NodeId -> real, g: NodeId -> real, ns: set<NodeId>)
    requires forall n :: n in ns ==> f(n) <= 0.75 + 0.25 * g(n)
    ensures SumOver(f, ns) <= 0.75 * |ns| as real + 0.25 * SumOver(g, ns)
    decreases ns
  {
    if ns != {} {
      var n :| n in ns;
      TakeFromSum(f, ns, n);
      TakeFromSum(g, ns, n);
      SharesAreFew(f, g, ns - {n});
    }
  }

  /** No account dominates: pressure is at most three quarters of the number of reporters plus a
      quarter of the number of reports. */
  lemma PressureBound(decay: Decay, rs: seq<Stored>, now: Tick)
    requires IsDecay(decay) && Weighted(rs)
    ensures PressureOf(decay, rs, now) <= 0.75 * |Reporters(rs)| as real + 0.25 * |rs| as real
  {
    forall n
      ensures Shares(decay, rs, now)(n) <= 0.75 + 0.25 * Sums(decay, rs, now)(n)
    {
      TalliesFade(decay, rs, n, now, now);
    }
    SharesAreFew(Shares(decay, rs, now), Sums(decay, rs, now), Reporters(rs));
    SumsAreFew(decay, rs, now, Reporters(rs));
  }

  // ---- runs ----

  datatype Event = File(report: Report, karma: int) | Prune(now: Tick, keepRounds: nat)

  const EMPTY := State(map[], {})

  function Step(s: State, e: Event): State {
    match e
    case File(report, karma) => FileIn(s, report, karma)
    case Prune(now, keepRounds) => PruneIn(s, now, keepRounds)
  }

  function Run(es: seq<Event>): State {
    if es == [] then EMPTY else Step(Run(es[..|es| - 1]), es[|es| - 1])
  }

  /** The keys ever filed. */
  function Filed(es: seq<Event>): set<Key> {
    if es == [] then {}
    else
      var last := es[|es| - 1];
      Filed(es[..|es| - 1]) + if last.File? then {KeyOf(last.report)} else {}
  }

  /** By the history alone: the report is the first filed under its key, at the weight of that
      filing, and every later pruning kept it. */
  ghost predicate Kept(es: seq<Event>, accused: NodeId, x: Stored) {
    es != [] &&
    var before, last := es[..|es| - 1], es[|es| - 1];
    match last
    case File(r, karma) =>
      Kept(before, accused, x) || (KeyOf(r) !in Filed(before) && r.accused == accused && x == StoredOf(r, karma))
    case Prune(now, keepRounds) => Kept(before, accused, x) && Age(now, x.tick) <= MaxAge(keepRounds)
  }

  /** No reporter has two reports of one tick in the list. */
  ghost predicate OnePerTick(rs: seq<Stored>) {
    forall i, j :: 0 <= i < j < |rs| ==> rs[i].reporter != rs[j].reporter || rs[i].tick != rs[j].tick
  }

  lemma {:induction false} RecentIsFiltered(rs: seq<Stored>, now: Tick, maxAge: nat)
    ensures forall x :: x in Recent(rs, now, maxAge) <==> x in rs && Age(now, x.tick) <= maxAge
    ensures OnePerTick(rs) ==> OnePerTick(Recent(rs, now, maxAge))
  {
    if rs != [] {
      RecentIsFiltered(rs[..|rs| - 1], now, maxAge);
      assert rs == rs[..|rs| - 1] + [rs[|rs| - 1]];
    }
  }

  lemma {:induction false} SeenIsHistory(es: seq<Event>)
    ensures Run(es).seen == Filed(es)
  {
    if es != [] {
      SeenIsHistory(es[..|es| - 1]);
    }
  }

  /** What is stored about a player is what the history of filings and prunings leaves. */
  lemma {:induction false} StoredIffKept(es: seq<Event>, accused: NodeId, x: Stored)
    ensures x in About(Run(es), accused) <==> Kept(es, accused, x)
  {
    if es != [] {
      var before, last := es[..|es| - 1], es[|es| - 1];
      StoredIffKept(before, accused, x);
      SeenIsHistory(before);
      if last.Prune? {
        RecentIsFiltered(About(Run(before), accused), last.now, MaxAge(last.keepRounds));
      }
    }
  }

  lemma {:induction false} KeptWasFiled(es: seq<Event>, accused: NodeId, x: Stored)
    requires Kept(es, accused, x)
    ensures (x.reporter, accused, x.tick) in Filed(es) && 0.0 <= x.weight <= 1.0
  {
    var before, last := es[..|es| - 1], es[|es| - 1];
    if Kept(before, accused, x) {
      KeptWasFiled(before, accused, x);
    } else {
      WeightIffCredible(last.karma, last.report.reason);
    }
  }

  /** Over every run a player has at most one stored report per reporter and tick, each weighing
      between nothing and one. */
  lemma {:induction false} RunsKeepOnePerTick(es: seq<Event>, accused: NodeId)
    ensures OnePerTick(About(Run(es), accused)) && Weighted(About(Run(es), accused))
  {
    SeenIsHistory(es);
    forall x | x in About(Run(es), accused)
      ensures 0.0 <= x.weight <= 1.0
    {
      StoredIffKept(es, accused, x);
      KeptWasFiled(es, accused, x);
    }
    if es != [] {
      var before, last := es[..|es| - 1], es[|es| - 1];
      RunsKeepOnePerTick(before, accused);
      if last.Prune? {
        RecentIsFiltered(About(Run(before), accused), last.now, MaxAge(last.keepRounds));
      } else {
        FilingIsNew(before, last.report, last.karma, accused);
      }
    }
  }

  /** Filing changes nothing exactly when the key was filed before - even if its report has been
      pruned since. */
  lemma FilingIsIgnoredIff(es: seq<Event>, r: Report, karma: int)
    ensures FileIn(Run(es), r, karma) == Run(es) <==> KeyOf(r) in Filed(es)
  {
    SeenIsHistory(es);
    if KeyOf(r) !in Filed(es) {
      assert KeyOf(r) in FileIn(Run(es), r, karma).seen;
    }
  }

  lemma RunThen(es: seq<Event>, e: Event)
    ensures Run(es + [e]) == Step(Run(es), e)
    ensures Filed(es + [e]) == Filed(es) + if e.File? then {KeyOf(e.report)} else {}
  {
    assert (es + [e])[..|es|] == es;
  }

  /** Two new filings by one reporter on one player both stand exactly when their ticks differ,
      however close together within a round. */
  lemma TwoFilingsStandIff(es: seq<Event>, r: Report, s: Report, karma: int, karma': int)
    requires r.reporter == s.reporter && r.accused == s.accused
    requires KeyOf(r) !in Filed(es) && KeyOf(s) !in Filed(es)
    ensures var before, after :=
            About(Run(es), r.accused), About(Run(es + [File(r, karma), File(s, karma')]), r.accused);
            && (r.tick != s.tick ==> after == before + [StoredOf(r, karma), StoredOf(s, karma')])
            && (r.tick == s.tick ==> after == before + [StoredOf(r, karma)])
  {
    var one, two := es + [File(r, karma)], es + [File(r, karma), File(s, karma')];
    assert two == one + [File(s, karma')];
    RunThen(es, File(r, karma));
    RunThen(one, File(s, karma'));
    SeenIsHistory(es);
    SeenIsHistory(one);
    assert (About(Run(es), r.accused) + [StoredOf(r, karma)]) + [StoredOf(s, karma')] ==
           About(Run(es), r.accused) + [StoredOf(r, karma), StoredOf(s, karma')];
  }

  lemma FilingIsNew(es: seq<Event>, r: Report, karma: int, accused: NodeId)
    requires OnePerTick(About(Run(es), accused))
    ensures OnePerTick(About(FileIn(Run(es), r, karma), accused))
  {
    SeenIsHistory(es);
    forall x | x in About(Run(es), accused)
      ensures (x.reporter, accused, x.tick) in Run(es).seen
    {
      StoredIffKept(es, accused, x);
      KeptWasFiled(es, accused, x);
    }
  }

  // ---- the aggregator ----

  predicate Descending(a: real, b: real) { a >= b }

  /** The tally of a plain list of weights. */
  function TallyList(ws: seq<real>): Tally {
    if ws == [] then Tally(0.0, 0.0) else Tally(ws[0], ws[0]).Join(TallyList(ws[1..]))
  }

  ghost predicate NonNegative(ws: seq<real>) {
    forall i :: 0 <= i < |ws| ==> ws[i] >= 0.0
  }

  lemma {:induction false} ListTallySplits(ws: seq<real>, w: real)
    requires w >= 0.0
    ensures TallyList(ws + [w]) == TallyList(ws).Join(Tally(w, w))
  {
    if ws == [] {
      assert ws + [w] == [w] && [w][1..] == [];
    } else {
      ListTallySplits(ws[1..], w);
      assert (ws + [w])[1..] == ws[1..] + [w];
    }
  }

  lemma {:induction false} InsertTally(w: real, ws: seq<real>)
    ensures TallyList(Insert(w, ws, Descending)) == Tally(w, w).Join(TallyList(ws))
  {
    if ws == [] {
      assert [w][1..] == [];
    } else if Descending(w, ws[0]) {
      assert ([w] + ws)[1..] == ws;
    } else {
      InsertTally(w, ws[1..]);
      assert ([ws[0]] + Insert(w, ws[1..], Descending))[1..] == Insert(w, ws[1..], Descending);
    }
  }

  lemma {:induction false} SortTally(ws: seq<real>)
    ensures TallyList(SortBy(ws, Descending)) == TallyList(ws)
  {
    if ws != [] {
      SortTally(ws[1..]);
      InsertTally(ws[0], SortBy(ws[1..], Descending));
    }
  }

  lemma {:induction false} FirstIsPeak(ws: seq<real>)
    requires ws != [] && SortedBy(ws, Descending) && NonNegative(ws)
    ensures TallyList(ws).peak == ws[0]
  {
    if |ws| == 1 {
      assert ws[1..] == [];
    } else {
      FirstIsPeak(ws[1..]);
      assert ws[1] == ws[1..][0];
    }
  }

  /** The strongest of the first `i` in full and the rest at a quarter. */
  function Partial(ws: seq<real>, i: nat): real
    requires i <= |ws|
  {
    if i == 0 then 0.0 else Shared(ws[0], TallyList(ws[..i]).sum)
  }

  lemma PartialStep(ws: seq<real>, i: nat)
    requires i < |ws| && NonNegative(ws)
    ensures Partial(ws, i + 1) == Partial(ws, i) + if i == 0 then ws[0] else 0.25 * ws[i]
  {
    ListTallySplits(ws[..i], ws[i]);
    assert ws[..i] + [ws[i]] == ws[..i + 1];
  }

  lemma PartialEnds(ws: seq<real>)
    requires SortedBy(ws, Descending) && NonNegative(ws)
    ensures Partial(ws, |ws|) == TallyList(ws).Share()
  {
    assert ws[..|ws|] == ws;
    if ws != [] { FirstIsPeak(ws); }
  }

  /** The strongest in full, the rest at a quarter, in the order they come. */
  method AddUp(ws: seq<real>) returns (share: real)
    requires SortedBy(ws, Descending) && NonNegative(ws)
    ensures share == TallyList(ws).Share()
  {
    PartialEnds(ws);
    share := 0.0;
    var i := 0;
    while i < |ws|
      invariant i <= |ws| && share == Partial(ws, i)
    {
      PartialStep(ws, i);
      share := share + if i == 0 then ws[0] else 0.25 * ws[i];
      i := i + 1;
    }
  }

  method SortAndAddUp(ws: seq<real>) returns (share: real)
    requires NonNegative(ws)
    ensures share == TallyList(ws).Share()
  {
    SortTally(ws);
    SortedStaysNonNegative(ws);
    share := AddUp(SortBy(ws, Descending));
  }

  lemma SortedStaysNonNegative(ws: seq<real>)
    requires NonNegative(ws)
    ensures SortedBy(SortBy(ws, Descending), Descending) && NonNegative(SortBy(ws, Descending))
  {
    SortBySorted(ws, Descending);
    SortByPermutes(ws, Descending);
    var s := SortBy(ws, Descending);
    forall i | 0 <= i < |s| ensures s[i] >= 0.0 { assert s[i] in s; assert s[i] in ws; }
  }

  class ReportAggregator {
    var byAccused: map<NodeId, seq<Stored>>
    var seen: set<Key>
    const decay: Decay

    ghost function View(): State
      reads this
    {
      State(byAccused, seen)
    }

    ghost predicate Valid()
      reads this
    {
      IsDecay(decay) && forall n :: n in byAccused ==> Weighted(byAccused[n])
    }

    constructor (decay: Decay)
      requires IsDecay(decay)
      ensures Valid() && View() == EMPTY && this.decay == decay
    {
      byAccused, seen := map[], {};
      this.decay := decay;
    }

    /** True when the report is new and its reporter has credibility. */
    method File(r: Report, karma: int) returns (accepted: bool)
      requires Valid()
      modifies this
      ensures Valid() && View() == FileIn(old(View()), r, karma)
      ensures accepted <==> KeyOf(r) !in old(seen) && karma > KARMA_QUARANTINE
    {
      if (r.reporter, r.accused, r.tick) in seen {
        return false;
      }
      seen := seen + {(r.reporter, r.accused, r.tick)};
      var weight := Times(Credibility(karma), Severity(r.reason));
      WeightIffCredible(karma, r.reason);
      var filed := if r.accused in byAccused then byAccused[r.accused] else [];
      byAccused := byAccused[r.accused := filed + [Stored(r.reporter, weight, r.tick)]];
      accepted := weight > 0.0;
    }

    method Prune(now: Tick, keepRounds: nat)
      requires Valid()
      modifies this`byAccused
      ensures Valid() && View() == PruneIn(old(View()), now, keepRounds)
    {
      var maxAge := MaxAge(keepRounds);
      forall n | n in byAccused
        ensures Weighted(Recent(byAccused[n], now, maxAge))
      {
        RecentIsFiltered(byAccused[n], now, maxAge);
      }
      byAccused :=
        map n | n in byAccused && Recent(byAccused[n], now, maxAge) != [] :: Recent(byAccused[n], now, maxAge);
    }

    method Pressure(accused: NodeId, now: Tick) returns (total: real)
      requires Valid()
      ensures total == PressureOf(decay, About(View(), accused), now)
    {
      if accused !in byAccused {
        return 0.0;
      }
      var rs := byAccused[accused];
      var perReporter := Group(rs, now);
      total := 0.0;
      var todo := perReporter.Keys;
      ghost var shares := Shares(decay, rs, now);
      while todo != {}
        invariant todo <= perReporter.Keys
        invariant total + SumOver(shares, todo) == SumOver(shares, Reporters(rs))
        decreases todo
      {
        var n :| n in todo;
        TakeFromSum(shares, todo, n);
        assert GroupedFor(decay, perReporter, rs, n, now);
        var share := SortAndAddUp(perReporter[n]);
        total := total + share;
        todo := todo - {n};
      }
    }

    /** Each reporter's decayed weights, in filing order. */
    method Group(rs: seq<Stored>, now: Tick) returns (perReporter: map<NodeId, seq<real>>)
      requires IsDecay(decay) && Weighted(rs)
      ensures Grouped(decay, perReporter, rs, now)
    {
      perReporter := map[];
      var i := 0;
      while i < |rs|
        invariant i <= |rs| && Grouped(decay, perReporter, rs[..i], now)
      {
        var r := rs[i];
        var decayed := Times(r.weight, decay(Age(now, r.tick)));
        DecayedShrinks(decay, r, now, now);
        GroupOneMore(decay, perReporter, rs[..i], r, now);
        assert rs[..i + 1] == rs[..i] + [r];
        perReporter := perReporter[r.reporter := ListOf(perReporter, r.reporter) + [decayed]];
        i := i + 1;
      }
      assert rs[..i] == rs;
    }

    /** Everyone with a credible report on a player under brigade, in order and without
        repetition. */
    method DetectBrigading(now: Tick, suspicious: NodeId -> bool, karmaOf: NodeId -> int) returns (out: seq<NodeId>)
      requires Valid()
      ensures SortedBy(out, LexLeq) &&
              multiset(out) == multiset(OffendersAmong(decay, View(), now, suspicious, karmaOf, byAccused.Keys))
    {
      var offenders := {};
      var todo := byAccused.Keys;
      ghost var s, done := View(), {};
      while todo != {}
        invariant todo <= byAccused.Keys && done == byAccused.Keys - todo
        invariant offenders == OffendersAmong(decay, s, now, suspicious, karmaOf, done)
        decreases todo
      {
        var a :| a in todo;
        var accusers := AccusersOf(a, now, suspicious, karmaOf);
        OneMoreAccused(decay, s, now, suspicious, karmaOf, done, a);
        offenders := offenders + accusers;
        done := done + {a};
        todo := todo - {a};
      }
      assert done == byAccused.Keys;
      var listed := Listed(offenders);
      LexOrder();
      SortBySorted(listed, LexLeq);
      SortByPermutes(listed, LexLeq);
      out := SortBy(listed, LexLeq);
    }

    method AccusersOf(a: NodeId, now: Tick, suspicious: NodeId -> bool, karmaOf: NodeId -> int)
      returns (ns: set<NodeId>)
      requires Valid() && a in byAccused
      ensures ns == Accusers(decay, View(), now, suspicious, karmaOf, a)
    {
      if karmaOf(a) < BRIGADE_PROTECT_KARMA || suspicious(a) {
        return {};
      }
      var pressure := Pressure(a, now);
      ns := if pressure >= BRIGADE_PRESSURE then set r | r in byAccused[a] && r.weight > 0.0 :: r.reporter else {};
    }
  }

  /** A reputable player with a clean record, under pressure all the same. */
  ghost predicate Brigaded(decay: Decay, s: State, now: Tick, suspicious: NodeId -> bool, karmaOf: NodeId -> int,
                           a: NodeId)
  {
    && a in s.byAccused
    && karmaOf(a) >= BRIGADE_PROTECT_KARMA
    && !suspicious(a)
    && PressureOf(decay, s.byAccused[a], now) >= BRIGADE_PRESSURE
  }

  /** The credible reporters of a player under brigade. */
  ghost function Accusers(
    decay: Decay, s: State, now: Tick, suspicious: NodeId -> bool, karmaOf: NodeId -> int, a: NodeId): set<NodeId>
  {
    if Brigaded(decay, s, now, suspicious, karmaOf, a) then set r | r in s.byAccused[a] && r.weight > 0.0 :: r.reporter
    else {}
  }

  ghost function OffendersAmong(
    decay: Decay, s: State, now: Tick, suspicious: NodeId -> bool, karmaOf: NodeId -> int,
    players: set<NodeId>): set<NodeId>
  {
    set a, n | a in players && n in Accusers(decay, s, now, suspicious, karmaOf, a) :: n
  }

  lemma OneMoreAccused(
    decay: Decay, s: State, now: Tick, suspicious: NodeId -> bool, karmaOf: NodeId -> int, players: set<NodeId>,
    a: NodeId)
    ensures OffendersAmong(decay, s, now, suspicious, karmaOf, players + {a}) ==
            OffendersAmong(decay, s, now, suspicious, karmaOf, players)
            + Accusers(decay, s, now, suspicious, karmaOf, a)
  {
  }

  method Listed(ns: set<NodeId>) returns (out: seq<NodeId>)
    ensures multiset(out) == multiset(ns)
  {
    out := [];
    var todo := ns;
    while todo != {}
      invariant todo <= ns && multiset(out) + multiset(todo) == multiset(ns)
      decreases todo
    {
      var n :| n in todo;
      out := out + [n];
      todo := todo - {n};
    }
  }

  function ListOf(perReporter: map<NodeId, seq<real>>, n: NodeId): seq<real> {
    if n in perReporter then perReporter[n] else []
  }

  ghost predicate Grouped(decay: Decay, perReporter: map<NodeId, seq<real>>, rs: seq<Stored>, now: Tick) {
    && perReporter.Keys == Reporters(rs)
    && forall n :: GroupedFor(decay, perReporter, rs, n, now)
  }

  ghost predicate GroupedFor(decay: Decay, perReporter: map<NodeId, seq<real>>, rs: seq<Stored>, n: NodeId, now: Tick) {
    NonNegative(ListOf(perReporter, n)) && TallyList(ListOf(perReporter, n)) == TallyOf(decay, rs, n, now)
  }

  lemma GroupOneMore(decay: Decay, perReporter: map<NodeId, seq<real>>, rs: seq<Stored>, r: Stored, now: Tick)
    requires Grouped(decay, perReporter, rs, now) && Decayed(decay, r, now) >= 0.0
    ensures Grouped(decay, perReporter[r.reporter := ListOf(perReporter, r.reporter) + [Decayed(decay, r, now)]],
                    rs + [r], now)
  {
    var m, d := r.reporter, Decayed(decay, r, now);
    var next := perReporter[m := ListOf(perReporter, m) + [d]];
    StillReportedAll(rs, r);
    forall n
      ensures GroupedFor(decay, next, rs + [r], n, now)
    {
      assert GroupedFor(decay, perReporter, rs, n, now);
      GroupOneMoreFor(decay, perReporter, rs, r, n, now);
    }
  }

  lemma AppendTally(ws: seq<real>, tally: Tally, w: real)
    requires NonNegative(ws) && w >= 0.0 && TallyList(ws) == tally
    ensures NonNegative(ws + [w]) && TallyList(ws + [w]) == tally.Join(Tally(w, w))
  {
    ListTallySplits(ws, w);
  }

  lemma ListAfter(perReporter: map<NodeId, seq<real>>, m: NodeId, list: seq<real>, n: NodeId)
    ensures ListOf(perReporter[m := list], n) == if n == m then list else ListOf(perReporter, n)
  {
  }

  lemma TallyStep(decay: Decay, rs: seq<Stored>, r: Stored, n: NodeId, now: Tick)
    ensures var d := Decayed(decay, r, now);
            TallyOf(decay, rs + [r], n, now) ==
            if n == r.reporter then TallyOf(decay, rs, n, now).Join(Tally(d, d)) else TallyOf(decay, rs, n, now)
  {
    TallyAppends(decay, rs, r, n, now);
    if n == r.reporter {
      assert TallyOne(decay, r, n, now) == Tally(Decayed(decay, r, now), Decayed(decay, r, now));
    } else {
      assert TallyOne(decay, r, n, now) == Tally(0.0, 0.0);
      JoinNothing(TallyOf(decay, rs, n, now));
    }
  }

  lemma GroupOneMoreFor(
    decay: Decay, perReporter: map<NodeId, seq<real>>, rs: seq<Stored>, r: Stored, n: NodeId, now: Tick)
    requires GroupedFor(decay, perReporter, rs, n, now) && Decayed(decay, r, now) >= 0.0
    ensures GroupedFor(decay, perReporter[r.reporter := ListOf(perReporter, r.reporter) + [Decayed(decay, r, now)]],
                       rs + [r], n, now)
  {
    var list, d := ListOf(perReporter, n), Decayed(decay, r, now);
    TallyStep(decay, rs, r, n, now);
    ListAfter(perReporter, r.reporter, ListOf(perReporter, r.reporter) + [d], n);
    AppendTally(list, TallyOf(decay, rs, n, now), d);
  }

  /** Short of five reports, a brigade takes two reporters. */
  lemma LoneReporterNeedsFive(
    decay: Decay, s: State, now: Tick, suspicious: NodeId -> bool, karmaOf: NodeId -> int, a: NodeId)
    requires IsDecay(decay) && Brigaded(decay, s, now, suspicious, karmaOf, a) && Weighted(s.byAccused[a])
    ensures |Reporters(s.byAccused[a])| >= 2 || |s.byAccused[a]| >= 5
  {
    PressureBound(decay, s.byAccused[a], now);
  }

  /** A pruning keeps exactly the reports of the last `keepRounds` rounds of 5760 ticks - all of them,
      if that is more than a tick can count. */
  lemma PruningKeepsIff(s: State, accused: NodeId, x: Stored, now: Tick, keepRounds: nat)
    requires now <= TICK_MAX
    ensures x in About(PruneIn(s, now, keepRounds), accused) <==>
            x in About(s, accused) && now <= x.tick + 5760 * keepRounds
  {
    RecentIsFiltered(About(s, accused), now, MaxAge(keepRounds));
    if accused in s.byAccused {
      assert x in Recent(s.byAccused[accused], now, MaxAge(keepRounds)) ==>
          Recent(s.byAccused[accused], now, MaxAge(keepRounds)) != [];
    }
  }

  // ---- a crowd ----

  /** One report each by different reporters, every one of the same weight by now. */
  ghost predicate Crowd(decay: Decay, rs: seq<Stored>, w: real, now: Tick) {
    && (forall i :: 0 <= i < |rs| ==> Decayed(decay, rs[i], now) == w)
    && (forall i, j :: 0 <= i < j < |rs| ==> rs[i].reporter != rs[j].reporter)
  }

  lemma CrowdFront(decay: Decay, rs: seq<Stored>, w: real, now: Tick)
    requires rs != [] && Crowd(decay, rs, w, now)
    ensures Crowd(decay, rs[..|rs| - 1], w, now) && Decayed(decay, rs[|rs| - 1], now) == w
    ensures forall r :: r in rs[..|rs| - 1] ==> r.reporter != rs[|rs| - 1].reporter
  {
  }

  lemma {:induction false} CrowdPressure(decay: Decay, rs: seq<Stored>, w: real, now: Tick)
    requires Crowd(decay, rs, w, now) && w >= 0.0
    ensures PressureOf(decay, rs, now) == Times(|rs| as real, w)
  {
    if rs != [] {
      var front, last := rs[..|rs| - 1], rs[|rs| - 1];
      CrowdFront(decay, rs, w, now);
      CrowdPressure(decay, front, w, now);
      assert rs == front + [last];
      OneMoreInCrowd(decay, front, last, w, now);
      OnceMore(|front|, w);
    }
  }

  lemma OnceMore(n: nat, w: real)
    ensures Times((n + 1) as real, w) == Times(n as real, w) + w
  {
  }

  lemma OneMoreInCrowd(decay: Decay, front: seq<Stored>, last: Stored, w: real, now: Tick)
    requires Decayed(decay, last, now) == w >= 0.0 && forall r :: r in front ==> r.reporter != last.reporter
    ensures PressureOf(decay, front + [last], now) == PressureOf(decay, front, now) + w
  {
    var f, g, n := Shares(decay, front, now), Shares(decay, front + [last], now), last.reporter;
    StillReportedAll(front, last);
    SilentTally(decay, front, n, now);
    TallyStep(decay, front, last, n, now);
    assert g(n) == w;
    TakeFromSum(g, Reporters(front + [last]), n);
    assert Reporters(front + [last]) - {n} == Reporters(front);
    forall m | m in Reporters(front)
      ensures f(m) == g(m)
    {
      TallyStep(decay, front, last, m, now);
    }
    SumsCompare(f, g, Reporters(front));
    SumsCompare(g, f, Reporters(front));
  }

  /** A single report presses, `age` ticks after it was filed, by its weight decayed that long; one
      filed ahead of the evaluation, undecayed. */
  lemma OneReportFades(decay: Decay, r: Stored, age: nat, ahead: nat)
    requires IsDecay(decay) && r.weight >= 0.0
    ensures PressureOf(decay, [r], r.tick + age) == Times(r.weight, decay(age))
    ensures ahead <= r.tick ==> PressureOf(decay, [r], r.tick - ahead) == Times(r.weight, decay(0))
  {
    ScaledNonNegative(r.weight, decay(age));
    ScaledNonNegative(r.weight, decay(0));
    CrowdPressure(decay, [r], Times(r.weight, decay(age)), r.tick + age);
    if ahead <= r.tick { CrowdPressure(decay, [r], Times(r.weight, decay(0)), r.tick - ahead); }
  }

  lemma ScaledNonNegative(x: real, y: real)
    requires x >= 0.0 && y >= 0.0
    ensures Times(x, y) >= 0.0
  {
  }

  /** How many accounts in good standing, each reporting one player once for the same reason, make a
      brigade's pressure while their reports are fresh. */
  function BrigadeSize(reason: Reason): nat {
    match reason
    case Aimbot => 2
    case Wallhack | SpeedHack => 3
    case Teaming => 4
    case Griefing => 5
    case Toxicity => 7
    case Other => 8
  }

  /** A fresh report for the reason, by somebody at the default karma or above. */
  ghost predicate Fresh(decay: Decay, x: Stored, reason: Reason, now: Tick) {
    && decay(Age(now, x.tick)) == 1.0
    && exists r: Report, karma :: r.reason == reason && karma >= KARMA_DEFAULT && x == StoredOf(r, karma)
  }

  lemma FreshWeighs(decay: Decay, x: Stored, reason: Reason, now: Tick)
    requires Fresh(decay, x, reason, now)
    ensures Decayed(decay, x, now) == Severity(reason)
  {
    var r: Report, karma :| r.reason == reason && karma >= KARMA_DEFAULT && x == StoredOf(r, karma);
    WeightIffCredible(karma, reason);
  }

  lemma CrowdIsBrigadeIff(decay: Decay, rs: seq<Stored>, reason: Reason, now: Tick)
    requires forall i :: 0 <= i < |rs| ==> Fresh(decay, rs[i], reason, now)
    requires forall i, j :: 0 <= i < j < |rs| ==> rs[i].reporter != rs[j].reporter
    ensures PressureOf(decay, rs, now) >= BRIGADE_PRESSURE <==> |rs| >= BrigadeSize(reason)
  {
    forall i | 0 <= i < |rs| ensures Decayed(decay, rs[i], now) == Severity(reason) {
      FreshWeighs(decay, rs[i], reason, now);
    }
    CrowdPressure(decay, rs, Severity(reason), now);
  }

  // ---- stacking ----

  /** All by one reporter, and none of their weight decayed. */
  ghost predicate FreshBy(decay: Decay, rs: seq<Stored>, reporter: NodeId, now: Tick) {
    forall i :: 0 <= i < |rs| ==> rs[i].reporter == reporter && Decayed(decay, rs[i], now) == 1.0
  }

  lemma {:induction false} FreshTally(decay: Decay, rs: seq<Stored>, reporter: NodeId, now: Tick)
    requires FreshBy(decay, rs, reporter, now)
    ensures TallyOf(decay, rs, reporter, now) == if rs == [] then Tally(0.0, 0.0) else Tally(1.0, |rs| as real)
  {
    if rs != [] {
      FreshTally(decay, rs[..|rs| - 1], reporter, now);
      assert TallyOne(decay, rs[|rs| - 1], reporter, now) == Tally(1.0, 1.0);
    }
  }

  /** A lone reporter's fresh reports of full weight press 0.75 and a quarter for each, so they
      reach a brigade's pressure exactly from the fifth on. */
  lemma LoneReporterPressure(decay: Decay, rs: seq<Stored>, reporter: NodeId, now: Tick)
    requires rs != [] && FreshBy(decay, rs, reporter, now)
    ensures PressureOf(decay, rs, now) == 0.75 + 0.25 * |rs| as real
    ensures PressureOf(decay, rs, now) >= BRIGADE_PRESSURE <==> |rs| >= 5
  {
    FreshTally(decay, rs, reporter, now);
    assert Reporters(rs) == {reporter} by {
      assert rs[0] in rs;
    }
    TakeFromSum(Shares(decay, rs, now), {reporter}, reporter);
    assert {reporter} - {reporter} == {};
  }

  /** One account reporting the same player at every tick from zero. */
  function Barrage(n: nat): seq<Event> {
    if n == 0 then [] else Barrage(n - 1) + [File(Report("a", "b", Aimbot, n - 1), KARMA_DEFAULT)]
  }

  function Salvo(n: nat): seq<Stored> {
    if n == 0 then [] else Salvo(n - 1) + [Stored("a", 1.0, n - 1)]
  }

  lemma {:induction false} BarrageIsStored(n: nat)
    ensures About(Run(Barrage(n)), "b") == Salvo(n)
    ensures forall k :: k in Run(Barrage(n)).seen ==> k.2 < n
  {
    if n > 0 {
      BarrageIsStored(n - 1);
      assert Barrage(n)[..|Barrage(n)| - 1] == Barrage(n - 1);
      assert StoredOf(Report("a", "b", Aimbot, n - 1), KARMA_DEFAULT).weight == 1.0;
    }
  }

  lemma FullWeightDecays(decay: Decay, r: Stored, now: Tick)
    requires IsDecay(decay) && decay(now) >= 0.95 && r.weight == 1.0
    ensures Decayed(decay, r, now) >= 0.95
  {
    assert Decayed(decay, r, now) == decay(Age(now, r.tick));
  }

  lemma {:induction false} SalvoWeighs(decay: Decay, n: nat, now: Tick)
    requires forall k :: 0 <= k < n ==> Decayed(decay, Stored("a", 1.0, k), now) >= 0.95
    ensures TallyOf(decay, Salvo(n), "a", now).sum >= 0.95 * n as real
    ensures n > 0 ==> TallyOf(decay, Salvo(n), "a", now).peak >= 0.95
  {
    if n > 0 {
      SalvoWeighs(decay, n - 1, now);
      assert Salvo(n)[..|Salvo(n)| - 1] == Salvo(n - 1);
    }
  }

  lemma {:induction false} SalvoHasOneReporter(n: nat)
    requires n > 0
    ensures Reporters(Salvo(n)) == {"a"}
  {
    if n > 1 {
      SalvoHasOneReporter(n - 1);
    }
    StillReportedAll(Salvo(n - 1), Stored("a", 1.0, n - 1));
  }

  lemma StillReportedAll(rs: seq<Stored>, last: Stored)
    ensures Reporters(rs + [last]) == Reporters(rs) + {last.reporter}
  {
    forall n ensures n in Reporters(rs + [last]) <==> n in Reporters(rs) || n == last.reporter {
      StillReported(rs, last, n);
    }
  }

  /** Filings are told apart by tick, not by round: six in six successive ticks, all by one
      account, carry the pressure of a brigade. */
  lemma OneAccountCanStack(decay: Decay)
    requires IsDecay(decay) && decay(5) >= 0.95
    ensures PressureOf(decay, About(Run(Barrage(6)), "b"), 5) >= BRIGADE_PRESSURE
  {
    BarrageIsStored(6);
    forall k | 0 <= k < 6
      ensures Decayed(decay, Stored("a", 1.0, k), 5) >= 0.95
    {
      FullWeightDecays(decay, Stored("a", 1.0, k), 5);
    }
    SalvoWeighs(decay, 6, 5);
    SalvoHasOneReporter(6);
    TakeFromSum(Shares(decay, Salvo(6), 5), {"a"}, "a");
    assert {"a"} - {"a"} == {};
  }
}
