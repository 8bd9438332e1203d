# Verified models of the arena crates

This project models the decision logic that the nodes of a peer-to-peer arena game have to agree
on, and the numeric kernels whose bounds the game relies on, and proves what each promises: over
every input, every run or every reachable state. Where a promise is false of the code, the code is
kept as it is, a lemma gives an input that breaks the promise, and another says exactly when it
holds.

`dafny verify dfyconfig.toml` checks everything.

- Agreement between nodes: `Authority` (who runs a zone), `Replica` (tick-tagged inputs),
  `Quorum` and `QuorumAudit` (state hashes, sustained dissent), `CrossVal` (verifier votes).
- Snapshots: `Baseline` (the ring of what was sent) and `Snapshots` (deltas, the encoder, the
  client's view and the lossy network between them).
- Karma: `Reports`, `Detector`, `Ledger`.
- Content: `Spell`, `Content`, `Registry`, `Loot`, and the generator `SplitMix`.
- The living world: `Leyline`, `Ecology`, `Myth`.
- Geometry: `TwoBone`, `Skin`, over `Geometry`.
- Shared: `Sorting` (stable sort by a preorder), `Wrappers`, `Protocol`.

Code that updates state in place is a class whose methods are proved against a function of the old
state; the theorems are about that function and its runs. Runs are sequences of calls or events,
read from the beginning.

Choices that hold throughout:

- Floating point is modelled by reals; NaN does not occur. Integers are unbounded where the code
  cannot reach its limits, and wrap, saturate or truncate where it can (`Ledger`, `Detector`,
  `Loot`, `SplitMix`, `Spell`, `Reports`, `Replica`, `Skin`).
- What is computed by code outside the model is a parameter: rendezvous scores, the report decay
  curve, square roots, exponentials and logarithms, the simulated world of a replica, the dice and
  names drawn from a seeded generator, the season of a tick. Lemmas state the few facts used.
- A library sort is the stable sort of `Sorting`; iteration over a hash map or set takes the keys
  in an arbitrary order.
- A product of two unknowns is written `Geometry.Times` so that proofs can relate equal products.

Where the code differs from its own documentation, the model follows the code:

- A fusion may return nothing after karma and the log have moved (`Ledger.SilentMoveIff`, `Ledger.SilentFusion`).
- Quarantine and the temporary ban begin at their marks, not below them (`Ledger.BandsIff`).
- Reports are told apart by tick, not by round: two by one reporter stand exactly when their ticks
  differ (`Reports.TwoFilingsStandIff`), and five reach a brigade's pressure
  (`Reports.LoneReporterPressure`, `Reports.OneAccountCanStack`).
- A slash verdict is repeated on every round at or past the threshold (`QuorumAudit.SlashIff`).
- Disputes are kept per tick, so two zones at one tick count once (`CrossVal.RunReadsOff`).
- A keyframe does not clear the client's view (`Snapshots.KeyframeLeavesGhosts`), and a delta has
  no field for kind, team or owner (`Snapshots.TeamChangeIsLost`).
- Leyline diffusion is sure to conserve mana only while no well's load exceeds its capacity
  (`Leyline.ConservesIff`, `Leyline.HubInventsMana`).
- Inputs left stale by a reseed outlive every advance that does not skip
  (`Replica.StaleInputsDroppedIff`, `Replica.StaleInputComesBack`).
- The hashes of a vote are held against the claim of its moment, not the one that is resolved
  (`CrossVal.HashesAreTruthIff`, `CrossVal.LateClaimDisputedIff`).
- The dispute quorum is two thirds of the expected sample, so with many votes a minority can reach
  it (`CrossVal.SupermajorityIff`, `CrossVal.MinorityDisputes`).
- The complexity of a spell is a 32-bit sum and wraps (`Spell.BudgetBoundsPriceIff`,
  `Spell.HugeSpellFits`).
- Drop counts are remainders of 64-bit words, equally likely only if the size of their range divides
  2^64 (`Loot.CountsAreEvenIff`).
- Predators neither reduce their prey nor are bounded by the land's capacity
  (`Ecology.GrazersAreNeverEaten`, `Ecology.PredatorsOutgrowAnyBound`,
  `Ecology.UnderfedPredatorsStayBounded`).
- Any forging is mythic in itself, whatever the conjunction (`Myth.MythicDeedsIff`); no deed ever
  seeds a relic (`Myth.DeedDecidesManifestation`); and the legend threshold is a level,
  not an edge (`Myth.MintingIsCrossingIff`, `Myth.IdleDeedsMint`, `Myth.OneDiscovery`).
- The detector's running averages remember every admitted round, not the last twelve
  (`Detector.OldRoundsFade`, `Detector.WindowAloneIff`, `Detector.WindowForgetsAverageDoesNot`).

## Model

| member | source | states |
|---|---|---|
| Authority.OwnerIsTheWinner | crates/arena-mesh/src/authority.rs:103-117 | The owner is the node id carried by every candidate no other beats (score, then the larger id), and there is an owner exactly when somebody stands. |
| Authority.OwnerIgnoresOrder | crates/arena-mesh/src/authority.rs:103-117 | Two nodes that discovered the same candidates in different orders compute the same owner. |
| Authority.NewcomerDisruption | crates/arena-mesh/src/authority.rs:103-117 | A newcomer either takes a zone for itself or leaves its owner in place, and takes it exactly when the incumbent's (score, id) yields to its own. |
| Authority.RefreshKeepsOwner | crates/arena-mesh/src/authority.rs:103-117 | Whatever a refresh adds and drops, a zone whose old winner still stands and whose new winner already stood keeps its owner. |
| Authority.RankingIsCanonicalPermutation | crates/arena-mesh/src/authority.rs:123-136 | The ranking lists each candidate as often as it stands and depends only on the multiset of candidates. |
| Authority.DeletionKeepsOrder | crates/arena-mesh/src/authority.rs:123-136 | Deleting any candidate closes its gap in the ranking and moves nobody else. |
| Authority.FailoverPromotesSecond | crates/arena-mesh/src/authority.rs:123-136 | With distinct ids, when the head of the ranking drops out the runner-up becomes the head. |
| Authority.HeadIsOwnerIff | crates/arena-mesh/src/authority.rs:109-133 | The head of the ranking is the owner exactly when all candidates holding the top score carry one node id: the two tie-breaks point opposite ways (line 114 against line 133). |
| Authority.ZoneRouter.UpdateCandidates | crates/arena-mesh/src/authority.rs:162-166 | After any refresh of the candidate list a zone has changed hands only if its winner left or a newcomer took it; a single newcomer is the only one it can go to; a rearranged list changes neither owner nor ranking. |
| Baseline.RunMirrors | crates/arena-net/src/baseline.rs:31-101 | Over every run of record, ack and forget a client's ring is the 32-entry window over the log of what was sent to it since it was last forgotten, without repeated ticks, and its mark is the largest tick acked; other clients do not matter. |
| Baseline.RingRefinesLog | crates/arena-net/src/baseline.rs:43-48 | Lookup returns the set last recorded for a retained tick and nothing for any other. |
| Baseline.AscendingTicksKeepNewest | crates/arena-net/src/baseline.rs:31-41 | When ticks ascend, the ring holds exactly the newest 32 snapshots, as sent. |
| Baseline.ForgetErases | crates/arena-net/src/baseline.rs:99-101 | After a forget, nothing sent or acked before can be looked up. |
| Baseline.BaselineStore.RecordSnapshot | crates/arena-net/src/baseline.rs:65-75 | The store's whole new state after a record: one client's ring re-recorded in place or extended and trimmed; what was recorded can be looked up, and no other client's lookups change. |
| Baseline.BaselineStore.AckTick | crates/arena-net/src/baseline.rs:89-95 | The store's whole new state after an ack: the mark never moves back. |
| Baseline.BaselineStore.ForgetClient | crates/arena-net/src/baseline.rs:99-101 | The store's whole new state after a forget: the client is gone, nobody else is touched. |
| Snapshots.DeltaOntoOtherBase | crates/arena-protocol/src/entity.rs:129-202 | A delta taken against one state turns another into the new state exactly when that other already carries every field the delta leaves out. |
| Snapshots.DeltaRoundTrip | crates/arena-protocol/src/entity.rs:126-202 | diff followed by apply gives the new state back exactly when kind, team and owner did not change; a spawn round-trips onto any base; a delta is empty exactly when nothing it can carry changed. |
| Snapshots.TeamChangeIsLost | crates/arena-protocol/src/entity.rs:129-202 | Counterexample to the unconditional round trip: a change of team is in no field of the delta. |
| Snapshots.ViewAfter | crates/arena-protocol/src/snapshot.rs:157-174 | Entity by entity, what a client holding any view makes of an encoded snapshot. |
| Snapshots.SnapshotExactIff | crates/arena-protocol/src/snapshot.rs:157-174 | The client's view becomes the published view exactly when it already held what the deltas leave out and nothing that neither the baseline nor the new world knows. |
| Snapshots.KeyframeDespawnsNobody | crates/arena-protocol/src/snapshot.rs:140-174 | A keyframe removes nothing: whatever the client held before, it holds after. |
| Snapshots.KeyframeLeavesGhosts | crates/arena-protocol/src/snapshot.rs:140-174 | Counterexample as a legal run: a keyframe, its ack lost, a player gone, a second keyframe - and the player who left stays in the view. |
| Snapshots.WorldView.Apply | crates/arena-protocol/src/snapshot.rs:157-174 | The materialised view after a snapshot is the old one with its deltas, despawns and local state applied, in the code's order. |
| Snapshots.SnapshotEncoder.Encode | crates/arena-net/src/server.rs:68-177 | The snapshot encodes the world against the set last sent under the largest tick the client acked, while that tick is retained, and against nothing at tick 0 otherwise, by whatever run of the store it came to this; what was sent is remembered under its tick. |
| Snapshots.BaselineIsLogged | crates/arena-net/src/server.rs:99-113 | The baseline the encoder picks is the set that was sent at the tick it labels it with. |
| Snapshots.PublishedAgainstNewestAck | crates/arena-net/src/server.rs:99-113 | Over every legal run each snapshot goes out against the set sent at the largest tick whose ack had arrived, if that is among the last 32 published, and as a keyframe otherwise. |
| Snapshots.WireIsPublished | crates/arena-net/src/server.rs:68-177 | Whatever is on the wire was published in the run, so the above holds of it. |
| Snapshots.AcksNameHighest | crates/arena-net/src/client.rs:88-93 | What a client acks is the highest tick it has received so far, however the network reorders; every ack it sends names a tick received, or none. |
| Snapshots.BaselinesWereReceived | crates/arena-net/src/server.rs:99-113 | So over every legal run no delta is taken against a world the client has not received. |
| Snapshots.OwnEntityIsHeld | crates/arena-net/src/server.rs:145-198 | After any snapshot the client holds itself: as published, or dead at the origin while it is not in the world. |
| Snapshots.RunKeepsInv | crates/arena-net/src/server.rs:68-177 | Over every run of publishing, delivery, loss, duplication, reordering and acks, each packet in flight encodes the world of its tick against the set sent at its baseline tick. |
| Snapshots.RunExactIff | crates/arena-net/src/server.rs:68-177 | Over every legal run the client's view equals the published view after every action exactly when every delivery found the client ready. |
| Snapshots.DisciplinedRunsAreExact | crates/arena-net/src/server.rs:68-177 | If identities are stable and a delta is applied only on the view it was taken against, every run is exact, however the network loses, duplicates or reorders. |
| Replica.Engine.Schedule | crates/arena-replica/src/replica.rs:76-82 | The schedule after an input arrives: late ones are refused, others are queued under their tick. |
| Replica.Engine.ScheduleLocal | crates/arena-replica/src/replica.rs:87-92 | A local input is queued eight ticks ahead, saturating at the top of the tick range, and the tagged copy returned. |
| Replica.Engine.Reseed | crates/arena-replica/src/replica.rs:59-69 | Adopting a snapshot replaces world and tick and keeps everything that is scheduled. |
| Replica.Engine.AdvanceTo | crates/arena-replica/src/replica.rs:98-115 | The world and the schedule after an advance, including the catch-up skip of gaps longer than 16 ticks. |
| Replica.RunFollowsChapter | crates/arena-replica/src/replica.rs:59-115 | Over every run of arrivals, advances, skips and reseeds the world is the canonical meaning of the inputs held since the last skip or reseed, from the world and tick that one left, and exactly what is still due is scheduled. |
| Replica.ScheduleIsHeld | crates/arena-replica/src/replica.rs:76-115 | Over every run the schedule holds, tick by tick and in arrival order, the accepted inputs no advance used up and no skip lost. |
| Replica.RunFollowsLog | crates/arena-replica/src/replica.rs:76-115 | Over every run without skips and reseeds, that is the meaning of all inputs accepted since the start. |
| Replica.RejoinedRunFollowsLog | crates/arena-replica/src/replica.rs:59-115 | Whatever a run was before, once its last skip or reseed left it on a log's world with the log's inputs from that tick on, it is at the log's world of its tick, in any interleaving. |
| Replica.ReseedReconverges | crates/arena-replica/src/replica.rs:63-69 | The merge to the quorum: reseeded with a peer's world and tick, a replica computes what the peer computes at every later target, skips included, if it heard of the same unambiguous inputs from that tick on. |
| Replica.StaleInputsDroppedIff | crates/arena-replica/src/replica.rs:66-102 | An input left behind by a reseed is dropped by the next advance exactly when that advance skips, against the comment at line 66. |
| Replica.StaleInputComesBack | crates/arena-replica/src/replica.rs:59-115 | Four calls that show it, from any state: an input is scheduled, a reseed passes its tick, the next advance keeps it, and a reseed to its tick has it applied after all. |
| Replica.ChaptersConverge | crates/arena-replica/src/replica.rs:59-115 | Two replicas that last skipped or reseeded to the same world and tick and hold the same inputs since, in any order and interleaving, hold the same world at the same tick, if no author reuses a sequence number within a tick. |
| Replica.ReplicasConverge | crates/arena-replica/src/replica.rs:93-115 | Two replicas that start alike, never skip and accept the same inputs in any order and interleaving hold the same world at the same tick, if no author reuses a sequence number within a tick. |
| Replica.WorldIgnoresArrivalOrder | crates/arena-replica/src/replica.rs:103-112 | The world a log leads to depends on the multiset of its unambiguous inputs, not their order. |
| Replica.CanonicalOrderIff | crates/arena-replica/src/replica.rs:106-107 | One tick's inputs are applied in one order whatever order they arrived in exactly when no (author, sequence number) names two different inputs. |
| Replica.CanonicalIsOrdered | crates/arena-replica/src/replica.rs:106-108 | A tick applies exactly the inputs it was given, authors in dictionary order and each author's inputs by ascending sequence number. |
| Replica.TickHeedsNumbers | crates/arena-replica/src/replica.rs:103-145 | In any simulation that does to bodies what it is asked to: after a tick's inputs a participant is there by its highest numbered join or leave, a body that stays holds its highest numbered frame, and a newcomer's team is that of its lowest numbered join, Red if it names none. |
| Replica.RosterIsLawful | crates/arena-replica/src/replica.rs:118-145 | There is such a simulation. |
| Sorting.LexIff | crates/arena-replica/src/replica.rs:107 | The order of authors: a proper prefix first, else by the first character that differs. |
| Quorum.Agree | crates/arena-replica/src/quorum.rs:74-107 | The agreement names the most frequent hash, the smallest among equals, splits the nodes by it, sorted, and claims a quorum on a strict majority. |
| Quorum.PickWinner | crates/arena-replica/src/quorum.rs:84-91 | Walking the hashes in ascending order, strictly better counts only: the most frequent hash, the smallest among equals. |
| Quorum.QuorumIffStrictMajority | crates/arena-replica/src/quorum.rs:82-92 | A quorum is claimed exactly when some hash has a strict majority, and then that hash is the one agreed on. |
| Quorum.ResyncIff | crates/arena-replica/src/quorum.rs:48-66 | A node is told to resync to a hash exactly when a strict majority published it and the node itself published another. |
| Quorum.VerdictIff | crates/arena-replica/src/quorum.rs:48-66 | The other verdicts: inconclusive exactly without a strict majority, agreed exactly when a majority's hash is everybody's, and otherwise a node of the majority is handed exactly the nodes that published something else, in order. |
| Quorum.AgreementIsCanonical | crates/arena-replica/src/quorum.rs:74-107 | Replicas that collected the same proofs in different orders reach the same agreement. |
| QuorumAudit.QuorumAuditor.RecordRound | crates/arena-karma/src/quorum_audit.rs:62-92 | The streaks, ticks and verdicts after a round, for any lists: agreement clears first, then each dissent entry extends and may emit. |
| QuorumAudit.StreakIsTrailingDissents | crates/arena-karma/src/quorum_audit.rs:54-92 | Over every history of proper rounds a (zone, node) streak is the number of trailing dissents among the rounds that mention the node in that zone, with exactly those rounds' ticks. |
| QuorumAudit.RecordKeepsTrack | crates/arena-karma/src/quorum_audit.rs:62-92 | The maps a round leaves are those of the history with that round appended. |
| QuorumAudit.SlashIff | crates/arena-karma/src/quorum_audit.rs:76-91 | A proper round recommends a slash exactly for its dissenters that have now lost at least three mentions in a row - on every such round, not only the crossing one. |
| QuorumAudit.ConsensusRoundsAreProper | crates/arena-replica/src/quorum.rs:94-106 | Rounds fed from the state-hash agreement are proper whenever each node proves once. |
| CrossVal.StateReadsOff | crates/arena-karma/src/crossval.rs:141-173 | Claims and tallies after any run are the last claim and each verifier's last vote, judged against the claim known when it arrived. |
| CrossVal.RunReadsOff | crates/arena-karma/src/crossval.rs:141-198 | Over every run, a tick counts against an authority exactly when the first resolve to decide some zone at that tick found its claim standing and at least a quorum of dissenters. |
| CrossVal.DisputesOnlyGrow | crates/arena-karma/src/crossval.rs:178-214 | Disputed ticks only accumulate, and so do both recommendations. |
| CrossVal.DecidedKeysAreFinal | crates/arena-karma/src/crossval.rs:190-197 | Once a key is decided no later call adds a dispute through it. |
| CrossVal.JudgementReadsOff | crates/arena-karma/src/crossval.rs:155-173 | Over every run a verifier's judgement on a key is its last vote beside the claim that stood when that vote came, whatever claim stands now. |
| CrossVal.HashesAreTruthIff | crates/arena-karma/src/crossval.rs:158-163 | A vote counts by its flag and its hash beside the standing claim - the hashes as ground truth - exactly unless it was flagged as agreement and the claim of its moment, or the lack of one, judges its hash otherwise. |
| CrossVal.LateClaimDisputedIff | crates/arena-karma/src/crossval.rs:141-198 | Counterexamples in one: after a unanimous vote for a hash, a new claim is disputed exactly when the claim that stood before the votes contradicted them, whatever the new one says - so a wrong claim published late or in place of a right one passes, and a right one in place of a wrong one does not. |
| CrossVal.DissentIff | crates/arena-karma/src/crossval.rs:155-173 | As long as all claims on a key carry one hash, whenever they came, a verifier dissents exactly when its last vote said so, or carried another hash after a claim was there. |
| CrossVal.FaultyMinorityIsHarmless | crates/arena-karma/src/crossval.rs:155-198 | Fewer faulty verifiers than a quorum cannot get an authority disputed whose claims everybody else confirms and which never claimed otherwise, whatever they send and whenever, before the claim included. |
| CrossVal.SupermajorityIff | crates/arena-karma/src/crossval.rs:62-65 | Judging by the quorum of the expected sample is judging by two thirds of the votes cast exactly when both round to the same number. |
| CrossVal.MinorityCanDisputeIff | crates/arena-karma/src/crossval.rs:62-65 | Fewer than half of the votes cast can reach the quorum exactly when more than twice the quorum of votes came in. |
| CrossVal.MinorityDisputes | crates/arena-karma/src/crossval.rs:141-198 | And then a run does it: for every such number of votes, most verifiers confirm a claim and its tick is disputed all the same. |
| CrossVal.CrossValidator.RecordClaim | crates/arena-karma/src/crossval.rs:141-143 | The validator's whole new state after a claim: it replaces the claim, not the tally. |
| CrossVal.CrossValidator.RecordVote | crates/arena-karma/src/crossval.rs:155-173 | The validator's whole new state after a vote, judged by flag and, when a claim is known, by hash. |
| CrossVal.CrossValidator.Resolve | crates/arena-karma/src/crossval.rs:178-198 | The validator's whole new state and verdict after a resolve. |
| CrossVal.CrossValidator.VerdictFor | crates/arena-karma/src/crossval.rs:201-214 | A verdict lists the disputed ticks in ascending order and draws both recommendations from their number. |
| Reports.WeightIffCredible | crates/arena-karma/src/reports.rs:37-60 | A report weighs nothing exactly when its reporter stands at 40 or below, and its full severity exactly from 100 up. |
| Reports.CredibilityRises | crates/arena-karma/src/reports.rs:49-60 | Between 40 and 100 every point of karma adds a sixtieth of full credibility. |
| Reports.ReportAggregator.File | crates/arena-karma/src/reports.rs:103-127 | The state after a filing, and acceptance exactly for a new key by a credible reporter. |
| Reports.ReportAggregator.Prune | crates/arena-karma/src/reports.rs:215-224 | The state after a pruning: the recent reports of each player, in order, with empty players dropped and the seen keys kept. |
| Reports.ReportAggregator.Pressure | crates/arena-karma/src/reports.rs:134-160 | Grouping, sorting and scanning, in any map order, computes three quarters of each reporter's strongest plus a quarter of its summed decayed weights. |
| Reports.PressureIgnoresOrder | crates/arena-karma/src/reports.rs:134-160 | Pressure depends only on the multiset of stored reports. |
| Reports.PressureFades | crates/arena-karma/src/reports.rs:142-148 | Without new filings pressure never rises as time advances, and is never negative. |
| Reports.OneReportFades | crates/arena-karma/src/reports.rs:142-148 | A single report presses by its weight decayed by its age in ticks; one filed ahead of the evaluation, undecayed. |
| Reports.OnlyCredibleReportsCount | crates/arena-karma/src/reports.rs:111-126 | Dropping every report without weight leaves every pressure unchanged. |
| Reports.PressureBound | crates/arena-karma/src/reports.rs:150-159 | Pressure is at most 0.75 per distinct reporter plus 0.25 per report. |
| Reports.StoredIffKept | crates/arena-karma/src/reports.rs:103-224 | Over every run of filing and pruning, a report is stored exactly when it was the first under its key and every later pruning kept it. |
| Reports.PruningKeepsIff | crates/arena-karma/src/reports.rs:215-224 | A pruning keeps exactly the reports not older than keep_rounds rounds of 5760 ticks, the saturating product never mattering within the range of ticks. |
| Reports.RunsKeepOnePerTick | crates/arena-karma/src/reports.rs:103-224 | Over every run at most one report is stored per (reporter, accused, tick). |
| Reports.FilingIsIgnoredIff | crates/arena-karma/src/reports.rs:103-108 | After any run a filing changes nothing exactly when its key was ever filed before, even if its report has been pruned since. |
| Reports.TwoFilingsStandIff | crates/arena-karma/src/reports.rs:103-108 | Two new filings by one reporter on one player, made one after the other, are both stored exactly when their ticks differ - the round does not matter. |
| Reports.ReportAggregator.DetectBrigading | crates/arena-karma/src/reports.rs:167-203 | The flagged reporters, sorted and without repetition, are exactly the credible reporters of reputable unsuspected players whose pressure reaches 2. |
| Reports.LoneReporterNeedsFive | crates/arena-karma/src/reports.rs:194-202 | A player under brigade has at least two reporters or at least five reports. |
| Reports.LoneReporterPressure | crates/arena-karma/src/reports.rs:150-159 | n fresh full-weight reports by one reporter press 0.75 + 0.25 n, a brigade's pressure exactly from five on. |
| Reports.CrowdIsBrigadeIff | crates/arena-karma/src/reports.rs:37-46 | Accounts in good standing that each report a player once for one reason reach a brigade's pressure exactly from 2 (aimbot), 3 (wallhack, speed hack), 4 (teaming), 5 (griefing), 7 (toxicity) or 8 (other) of them on, while the reports are fresh. |
| Reports.OneAccountCanStack | crates/arena-karma/src/reports.rs:104-108 | Counterexample to one report per round: keys carry the tick, so one account filing at six successive ticks already carries a brigade's pressure. |
| Detector.Profile.Observe | crates/arena-karma/src/detector.rs:109-140 | After any history the window holds the last min(n, 12) rounds, the totals are their exact sums (no subtraction clips, no addition wraps) and the averages are those of the whole history. |
| Detector.Profile.Evict | crates/arena-karma/src/detector.rs:111-121 | Rolling the oldest round out of a full window leaves the totals the exact sums of the rest. |
| Detector.Profile.Count | crates/arena-karma/src/detector.rs:123-126 | Adding a round's counters in 64 bits never wraps. |
| Detector.RollsOut | crates/arena-karma/src/detector.rs:111-121 | Taking the oldest round out of the totals is exact. |
| Detector.AverageIsBetween | crates/arena-karma/src/detector.rs:128-153 | Each running average exists once a round was admitted and lies between any bounds on all samples admitted since the beginning. |
| Detector.UnadmittedRoundsKeepAverage | crates/arena-karma/src/detector.rs:128-153 | Rounds a measure does not admit leave its average as it was, however many they are. |
| Detector.RoundMovesAverages | crates/arena-karma/src/detector.rs:128-153 | A round of fewer than 40 shots leaves accuracy and headshots as they were, one without a reaction the reactions; any other moves each average 35 percent of the way to what it shows. |
| Detector.OldRoundsFade | crates/arena-karma/src/detector.rs:128-153 | After k admitted rounds the averages of two histories differ by exactly 0.65^k of what they differed by before. |
| Detector.AveragesAgreeIff | crates/arena-karma/src/detector.rs:128-153 | After any number of further rounds the averages of any two histories agree exactly if they agreed before, or if only one had an average and it equals the first sample that followed. |
| Detector.WindowAloneIff | crates/arena-karma/src/detector.rs:35-38 | An average is that of its last twelve rounds alone exactly if no round before them was admitted, or the average by then equals the first sample admitted within them, against lines 35-38. |
| Detector.WindowForgetsAverageDoesNot | crates/arena-karma/src/detector.rs:35-38 | Counterexample: two players whose last twelve rounds are the same, whatever they are, and whose average accuracies differ. |
| Detector.Profile.Evaluate | crates/arena-karma/src/detector.rs:208-299 | The score built signal by signal is the tempered squash of the six contributions, and the signals listed, in the order they are looked at, are exactly those that fire. |
| Detector.ScoreIffSignal | crates/arena-karma/src/detector.rs:157-171 | The score lies in [0, confidence of the shots fired] and is positive exactly when some shot was fired and some signal fires. |
| Detector.DoubtsMultiply | crates/arena-karma/src/detector.rs:157-171 | With the exponential's law the signals are independent evidence: each leaves its own share of the doubt, and the score is what their product takes away times what the shots fired take away of the doubt about the sample. |
| Detector.WindowSignalsIff | crates/arena-karma/src/detector.rs:244-272 | Read from the rounds themselves: more than one aim snap, or one correction, in two retained rounds fires its signal, and so does a single fire-rate violation in any retained round; nothing else does. |
| Detector.AverageSignals | crates/arena-karma/src/detector.rs:214-287 | The accuracy, headshot and reaction signals never fire on a history inside the human range of their own measure, and always on a measured one outside it. |
| Detector.HumanPlayIsClear | crates/arena-karma/src/detector.rs:208-299 | Whoever stays inside the human range in all six respects scores exactly zero and is given no signal. |
| Detector.SignalsWeigh | crates/arena-karma/src/detector.rs:67-73 | Perfect accuracy weighs 1.6, nothing but headshots 1 and a trigger's reactions 1.8, each fading evenly to its human end; at one rate a fire-rate violation weighs five times an aim snap and 60/11 of a correction. |
| Ledger.KarmaLedger.Apply | crates/arena-karma/src/ledger.rs:100-118 | Balance and log after a delta: wrapped, clamped, and logged with the effective change. |
| Ledger.KarmaLedger.Fuse | crates/arena-karma/src/ledger.rs:125-183 | Balance and log after a fusion, and an emitted update exactly on a change of band or a penalty of fifteen or more. |
| Ledger.KarmaLedger.RecordOutcome | crates/arena-karma/src/ledger.rs:188-220 | Balance and log after a match, and a grant exactly for a completed match below the ceiling. |
| Ledger.RunsAreExplained | crates/arena-karma/src/ledger.rs:100-220 | Over every run each balance is the default plus the player's logged deltas, equals the last logged karma and band, and stays in [-100, 300]. |
| Ledger.LogGrows | crates/arena-karma/src/ledger.rs:76-118 | The audit log is only ever extended. |
| Ledger.ReportsAloneAreCapped | crates/arena-karma/src/ledger.rs:145-155 | Without a detector signal k fusions lower karma by at most 8k, however large the pressures and however the events interleave; fewer than eight leave a default player unrestricted. |
| Ledger.FusionTakes | crates/arena-karma/src/ledger.rs:136-155 | The reports ask for four points per unit of pressure past 0.75, rounded; a silent detector grants at most eight of them, and with a signal they all come on top of the detector's penalty, exactly as long as the sum fits 32 bits. |
| Ledger.ReportsPileOn | crates/arena-karma/src/ledger.rs:145-155 | So with a signal the reports may add any number of points to what the detector takes. |
| Ledger.BandsIff | crates/arena-protocol/src/karma.rs:112-131 | Quarantine, temporary and permanent ban begin at 40, 10 and -50, the marks themselves included. |
| Ledger.OneScoreBands | crates/arena-karma/src/ledger.rs:125-183 | One score against a new player, without reports, leaves karma 100 below 0.5, then 90, 70 from 0.7, 30 from 0.85 and -60 from 0.95: quarantine exactly from 0.85 and a permanent ban exactly from 0.95. |
| Ledger.SilentMoveIff | crates/arena-karma/src/ledger.rs:157-182 | A fusion moves karma and the log yet returns nothing exactly for a nonzero penalty under fifteen inside one band, against the comment at lines 121-124. |
| Ledger.SilentFusion | crates/arena-karma/src/ledger.rs:125-183 | A run that does: the first fusion of a new player, reports alone at pressure 3, takes eight points and logs them without an update. |
| Ledger.ApplyIsClampedIff | crates/arena-karma/src/ledger.rs:100-103 | A delta is a clamped move of the balance exactly as long as the 32-bit sum does not wrap. |
| Ledger.FusionNeverRaisesIff | crates/arena-karma/src/ledger.rs:125-178 | Evidence leaves karma at or below where it was exactly when balance and penalties stay in 32 bits, or the balance is at the ceiling. |
| Ledger.RewardIff | crates/arena-karma/src/ledger.rs:194-206 | A completed match is worth one to four points exactly unless kills exceed deaths by 2^31 or more (with the one exception of the largest difference and an assist). |
| Ledger.RewardLadder | crates/arena-karma/src/ledger.rs:194-206 | Below that a match pays four points exactly for two kills more than deaths and an assist, one exactly for neither, and a single surplus kill as much as an assist. |
| Ledger.MatchPays | crates/arena-karma/src/ledger.rs:188-220 | A completed match pays its whole reward up to the ceiling of 300, an abandoned one nothing, and at the ceiling nothing is logged any more. |
| Ledger.MatchesRedeem | crates/arena-karma/src/ledger.rs:188-220 | Over any row of completed matches a player regains one to four points each, up to the ceiling. |
| Spell.ComplexityCountsEveryOp | crates/arena-content/src/spell.rs:196-205 | Complexity is the price of the tree modulo 2^32, the price being laid down kind by kind, and equal to the summed price of every operation in it, each counted once. |
| Spell.DepthIsNesting | crates/arena-content/src/spell.rs:208-215 | The depth computed is the nesting of the tree, laid down kind by kind. |
| Spell.ChildrenAreRun | crates/arena-content/src/spell.rs:219-233 | The children of an operation are what its kind runs: the operations below it in running order, its price and its nesting all come from them. |
| Spell.DepthIff | crates/arena-content/src/spell.rs:208-215 | A tree is at most d deep exactly when no path of d or more steps leads to an operation. |
| Spell.BudgetBoundsPriceIff | crates/arena-content/src/spell.rs:53-62 | Every budget that admits a spell is at least its price exactly when the price fits in 32 bits (or no budget admits the spell at all). |
| Spell.HugeSpellFits | crates/arena-content/src/spell.rs:196-205 | Counterexample beyond that, of a size no transport or memory of the game would hold: 2^32 strikes in a row cost one and fit every budget for a single strike. |
| Spell.FittingSpellsAreSmall | crates/arena-content/src/spell.rs:53-62 | A spell within its budget is nested no deeper than the depth allowance and, its price fitting in 32 bits, has no more working operations than the complexity allowance. |
| Spell.SmallSpellsFit | crates/arena-content/src/spell.rs:58-62 | A tree with at most a fifth of the allowance in working operations, none too deep, fits whatever its operations are. |
| Spell.CheckIsFirstMissing | crates/arena-content/src/pack.rs:330-346 | The recursive status check reports the first missing status in running order. |
| Spell.StatusCheckIff | crates/arena-content/src/pack.rs:330-346 | A spell passes exactly when every status it may apply - through each of the eleven kinds of operation that run others - is known, and what is reported is applied and unknown. |
| Content.ValidateIff | crates/arena-content/src/pack.rs:119-298 | A pack is accepted exactly when each of its references, at all eighteen places checked, resolves; a rejection names a reference the pack makes that does not. |
| Content.TriggerRefsIff | crates/arena-content/src/pack.rs:200-263 | The references of a trigger are exactly those of its event, its conditions and its actions. |
| Content.FirstMissingIff | crates/arena-content/src/pack.rs:129-145 | A search over one kind of definition reports one of their dangling references, or none dangles. |
| Registry.ContentRegistry.New | crates/arena-content/src/registry.rs:62-90 | Opening fails with the pack's validation error or yields the registry indexed over the pack. |
| Registry.ContentRegistry.Stage | crates/arena-content/src/registry.rs:121-131 | Staging refuses stale epochs, then invalid packs, and otherwise changes nothing but what is pending. |
| Registry.ContentRegistry.ApplyPending | crates/arena-content/src/registry.rs:141-149 | Applying serves the pending pack, re-indexed, under its epoch, or changes nothing. |
| Registry.IndexIsExact | crates/arena-content/src/registry.rs:97-117 | Each index holds exactly the ids of its own kind, each at the last position that carries it. |
| Registry.LookupsFindLast | crates/arena-content/src/registry.rs:153-200 | In every reachable state each of the sixteen lookups answers from its own collection of the served pack with the last definition that carries the id, and misses exactly the ids nobody carries. |
| Registry.EpochAdvances | crates/arena-content/src/registry.rs:121-149 | The epoch moves strictly forward at each swap, at nothing else, and what is served never changes without it. |
| Registry.OpenedIsLive | crates/arena-content/src/registry.rs:62-90 | Opening a validated pack yields a live registry. |
| Registry.RunsStayLive | crates/arena-content/src/registry.rs:121-149 | Over every run the index is that of the served pack, everything served or pending is valid, and a pending epoch is ahead. |
| Registry.RunServes | crates/arena-content/src/registry.rs:121-149 | Over every run the last accepted stage is pending, or is exactly what is served. |
| Registry.SwapIsWholesale | crates/arena-content/src/registry.rs:141-149 | Right after an apply the registry is the one the last accepted stage would open afresh; nothing of older packs remains. |
| Registry.CastsResolve | crates/arena-content/src/registry.rs:153-164 | In every reachable state an ability lookup answers exactly for served ids, its spell resolves, and so does every status that spell applies at any depth. |
| Registry.StageIsAcceptedIff | crates/arena-content/src/registry.rs:121-131 | A stage is accepted exactly when its epoch is ahead of the served one and every reference of its pack resolves. |
| Registry.SoundUpdateIsServed | crates/arena-content/src/registry.rs:121-149 | After any run such a pack, staged and applied, is exactly what is served, whatever was pending. |
| Registry.AcceptedIffAnswered | crates/arena-content/src/pack.rs:119-298 | A pack is accepted exactly when, opened, the registry answers every reference it makes from the lookup of the kind the reference's place asks for (tech nodes and rune symbols from the pack itself). |
| Registry.LiveAnswersAll | crates/arena-content/src/registry.rs:121-200 | Over every run no reference of the served pack is left without such an answer. |
| Loot.SelectionIsProportional | crates/arena-content/src/loot.rs:78-83 | Each pick on the line of weights selects exactly one entry, the one whose slice holds it; the slice is as wide as weight plus rarity bonus, or nothing if that is negative, so an entry without weight never drops. |
| Loot.UnitCountsSteps | crates/arena-content/src/loot.rs:114-118 | A word becomes the number of whole 2^-24 steps in it as a fraction of 2^64. |
| Loot.Scan | crates/arena-content/src/loot.rs:81-83 | The prefix-sum scan returns the entry whose slice holds the pick and cannot run off the end. |
| Loot.RollCount | crates/arena-content/src/loot.rs:82-92 | The count is the lower end of the range plus the remainder of one word; no subtraction, cast or addition on the way saturates or truncates. |
| Loot.CountsAreTheRange | crates/arena-content/src/loot.rs:83-91 | The counts some word gives are exactly those from min to max, and min alone when the range is turned around. |
| Loot.WordsGivingIs | crates/arena-content/src/loot.rs:83-91 | Of the first n words, n / (span + 1) give each count of the range, and one more for the lowest n mod (span + 1) counts. |
| Loot.CountsAreEvenIff | crates/arena-content/src/loot.rs:83-91 | Over all 2^64 words no two counts of the range differ by more than one word, and all are even exactly when the size of the range divides 2^64. |
| Loot.Roll | crates/arena-content/src/loot.rs:62-100 | A roll returns the drops its seed's word stream determines, and nothing for a table without weight. |
| Loot.DropsAreAllowed | crates/arena-content/src/loot.rs:76-100 | At most one drop a roll, each a weighted entry's item in a positive amount within its range; with no range reaching zero, exactly one a roll. |
| Loot.Yield | crates/arena-content/src/loot.rs:62-100 | A table yields nothing from any generator when no entry has weight, and the above otherwise. |
| SplitMix.Rng.NextWord | crates/arena-mythos/src/rng.rs:33-39 | One draw: the word and the state after it. |
| SplitMix.Rng.Below | crates/arena-mythos/src/rng.rs:52-54 | A draw below n is below n; asking below zero draws nothing. |
| SplitMix.Rng.FromTickAndSalt | crates/arena-mythos/src/rng.rs:23-30 | The seeding loop folds the salt into the tick byte by byte. |
| SplitMix.NoWordRepeats | crates/arena-mythos/src/rng.rs:33-39 | Two calls within 2^64 of the seed return the same word only if they are the same call. |
| SplitMix.EveryWordOncePerPeriod | crates/arena-mythos/src/rng.rs:33-39 | Within 2^64 successive calls from any state every 64-bit word is returned by exactly one call. |
| SplitMix.OneCycle | crates/arena-mythos/src/rng.rs:33-39 | From any state every other is reached within 2^64 calls, and from there on the two streams are one. |
| SplitMix.MixIsUndone | crates/arena-mythos/src/rng.rs:36-38 | Every shift-xor and every odd multiplication of the scrambler can be undone. |
| SplitMix.KnownAnswers | crates/arena-mythos/src/rng.rs:17-39 | The published answers of splitmix64 from 1234567 and of the 64-bit FNV-1a hash of nothing and of one letter, and the state of tick zero without a salt. |
| SplitMix.TicksDiffer | crates/arena-mythos/src/rng.rs:17-30 | With one salt, two ticks start from the same state only if they are the same tick. |
| SplitMix.NextLoot | crates/arena-content/src/loot.rs:105-111 | The second copy of the generator makes the same draw. |
| SplitMix.DrawBoth | crates/arena-content/src/loot.rs:105-111 | From one raw state both copies produce the same words, call for call. |
| Leyline.LeylineNetwork.Tick | crates/arena-mythos/src/leyline.rs:90-113 | The network after a step: every well recharged, then the diffused charges of the specification, accumulated line by line. |
| Leyline.DeltasCancel | crates/arena-mythos/src/leyline.rs:98-109 | The diffusion deltas of any network sum to zero. |
| Leyline.DiffusionBalance | crates/arena-mythos/src/leyline.rs:98-112 | The exact mana balance of a step for every network and step size: what the lower clamp invents minus what the upper clamp destroys. |
| Leyline.HubInventsMana | crates/arena-mythos/src/leyline.rs:90-112 | Counterexample to unconditional conservation, in every season: with the longest step the world takes, a full hub and its recharged rim, under 1.1 of mana, end the step with 3. |
| Leyline.MaximumPrinciple | crates/arena-mythos/src/leyline.rs:98-112 | In a stable step no clamp bites, mana is conserved, and every saturation stays between the least and the greatest before it. |
| Leyline.ConservesIff | crates/arena-mythos/src/leyline.rs:98-112 | A network conserves mana, whatever its charges, exactly when no well's load exceeds its capacity. |
| Leyline.NeverClampsIff | crates/arena-mythos/src/leyline.rs:110-112 | And exactly then it never clamps, whatever its charges. |
| Leyline.StepBoundIsStable | crates/arena-mythos/src/leyline.rs:102-106 | Half the step times the conductance at each well at most one is enough for stability. |
| Leyline.RechargeBySaturation | crates/arena-mythos/src/leyline.rs:93-96 | Recharging raises the saturation of every well by 0.01 * tide * dt, up to full, whatever its capacity. |
| Leyline.LevelNetworkRises | crates/arena-mythos/src/leyline.rs:90-113 | Over any steps and seasons, wells of equal saturation stay equal, however joined and whatever their capacities, and rise by the summed recovery until full. |
| Leyline.EmptyNetworkFillsIff | crates/arena-mythos/src/leyline.rs:90-113 | An empty network is full exactly once the summed 0.01 * tide * dt reaches one. |
| Leyline.PairCloses | crates/arena-mythos/src/leyline.rs:100-112 | One line between two wells, in closed form: the smaller moves g * dt / 2 of the gap in saturation, the larger that much times the ratio of capacities; equal wells are left with 1 - g * dt of the gap. |
| Leyline.LeylineNetwork.Draw | crates/arena-mythos/src/leyline.rs:118-140 | A draw returns the smaller of what was asked and what lies in reach, takes exactly that, touches nothing out of reach, and takes from a well only once every strictly nearer one in reach is empty. |
| Leyline.DrainFollowsDistance | crates/arena-mythos/src/leyline.rs:118-140 | In distances: a draw takes from no well farther off than that well's influence, and from one only after every nearer well in reach is empty. |
| Leyline.NearestFirstOrders | crates/arena-mythos/src/leyline.rs:121-126 | The visiting order lists every well once, nearest first. |
| Leyline.LeylineNetwork.Connect | crates/arena-mythos/src/leyline.rs:82-86 | A line that leaves the network or joins a well to itself is ignored; any other is appended. |
| Leyline.LeylineNetwork.AddNode | crates/arena-mythos/src/leyline.rs:76-79 | A well is appended and its index returned. |
| Ecology.Ecosystem.Tick | crates/arena-mythos/src/ecology.rs:78-145 | Stepping the species in place, at most once a day, moves each by the snapshotted prey and reports the day's events in order. |
| Ecology.Ecosystem.SpawnWeight | crates/arena-mythos/src/ecology.rs:151-157 | The spawn weight is the first such species' population over capacity, clamped to [0, 2.5], and one for unknown mobs. |
| Ecology.SpawnWeightFollows | crates/arena-mythos/src/ecology.rs:151-157 | The weight is proportional to the population up to 2.5 times the land's means, 2.5 exactly from there, and nothing exactly without a population. |
| Ecology.StrangersSpawnEvenly | crates/arena-mythos/src/ecology.rs:151-157 | A mob no species is named after spawns with weight one. |
| Ecology.GrazersSettle | crates/arena-mythos/src/ecology.rs:108-112 | A grazer within the land's means, breeding at no more than the full rate, never shrinks, never outgrows the land, and with capacity at least one never blooms. |
| Ecology.GrazersSettleIff | crates/arena-mythos/src/ecology.rs:108-112 | Every population within the land's means stays there and does not shrink exactly when the season's rate lies between zero and one. |
| Ecology.GrazersGainMostAtHalf | crates/arena-mythos/src/ecology.rs:108-112 | Grazers gain at most a quarter of the rate times the land's means a day, and that much exactly when the land is half full. |
| Ecology.GrazersStayInBounds | crates/arena-mythos/src/ecology.rs:78-145 | Over every run of days such a grazer stays within the land's means and never falls below its start. |
| Ecology.SettledGrazersNeverBloom | crates/arena-mythos/src/ecology.rs:78-145 | And on no day of such a run does it bloom, given a capacity of at least one. |
| Ecology.StepIgnoresOrder | crates/arena-mythos/src/ecology.rs:95-123 | With distinct mobs, permuting the species permutes the resulting species. |
| Ecology.EventsIgnoreOrder | crates/arena-mythos/src/ecology.rs:104-142 | And permutes the day's events. |
| Ecology.BloomsAreSeparated | crates/arena-mythos/src/ecology.rs:125-128 | Between two blooms of one species lies a day on which it was at most 1.3 times its capacity. |
| Ecology.CrashesAreSeparated | crates/arena-mythos/src/ecology.rs:129-132 | Between two crashes of one species lies a day on which it was at least a tenth of its capacity. |
| Ecology.DayReportsIff | crates/arena-mythos/src/ecology.rs:78-145 | A tick reports, once a day, exactly the blooms past 1.3 times the capacity, the crashes below a tenth of it, and the mutations the dice give: one in a hundred, three below a fifth of the capacity, of power 1.2 and seven tenths of the second die. |
| Ecology.PredatorGrowsIff | crates/arena-mythos/src/ecology.rs:113-119 | A predator grows exactly when rate times (support - 1/2) exceeds 0.02; without food it loses at least two percent. |
| Ecology.AvailableIsEaten | crates/arena-mythos/src/ecology.rs:95-102 | What a diet makes available is the population of each species it names, as often as it names it. |
| Ecology.PredatorEatsItsDiet | crates/arena-mythos/src/ecology.rs:95-122 | In a web of distinct mobs a predator grows on a day exactly when its whole diet together supports more than half of it with two percent to spare. |
| Ecology.FedPredatorGrowsIff | crates/arena-mythos/src/ecology.rs:113-119 | A predator fed in full grows exactly when it breeds faster than 0.08 in the long dark, 0.05 in duskwane, 0.04 in highsun, 2/55 in kindling and 2/65 in emberfall. |
| Ecology.ExtinctForever | crates/arena-mythos/src/ecology.rs:78-122 | Over every run of days an extinct species stays extinct. |
| Ecology.GrazersAreNeverEaten | crates/arena-mythos/src/ecology.rs:104-122 | A grazer's population runs the same course whatever else lives in the web, against the module's description. |
| Ecology.PredatorsOutgrowAnyBound | crates/arena-mythos/src/ecology.rs:113-122 | Counterexample to bounded predators: over consecutive days, whatever their seasons, a breeding predator fed in full by a grazer at capacity passes every bound. |
| Ecology.PredatorCompounds | crates/arena-mythos/src/ecology.rs:113-122 | Over any days in a row, in any web and any seasons, a predator's numbers are multiplied each day by 0.98 plus rate times (support - 1/2), or by nothing if that is negative. |
| Ecology.UnderfedPredatorsStayBounded | crates/arena-mythos/src/ecology.rs:113-122 | And the converse: as long as rate times (support - 1/2) stays at or below 0.02 day by day, a predator never exceeds its start. |
| Myth.DeedDecidesManifestation | crates/arena-mythos/src/chronicle.rs:359-379 | Duels hallow, atrocities haunt or raise a foe as the dice have it, every other legend is a constellation, and a relic site is never seeded. |
| Myth.LegendsAreNumbered | crates/arena-mythos/src/chronicle.rs:235-247 | Over every run ids count the legends from zero and the bar is 100 times 1.15 to the number of legends. |
| Myth.LegendFitsDeed | crates/arena-mythos/src/chronicle.rs:245-273 | A legend is about the deed's actor; the star it lights bears the legend's own name, the ground it marks is where the deed was done, and the foe it raises is the one who did it. |
| Myth.LegendsAreScarce | crates/arena-mythos/src/chronicle.rs:218-238 | Over every run whose deeds are not mythic in themselves when done - kills of victims below the bar included - the one the n-th legend is about has a renown of at least 100 * 1.15^(n-1). |
| Myth.RenownIsEarned | crates/arena-mythos/src/chronicle.rs:207-217 | Over every run each facet of each renown is the sum of what that actor's deeds of that facet earned. |
| Myth.MintingIsCrossingIff | crates/arena-mythos/src/chronicle.rs:220-233 | For a deed not mythic in itself, a legend is minted exactly when the deed carries its actor over the bar, exactly if the actor did not stand above it before. |
| Myth.MythicDeedsIff | crates/arena-mythos/src/chronicle.rs:220-233 | A deed that leaves its actor under the bar mints all the same exactly for a forging, a last stand against twenty or more, or the slaying of somebody whose renown reaches the bar. |
| Myth.DeedMovesOneFacet | crates/arena-mythos/src/chronicle.rs:120-131 | A deed that earns anything moves one facet of its actor - which one its kind decides - and nobody else's. |
| Myth.DeedsCompare | crates/arena-mythos/src/chronicle.rs:120-131 | What deeds of one magnitude earn against each other: a last stand as much as a discovery from five foes on, a rescue from three saved, an atrocity half as much again, a slaying a quarter of the victim's renown on top. |
| Myth.IdleDeedsMint | crates/arena-mythos/src/chronicle.rs:207-243 | Whoever stands above the bar mints one legend with each further deed, even deeds that earn nothing, until the bar has risen past that renown, and none after. |
| Myth.IdleDeedsRunDry | crates/arena-mythos/src/chronicle.rs:207-243 | After some number of legends no further idle deed mints any more, however many follow. |
| Myth.OneDiscovery | crates/arena-mythos/src/chronicle.rs:207-243 | Such a world is one deed away: a first discovery of magnitude m, 100 or more, mints the first legend and leaves renown m against a bar of 115 - far above it at m = 1000. |
| Myth.WorldSoul.Record | crates/arena-mythos/src/chronicle.rs:207-241 | The chronicle after a deed and the legend born of it, if any. |
| Myth.WorldSoul.Advance | crates/arena-mythos/src/lib.rs:140-188 | The world after an advance: the clock, the ecology, and one rising foe queued for each mutation, in order; a stale tick changes nothing. |
| Myth.FoesRiseIff | crates/arena-mythos/src/lib.rs:155-175 | What joins the queue as the world moves on are exactly the day's mutants, each a named foe of the power it mutated to. |
| Myth.WorldSoul.RecordDeed | crates/arena-mythos/src/lib.rs:192-198 | The world after a deed: chronicle, sky and queue. |
| Myth.WorldSoul.Realise | crates/arena-mythos/src/lib.rs:201-211 | A constellation goes to the sky and only there, any other legend to the queue and only there. |
| Myth.WorldSoul.TakePending | crates/arena-mythos/src/lib.rs:215-217 | Draining returns everything waiting and leaves nothing. |
| Myth.EverythingIsAccounted | crates/arena-mythos/src/lib.rs:140-217 | Over every run the sky is exactly the constellation legends in order, and waiting plus drained sites are exactly the other legends and the ecology's foes. |
| Myth.LegendsAreConserved | crates/arena-mythos/src/lib.rs:140-217 | In numbers: stars + waiting + drained = legends + mutations. |
| Myth.NothingIsForgotten | crates/arena-mythos/src/lib.rs:140-217 | No facet of anyone's renown falls, legends are never struck out, and the world's tick never goes back. |
| Myth.Boon | crates/arena-mythos/src/firmament.rs:86-101 | The boon is one plus the visible shine of the element's stars. |
| Myth.NewStarHelpsItsElement | crates/arena-mythos/src/firmament.rs:55-101 | Under a dark sky a new star strictly strengthens its own element's boon; it changes no other, and nothing by day. |
| Myth.BoonStartsAtOne | crates/arena-mythos/src/firmament.rs:86-101 | Without a star of the element, or by day, the boon is exactly one; a single star in its season adds 0.03 of its brightness under a wholly visible sky. |
| Myth.StarsAreBright | crates/arena-mythos/src/firmament.rs:66-72 | Over every run every star's brightness lies in [0.6, 2]. |
| Myth.BrightnessIff | crates/arena-mythos/src/firmament.rs:66-72 | A star is brightest exactly for a renown of 320 or more, faintest exactly up to 40, and a unit brighter per two hundred in between. |
| Myth.StarYear | crates/arena-mythos/src/firmament.rs:55-101 | Over the five seasons every star gives its element 0.072 of its brightness, five twelfths of it in the one season that is its element's own. |
| TwoBone.BonesKeptIff | crates/arena-anim/src/ik.rs:28-60 | In exact arithmetic, for all bones the clamp accepts, both lengths are kept in every bend branch exactly when the target is not the root and neither bone is shorter than half the 1e-4 margin. |
| TwoBone.ReachesTargetIff | crates/arena-anim/src/ik.rs:35-59 | The end lands on the target exactly when the target is the root or its distance lies in the range the bones span up to the margin (one distance only, when a bone is shorter than the margin). |
| TwoBone.BendsTowardPole | crates/arena-anim/src/ik.rs:45-58 | The joint leans toward the pole by its height times the pole's distance from the line, never away. |
| TwoBone.HeightCloses | crates/arena-anim/src/ik.rs:40-43 | Within the triangle inequality the law of cosines closes exactly: the clamp under the root never bites. |
| TwoBone.ReachBounds | crates/arena-anim/src/ik.rs:35-37 | The clamped reach satisfies the triangle inequality exactly when neither bone is shorter than half the margin. |
| TwoBone.FootBeyondBone | crates/arena-anim/src/ik.rs:40-43 | Past the triangle inequality the foot lies beyond the upper bone, so there the clamp under the root does bite. |
| TwoBone.BendIsUnitNormal | crates/arena-anim/src/ik.rs:46-56 | Whatever the pole, the bend is a unit vector square to the reach. |
| Skin.BestFour | crates/arena-assets/src/skin.rs:34-48 | Replacing the weakest slot leaves the four heaviest bones, all of them when there are fewer, each in one slot. |
| Skin.SkinMesh | crates/arena-assets/src/skin.rs:20-63 | Every vertex is bound to such a row, names and normalised weights; an empty skeleton binds nothing. |
| Skin.KeptAreNearest | crates/arena-assets/src/skin.rs:35-47 | No bone left out is nearer the vertex than a bone kept. |
| Skin.InverseSquareLaw | crates/arena-assets/src/skin.rs:33-57 | Any two bones of a row share the vertex, normalised weights included, in inverse proportion to their squared distances plus 0.001. |
| Skin.JointsNameTheirBones | crates/arena-assets/src/skin.rs:49-57 | Behind the joints of a bound vertex stand bones named slot by slot, their number modulo 2^16, in inverse-square shares, with no nearer bone left out; an empty slot weighs nothing. |
| Skin.WeightsSumToOne | crates/arena-assets/src/skin.rs:49-59 | The weights of a bound vertex lie in [0, 1] and sum to one. |
| Skin.NamesCollideIff | crates/arena-assets/src/skin.rs:46 | Two filled slots carry one name exactly when their bones' numbers agree modulo 2^16, so never with at most 65536 bones. |

## Left out

- Float rounding, NaN and the order of float summation; the model is exact.
- SHA-256, signatures, serialisation, content hashes, persistence and every kind of I/O.
- The rendezvous score itself: any function of session, zone and candidate will do.
- Snapshots.WorldView.Apply: the events a snapshot carries, which the original hands through unchanged, are not modelled.
- Snapshots.SnapshotEncoder.Encode: events, ammo, respawn time and input cursor ride along with a snapshot, do not touch the entity view and are not modelled.
- The simulated world inside a replica: joining, moving and stepping are abstract functions.
- Ecosystem.add during a run, and the leylines, seasons, festivals and announcements of the world's advance: they do not touch legends or sites.
- Personal names, epithets, sagas, star arcs and titles; a legend's name is whatever its generator yields.
- Item grants, materials, mob abilities and other references the pack validation does not check.
- The registry's trigger, affix and runeword filters, which are one-line scans of the served pack.
- Leyline readings (`charge_at`, `dominant_element_at`) and claims: weighted averages and a majority over the state modelled here.
- Spell.DepthIff: depth is unbounded, because nesting past 2^32 exhausts any stack first.
- Registry.ContentRegistry.Stage: the sixteen index fields are one map from kind to index, so a lookup names its kind.
- Loot.Roll: weights and picks are reals, so the loss of a pick to rounding at the top of the line is not modelled.
- Myth.WorldSoul.Advance: legends and sites only; the step of the leylines, season turns, festivals and the pulse returned for display are not modelled.
- Detector.Profile.Evaluate: the score of one known profile and which signals fire; the map of profiles, which yields nothing for an unknown player, and the wording of the signals are not modelled.
- Skin.SkinMesh: the owners of the slots are ghost, since the original keeps names only.
- Calendar, omens, weather, attunement, animation gaits, mesh and texture synthesis, rendering, audio and the browser bridge.
