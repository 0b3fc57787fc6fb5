# A verified model of dnet-engine's decision layer

dnet-engine keeps a tunnel up over whatever networks a machine has. Its decisions are made in a layer
without I/O: observations and a time go in, a new state and actions come out. This project models the
three parts of that layer where mistakes are hardest to see, and proves what they promise over every
run, not over sampled ones.

1. **Path failover.** Which network path carries traffic, and when that changes: `Failover` (one
   evaluation), `FailoverRuns`, `FailoverEvidence` and `FailoverProgress` (whole runs), `Quality`
   (smoothing of samples), `DegradationReporting` and `ReportingRuns` (what the user is told), and
   `PathMonitoring` with `MonitorRuns`, `MonitorRoutes`, `MonitorEvidence`, `MonitorBudget`,
   `MonitorProgress`, `MonitorReporting`, `MonitorReports`, `MonitorSight` and `MonitorProbes` (the monitor
   that owns all of it).
2. **The connection engine.** A six-phase machine driven by asynchronous inputs: `EngineMachine` (the
   object, updated in place), `EngineSpec` (what each input does), `EngineInvariant`, `EngineRuns`,
   `EngineRecovery`, `EngineHonesty`, `EngineLearning`, `EngineOutcomes`, `EngineAttempts` and
   `EngineEndpoints` (whole runs), over `ProbeRacing`, `Reprobing`, `FailureCauses`,
   `Health` and `Endpoints`.
3. **Routing rules.** `Rules` (first match by precedence), `NameForms` and `AddressRanges` (what names and
   ranges match), `BuiltinRules` and `BuiltinLayout` (opening a
   place for the active endpoint), `Compile` and `DnsChain` (route and DNS entries for the core).

## How it is built

What the program updates in place is a class (`PathMonitor`, `DegradationReporter`, `ConnectionEngine`,
`ProbeRace`, `BlockDetector`) or a method with its loops (`Evaluate`, `OnProbe`, `BuildBuiltins`). Each
method is proved equal to a function on values, and the theorems are about that function.

A run is a value that holds its inputs, its states and its outputs; it is valid when each state follows
from the one before. For each stored clock, counter and map a lemma shows that it is an exact summary of
the run's history (`BudgetIsExact`, `DwellIsExact`, `GoodClockIsExact`, `BadClockIsExact`,
`ClockIsExact`, `QualityIsReplay`, `ProbeTimesAreExact`, `WatchIsExact`). Decisions can then be
characterised, in both directions, by the history alone. `RunExists` shows that every input sequence has
a run.

Safety alone would let a step do nothing, and a theorem stated through a function says nothing about that
function. So each operation also has a theorem that says what it achieves, by components: which path a move
goes to, which addresses a range holds, what each input of the engine leads to, how every average, verdict
and decision comes out.

## Assumptions

- Time is a natural number of nanoseconds and does not go back. Averages are exact reals.
- Interfaces in one list, profiles and endpoints have distinct identifiers.
- Recovery, and the truth of "every profile is blocked", assume that a race result names only profiles of
  that race; the second also that no report of a race nobody won is of a usable profile, which
  `DecisionIsFinal` shows of every race.
- Preservation of meaning by `with_active_endpoint` is for sets with distinct precedences, which is what
  `validate_rule_set` guarantees of every set the program holds.
- The core evaluates generated route entries as the repository's own agreement suite says it does
  (crates/dnet-config/tests/rule_agreement.rs, lines 28 to 73), and reads the names of DNS entries in the
  same way.

## Where the code does less than is promised

- **A gateway change can be missed.** The daemon skips decisions while it holds after a failed move
  (crates/dnetd/src/netwatch.rs, lines 476 to 481). If the carrying link is absent from one list, or down
  there with its new gateway already, and up behind the new gateway in the next, no change is reported and
  the machine stays on the link. `MissedGateway` gives the run, `TrackedExactly` the exact condition.
- **The core can part from the rules.** `EntryAgrees` gives the exact condition for each rule, `CompiledRoutesAgree`
  that for a whole set, and
  `TrailingDotParts`, `OddNameParts`, `MappedAddressParts` and `SpellingParts` the flows. The agreement suite
  keeps application paths out of its equality for this reason.
- **Lookups can part from routing.** The comment on `dns_rules` says that bypassed names, and only those, are
  resolved on the physical network. Tunnel rules have no DNS entry, so a name that a tunnel rule takes and a
  lower-ranked rule bypasses is connected through the tunnel and looked up locally. A name that is no DNS name,
  beneath a bypassed suffix, is treated in the same way. Application rules have no DNS entry either, so a
  bypassed program is given a fake address. `LookupAgreesWithRoutingExactly` gives the exact conditions;
  `TunnelledNameAskedLocally`, `OddNameAskedLocally`, `ProgramIsGivenAFakeAddress` and
  `DottedNameIsGivenAFakeAddress` the inputs.
- **The move cap holds between adoptions.** `set_carrying` starts a new state with an empty budget and no
  dwell. `AdoptionForgetsTheBudget` gives a run that exceeds the cap, `MovesAcrossAdoptions` by how much it
  can be exceeded, and `CapHoldsAcrossAdoptions` when it is not; `MonitorDwells` is the dwell between adoptions.
- **"Every profile is blocked" can come from outside.** The engine passes on the cause of a failed start as
  the daemon gives it. `AllProfilesBlockedIsTrue` shows that this is the only way it is said falsely.

## Model

| member | source | states |
|---|---|---|
| `Failover.Evaluate` | crates/dnet-core/src/failover.rs:166-303 | The evaluation as written (a copy of the state edited step by step, the stability clocks in a loop) computes the specification `Evaluated`, whose properties are the theorems on runs below. |
| `Failover.BestIsFirstOfTheBest` | crates/dnet-core/src/failover.rs:378-396 | The chosen path is not beaten by any listed path and beats every path listed before it, by band, preference, round trip, then loss. |
| `Failover.BestIsFirstChoice` | crates/dnet-core/src/failover.rs:376-396 | The path chosen among the eligible ones is in the highest band, then of the highest preference, then of the shortest round trip (unknown last), then of the lowest loss, then the first listed. |
| `Failover.EvaluatedCarriesOnAUsablePath` | crates/dnet-core/src/failover.rs:192-223 | After an evaluation the carrying path is listed and up; there is none exactly when no listed path is up, and that is exactly when the decision is `NoPath`. |
| `FailoverRuns.RunExists` | crates/dnet-core/src/failover.rs:144-166 | Every sequence of looks, from a new or an adopted start, has its run, so the theorems on runs cover every input. |
| `FailoverRuns.BudgetIsExact` | crates/dnet-core/src/failover.rs:189-190 | The stored moves are, as far as any later window can see, exactly the counted moves of the whole history. |
| `FailoverRuns.VoluntaryMovesKeepTheBudget` | crates/dnet-core/src/failover.rs:232-238 | SC-007 on every run: a voluntary move and the counted moves (lost, degraded, preferred) before it that are less than a window old number at most `max_moves`. |
| `FailoverRuns.EveryStretchKeepsTheBudget` | crates/dnet-core/src/failover.rs:19-21 | No stretch of one window, wherever it is placed in any run, holds more counted moves than `max_moves` plus the moves forced by a lost link in it. |
| `FailoverRuns.DwellIsExact` | crates/dnet-core/src/failover.rs:355-373 | The dwell clock is the last counted move since there was last no path at all. |
| `FailoverRuns.VoluntaryMovesDwell` | crates/dnet-core/src/failover.rs:232-238 | A voluntary move comes at least `min_dwell` after every earlier counted move, unless a `NoPath` decision lies between. |
| `FailoverEvidence.GoodClockIsExact` | crates/dnet-core/src/failover.rs:176-188 | A stability clock shows the first evaluation of the path's current unbroken stretch of being listed, usable, measured and good. |
| `FailoverEvidence.BadClockIsExact` | crates/dnet-core/src/failover.rs:225-230 | Each clock on the carrying path shows the first evaluation of its current unbroken bad stretch. |
| `FailoverEvidence.DegradedMoveExactly` | crates/dnet-core/src/failover.rs:232-280 | A degraded move is made if and only if the history calls for it (bad for long enough or unusable for long enough, dwell over, budget left, a usable, clearly better, proven alternative), and then it goes to the first choice among the alternatives. |
| `FailoverEvidence.PreferredMoveExactly` | crates/dnet-core/src/failover.rs:282-301 | A preferred move is made if and only if the carrying path is good, dwell and budget allow it and some preferred path was good at every evaluation for `stable_for`; it goes to the first choice among those. |
| `FailoverEvidence.ForcedMoveExactly` | crates/dnet-core/src/failover.rs:192-223 | With no carrying path listed and up: no path exactly if none is up, else a move from what carried to the first choice among those up, a lost link exactly if something carried. |
| `FailoverEvidence.StaysOtherwise` | crates/dnet-core/src/failover.rs:232-303 | With a carrying path up, the machine stays exactly when it makes no degraded and no preferred move. |
| `FailoverProgress.BadPathIsLeftInTime` | crates/dnet-core/src/failover.rs:239-280 | Bounded response: a carrying path that stays below good while one measured path stays better is left by the first look after `degrade_for`, `stable_for`, `min_dwell` and `window` have passed. |
| `FailoverProgress.UnusablePathIsLeftInTime` | crates/dnet-core/src/failover.rs:250-280 | The same for an unusable path, without waiting for `stable_for`. |
| `FailoverProgress.CarryingOnlyClimbs` | crates/dnet-core/src/failover.rs:47-58 | Over any stretch of any run in which the looks see the same paths (whichever is marked as carrying), the carrying path is above every path that carried before it in the stretch, in the order of band, then loss among poor, then preference among good. |
| `FailoverProgress.NoPingPong` | crates/dnet-core/src/failover.rs:250-301 | Over such a stretch a path moved to has not carried before in it. |
| `FailoverProgress.FewerMovesThanPaths` | crates/dnet-core/src/failover.rs:250-301 | Over such a stretch there are fewer voluntary moves than paths, however long it is. |
| `FailoverProgress.ExplanationIsTrue` | crates/dnet-core/src/failover.rs:312-353 | On a path below good, a reason other than `Proving` means the evaluation stays; staying under `Proving` means not bad for long enough or nothing better proven; staying leaves the reason as it was. |
| `FailoverProgress.ReasonExactly` | crates/dnet-core/src/failover.rs:312-353 | Each reason is given exactly when the history of the run says so: no other path up; none clearly better; dwell not over; budget used up; else proving. |
| `Quality.EstimateBounds` | crates/dnet-core/src/quality.rs:78-105 | Over every sample sequence SRTT stays within the samples and RTTVAR within the larger of half the first sample and the spread (section 2 of RFC 6298). |
| `Quality.LossBounds` | crates/dnet-core/src/quality.rs:78-105 | The smoothed loss is a fraction and never exceeds 1 - (7/8)^k after k losses, however answers are mixed in. |
| `Quality.LossesInARow` | crates/dnet-core/src/quality.rs:78-105 | Losses in a row close exactly one eighth of the gap to 1 each, from any starting loss. |
| `Quality.LossIsWeighted` | crates/dnet-core/src/quality.rs:78-105 | Over every sample sequence from any fraction, the loss is exactly what is left of the loss before, (7/8)^n, plus an eighth times (7/8)^age for each loss. |
| `Quality.AnswersInARow` | crates/dnet-core/src/quality.rs:78-105 | Answers in a row take exactly one eighth of the loss away each, from any starting loss. |
| `Quality.AnswersHeal` | crates/dnet-core/src/quality.rs:120-130 | Under the default thresholds any path leaves unusable after six answers in a row and its loss is no longer poor after fifteen; from a loss of 1, five and fourteen are not enough. |
| `Quality.BandAfterLosses` | crates/dnet-core/src/quality.rs:120-130 | On a new path one loss leaves it good, two to five poor, six or more unusable. |
| `Quality.BandAfterAnswers` | crates/dnet-core/src/quality.rs:120-130 | On a new path answers alone leave it good if all are below the round-trip limit and poor if none is. |
| `Quality.SteadySamples` | crates/dnet-core/src/quality.rs:84-105 | Equal samples in a row close exactly one eighth of the distance of SRTT each; RTTVAR keeps exactly (3/4)^k of itself and takes up its share of that distance. |
| `Quality.UnusableNeedsSixLosses` | crates/dnet-core/src/quality.rs:120-130 | Under the default thresholds a path is unusable only after at least six losses in total. |
| `Quality.SixLossesInARowSuffice` | crates/dnet-core/src/quality.rs:120-130 | Six losses in a row make a path unusable, whatever was measured before. |
| `Quality.MeasuredMeansSampled` | crates/dnet-core/src/quality.rs:108-115 | "Measured" means exactly that some sample was folded in; the round-trip estimate is that of the answered samples alone. |
| `DegradationReporting.DegradationReporter.Observe` | crates/dnet-core/src/degraded.rs:98-155 | The reporter, updated field by field, follows the specification `Observed`. |
| `ReportingRuns.ClockIsExact` | crates/dnet-core/src/degraded.rs:98-155 | Each of the reporter's clocks shows the start of the longest unbroken stretch on its side, with silence allowed inside it. |
| `ReportingRuns.ReportedIsTold` | crates/dnet-core/src/degraded.rs:92-94 | `current()` is set exactly when a degradation was announced and not taken back by a recovery or a look with nothing carrying; it names the announced path and reason, and never a worse band than announced. |
| `ReportingRuns.RecoveredExactly` | crates/dnet-core/src/degraded.rs:115-135 | "Recovered" is said if and only if a degradation stands and one path carried, with no look below good, for `recover_for` from a good look to this good look. |
| `ReportingRuns.ReportedStands` | crates/dnet-core/src/degraded.rs:98-155 | What the reporter holds is the degradation that stands, read off the looks alone. |
| `ReportingRuns.DegradedExactly` | crates/dnet-core/src/degraded.rs:135-155 | "Degraded" is said if and only if one path carried with no good look for `degrade_for` from a look below good, and path, reason or an unusable band is news against what stands by the looks alone; it says what this look sees. |
| `ReportingRuns.AnnouncedOnce` | crates/dnet-core/src/degraded.rs:135-155 | An unchanged degradation is announced once: of two announcements in a row while something carries and no recovery is said, the second names another path or reason, or a path now unusable that was seen poor. |
| `PathMonitoring.PathMonitor.PathsChanged` | crates/dnet-core/src/path_monitor.rs:182-231 | The refresh, in place on the list and both time maps, follows `Refreshed`. |
| `PathMonitoring.PathMonitor.Observe` | crates/dnet-core/src/path_monitor.rs:235-241 | Folding in a sample follows `Sampled`; a sample of an unlisted path is dropped. |
| `PathMonitoring.PathMonitor.Evaluate` | crates/dnet-core/src/path_monitor.rs:269-275 | The decision over the evidence follows `Decided`. |
| `PathMonitoring.PathMonitor.Report` | crates/dnet-core/src/path_monitor.rs:283-301 | The report follows `Reported`. |
| `PathMonitoring.PathMonitor.DueProbes` | crates/dnet-core/src/path_monitor.rs:138-161 | The hand-out, two loops over the list and the time map, follows `HandedOut`. |
| `PathMonitoring.PathMonitor.ApplyRoles` | crates/dnet-core/src/path_monitor.rs:340-351 | Setting the roles in a loop over the list follows `WithRoles`. |
| `PathMonitoring.PathMonitor.SetCarrying` | crates/dnet-core/src/path_monitor.rs:175-178 | Adoption follows `Adopted`. |
| `MonitorRuns.QualityIsReplay` | crates/dnet-core/src/path_monitor.rs:182-241 | Across any interleaving of events, each listed path's quality is the fold of exactly the samples accepted since its interface last appeared, and its sample time is that of the last of them. |
| `MonitorRoutes.DecisionMarksExactlyOne` | crates/dnet-core/src/path_monitor.rs:269-275 | After a decision exactly the carrying path has the role `Carrying`; no path has it exactly when the decision was `NoPath`. |
| `MonitorRoutes.TrackedExactly` | crates/dnet-core/src/path_monitor.rs:182-231 | Over any stretch of any run without an adoption, with any other events in any order, a client that installs the target's gateway on a move and follows each gateway change holds the listed gateway of the carrying path at every moment if and only if it does at first and no refresh is a miss: the link up behind another gateway than when last up, and absent from the list before or already behind the new one there. |
| `MonitorRoutes.RouteIsTracked` | crates/dnet-core/src/path_monitor.rs:182-231 | So the route is right at every moment if at every refresh nothing carries or the carrying link is up in the list before. |
| `MonitorRoutes.RouteIsTrackedWithDecisions` | crates/dnet-core/src/path_monitor.rs:182-231 | In particular it is right at every moment when a decision lies between any two refreshes. |
| `MonitorRoutes.MissedGateway` | crates/dnet-core/src/path_monitor.rs:195-222 | The run that shows the miss: a link absent from one list and back behind another router in the next, and a decision that then stays on it. |
| `MonitorEvidence.MonitorIsAFailoverRun` | crates/dnet-core/src/path_monitor.rs:246-275 | From each adoption on, the monitor's decisions are a run of the failover machine over its evidence, decision for decision, so every theorem on such runs holds of the monitor. |
| `MonitorEvidence.MonitorKeepsTheBudget` | crates/dnet-core/src/path_monitor.rs:269-275 | SC-007 for the whole monitor, whatever is listed, sampled, reported or handed out meanwhile, since the last adoption. |
| `MonitorBudget.MovesAcrossAdoptions` | crates/dnet-core/src/path_monitor.rs:175-178 | Over whole runs, adoptions included: at a voluntary move the counted moves in the window are those since the last adoption, at most `max_moves`, plus those the last adoption made the machine forget. |
| `MonitorBudget.CapHoldsAcrossAdoptions` | crates/dnet-core/src/path_monitor.rs:175-178 | So the cap holds across adoptions if no adoption inside the window follows a counted move inside it. |
| `MonitorBudget.AdoptionForgetsTheBudget` | crates/dnet-core/src/failover.rs:152-157 | The run that exceeds the cap and breaks the dwell: with one move allowed in a window, a path is left, adopted back and left again one nanosecond later. |
| `MonitorProgress.MonitorDoesNotPingPong` | crates/dnet-core/src/path_monitor.rs:269-275 | Over any stretch of any monitor run without an adoption in which every decision sees the same paths, whatever else happens in it, a path moved to has not carried before in the stretch. |
| `MonitorProgress.MonitorSettles` | crates/dnet-core/src/path_monitor.rs:269-275 | Over such a stretch there are fewer voluntary moves than paths. |
| `MonitorProgress.MonitorDwells` | crates/dnet-core/src/path_monitor.rs:269-275 | A voluntary move of the monitor comes at least `min_dwell` after every earlier counted move, unless a `NoPath` decision or an adoption lies between. |
| `MonitorProgress.MonitorLeavesInTime` | crates/dnet-core/src/path_monitor.rs:269-275 | Bounded response of the monitor, whatever else happens: a carrying path its decisions keep seeing bad while one path stays better is left by the first decision after the waiting times, if nothing is adopted. |
| `MonitorEvidence.ProofIsFresh` | crates/dnet-core/src/path_monitor.rs:246-265 | What a decision takes as proof was sampled within three probe intervals, and the accepted samples smooth to good. |
| `MonitorEvidence.VoluntaryMovesRestOnFreshEvidence` | crates/dnet-core/src/path_monitor.rs:246-275 | Over every run: a preferred move was earned by fresh, measured, good evidence at every decision from one at least `stable_for` ago; a degraded move by decisions seeing the carrying path bad from one at least `degrade_for` ago, or unusable from one at least `unusable_for` ago, and, unless urgent, a good target earned it in the same way. |
| `MonitorReports.RolesAreAlwaysRight` | crates/dnet-core/src/path_monitor.rs:340-351 | After every event of every run each path has the role its link and the carrying path give it. |
| `MonitorReports.ToldReasonIsTrue` | crates/dnet-core/src/path_monitor.rs:283-301 | When a decision to stay is followed on the same tick by an announcement, the path and band are those the decision saw, and the reason's claim holds of that very evidence. |
| `MonitorReporting.MonitorIsAReporterRun` | crates/dnet-core/src/path_monitor.rs:283-301 | Across adoptions too, the monitor's reports are a run of the degradation reporter over its looks, report for report. |
| `MonitorReporting.WhatIsSaidWasSo` | crates/dnet-core/src/path_monitor.rs:283-301 | Over every run "degraded" and "recovered" are said only when the reports, from one at least `degrade_for` (`recover_for`) ago, saw one path carry, on that side at both ends and never on the other; and they name that path. |
| `MonitorReports.ShapesCompareContents` | crates/dnet-core/src/path_monitor.rs:98-111 | "Nothing changed" means that both lists hold the same interfaces, kinds, gateways and link states, in any order. |
| `MonitorSight.EvidenceExactly` | crates/dnet-core/src/path_monitor.rs:246-265 | What a decision sees of each listed path is exactly what the system listed, with the quality its accepted samples smooth to if the last is at most three probe intervals old, and none otherwise. |
| `MonitorSight.LookExactly` | crates/dnet-core/src/path_monitor.rs:283-301 | What a report looks at is exactly the carrying path, its band if listed, measured and fresh, and the reason on the evidence a decision would see. |
| `MonitorSight.ChangedExactly` | crates/dnet-core/src/path_monitor.rs:182-231 | Over every run a refresh says that something changed if and only if some path is not listed before and after with the same kind, gateway and link state. |
| `MonitorProbes.ProbesArePacedExactly` | crates/dnet-core/src/path_monitor.rs:138-161 | A probe is handed out if and only if the link is up and none was handed out since it came up, or the last is as long ago as its carrying or standby interval. |
| `MonitorProbes.ProbesAreSpaced` | crates/dnet-core/src/path_monitor.rs:138-161 | While a link stays up, two probes of it are at least the interval apart, whatever happens between. |
| `EngineMachine.ConnectionEngine.Step` | crates/dnet-core/src/engine.rs:221-248 | Every input, applied to the engine object in place, follows the specification `Stepped`, and keeps the invariant. |
| `EngineMachine.ConnectionEngine.Connect` | crates/dnet-core/src/engine.rs:252-306 | Connecting follows `OnConnect`. |
| `EngineAttempts.ConnectExactly` | crates/dnet-core/src/engine.rs:252-306 | Over every run: a connect while something is going on changes nothing; otherwise it forgets what earlier attempts found, names the most fundamental trouble, else an unknown profile, else that no endpoint may be used, else goes to an endpoint none outranks with the named profile, with a race of all that can be raced in order, or with the first. |
| `EngineMachine.ConnectionEngine.Disconnect` | crates/dnet-core/src/engine.rs:308-318 | Disconnecting follows `OnDisconnect`. |
| `EngineOutcomes.DisconnectEndsEverything` | crates/dnet-core/src/engine.rs:308-318 | Over every run: after a disconnect the engine is idle, nothing is running, and exactly what ran was stopped. |
| `EngineMachine.ConnectionEngine.RaceFinished` | crates/dnet-core/src/engine.rs:322-371 | The end of a race follows `OnRaceFinished`; its precondition, an endpoint while racing, is part of the invariant. |
| `EngineMachine.ConnectionEngine.RecordResults` | crates/dnet-core/src/engine.rs:374-410 | Recording results, two loops over reports and silent profiles, follows `Learned`. |
| `EngineLearning.RaceTeachesExactly` | crates/dnet-core/src/engine.rs:374-410 | Over every run, after a race that is accepted: the winner works; a reported profile is as its last report is judged; a silent one is blocked exactly if it was raced and nobody won; every other is as it was. |
| `EngineLearning.RaceSaysExactly` | crates/dnet-core/src/engine.rs:374-410 | A profile is said to be blocked exactly if it is configured and some report of it is judged so, or nobody won and it was raced and silent. |
| `EngineOutcomes.StaleResultIsIgnored` | crates/dnet-core/src/engine.rs:322-339 | A result for no race, an undecided one, or a winner not raced changes nothing. |
| `EngineOutcomes.WinnerIsBroughtUp` | crates/dnet-core/src/engine.rs:344-352 | An accepted winner is started at the endpoint raced against, as the last action; the user is warned exactly if it is of the second tier. |
| `EngineOutcomes.NobodyWonExactly` | crates/dnet-core/src/engine.rs:353-371 | With no winner: the most fundamental trouble is named; else a named profile has failed; else the first untried profile that cannot be raced is started, if all others are blocked; else every profile is blocked. |
| `EngineMachine.ConnectionEngine.TunnelUp` | crates/dnet-core/src/engine.rs:434-443 | A tunnel coming up follows `OnTunnelUp`. |
| `EngineOutcomes.TunnelUpConnects` | crates/dnet-core/src/engine.rs:434-443 | In `Starting` it gives `Connected` with the same profile and endpoint, that profile alone working; otherwise it changes nothing. |
| `EngineOutcomes.StartFailedBreaks` | crates/dnet-core/src/engine.rs:229-232 | A failed start in `Starting` stops the tunnel and ends with the cause given; otherwise it changes nothing. |
| `EngineOutcomes.OthersOnlyNote` | crates/dnet-core/src/engine.rs:448-483 | Environment and reach are stored; a path or quality change is told exactly while connected, with the tier of the connected profile; nothing else changes. |
| `EngineMachine.ConnectionEngine.LiveCheck` | crates/dnet-core/src/engine.rs:485-528 | A live check follows `OnCheck`. |
| `EngineAttempts.CheckExactly` | crates/dnet-core/src/engine.rs:485-528 | Over every run: before the third failure in a row nothing happens; at it the most fundamental trouble is named, else the profile alone is blocked and the others that can be raced are, best tier first, else the first other started, else every profile is blocked. |
| `EngineMachine.ConnectionEngine.EndpointProbe` | crates/dnet-core/src/engine.rs:530-556 | An endpoint probe follows `OnEndpointProbe`. |
| `EngineEndpoints.ProbeExactly` | crates/dnet-core/src/engine.rs:530-606 | Over every run: a probe that leaves the endpoint in use unreachable restarts the tunnel or race at a candidate no candidate outranks, the old stopped first, or ends the attempt if there is none; any other probe changes only health. |
| `EngineEndpoints.HealthIsReplay` | crates/dnet-core/src/engine.rs:530-556 | Over every run each endpoint's health is exactly what its own probes make of the health it began with. |
| `EngineEndpoints.EnvironmentIsLast` | crates/dnet-core/src/engine.rs:221-248 | The engine judges by what was last said of the machine; to begin with, that nothing is wrong. |
| `EngineEndpoints.GivesUpExactly` | crates/dnet-core/src/engine.rs:656-668 | Giving up is said exactly when the engine has just broken, with the cause it broke with. |
| `EngineMachine.ConnectionEngine.MoveTunnel` | crates/dnet-core/src/engine.rs:560-583 | Relocating a tunnel follows `RelocateTunnel`. |
| `EngineMachine.ConnectionEngine.MoveRace` | crates/dnet-core/src/engine.rs:586-606 | Relocating a race follows `RelocateRace`. |
| `EngineInvariant.StepIsRight` | crates/dnet-core/src/engine.rs:221-668 | Every input in every state that satisfies the invariant is possible, keeps the invariant, and its actions take what is running to what the new phase says is running. |
| `EngineRuns.RunExists` | crates/dnet-core/src/engine.rs:322-345 | Every sequence of inputs has its run: the `expect` on the endpoint of a finished race never fires. |
| `EngineRuns.ActionsAreDisciplined` | crates/dnet-core/src/engine.rs:560-668 | Replaying all actions of any run, a tunnel is outstanding exactly in `Starting` and `Connected`, a race exactly in `Probing` and `Recovering`; nothing is started while something runs or stopped when nothing does. |
| `EngineRuns.OnlyUsableThingsAreStarted` | crates/dnet-core/src/engine.rs:610-654 | Every tunnel started is for a profile not blocked and a usable endpoint; every race holds only raceable profiles not blocked. |
| `EngineRuns.EndpointInUseIsUsable` | crates/dnet-core/src/engine.rs:530-606 | During an attempt the engine's endpoint is set, is the phase's, and is a candidate, so `plan_migration` answers `Stay`. |
| `EngineRuns.WatchIsExact` | crates/dnet-core/src/engine.rs:434-443 | While connected the detector holds exactly the failed checks in a row since the tunnel came up, fewer than three, and unreported. |
| `EngineRuns.ThirdFailureExactly` | crates/dnet-core/src/engine.rs:485-528 | A check ends the connection if and only if it is the third failure in a row; the profile is blamed if and only if also nothing else explains it. |
| `EngineRuns.CleanMeansNothingElseIsWrong` | crates/dnet-core/src/failure.rs:56-101 | In a connected engine the classification finds no cause if and only if privilege, configuration, paths and portal are all in order. |
| `FailureCauses.ClassifyExactly` | crates/dnet-core/src/failure.rs:56-101 | A cause is named if and only if it is at work and no more fundamental one is; none exactly when none is. |
| `EngineOutcomes.DiagnoseExactly` | crates/dnet-core/src/engine.rs:671-687 | The same for the engine, by what it knows of machine, endpoints and profiles; what was found of the endpoints counts after a race only. |
| `EngineOutcomes.FallbackExactly` | crates/dnet-core/src/engine.rs:722-735 | The last resort is the first untried profile that cannot be raced, once every other is blocked. |
| `EngineRecovery.RecoveryTerminates` | crates/dnet-core/src/engine.rs:485-528 | Within one attempt the unblocked profiles never grow, each live-check block uses one up, so there are at most as many blocks as profiles. |
| `EngineRecovery.BlockedIsNotRetried` | crates/dnet-core/src/engine.rs:722-752 | A profile found blocked is not started again, in a tunnel or a race, before the next connect. |
| `EngineRecovery.NamedProfileIsTriedAlone` | crates/dnet-core/src/engine.rs:281-305 | After a connect naming a profile, nothing else is raced or started before the first live-check block. |
| `EngineHonesty.LosersAreBlocked` | crates/dnet-core/src/engine.rs:374-410 | When nobody wins, every raced profile is blocked afterwards, whether it reported or was silent. |
| `EngineHonesty.AllProfilesBlockedIsTrue` | crates/dnet-core/src/engine.rs:353-371 | "Every profile is blocked" is said while some profile is not if and only if the daemon itself gives that as the cause of a failed start; in every other case every profile is marked blocked. |
| `Health.OnProbe` | crates/dnet-core/src/health.rs:135-178 | One probe, applied as edits of a copy, follows `Probed`. |
| `Health.ReachableHealthIsSound` | crates/dnet-core/src/health.rs:182-202 | Every health that probes lead to has fewer than 2 bad in a row when healthy and fewer than 3 good in a row when degraded. |
| `Health.AnyAnswerRecovers` | crates/dnet-core/src/health.rs:135-202 | From any reachable `Unreachable`, one answer of any quality makes the endpoint healthy. |
| `Health.UnreachableExactly` | crates/dnet-core/src/health.rs:135-178 | Unreachable if and only if the last `unreachable_after` probes failed, or all probes so far did; the counter is the failures in a row, saturated at 32 bits. |
| `Health.DegradedExactly` | crates/dnet-core/src/health.rs:182-202 | Degraded if and only if two bad answers in a row were given and since then neither three good ones in a row nor giving up. |
| `Health.QualityCountersAreExact` | crates/dnet-core/src/health.rs:135-178 | The quality counters are the good and bad answers in a row, saturated at 32 bits. |
| `Health.EstimateIsOfAnswers` | crates/dnet-core/src/health.rs:209-226 | The endpoint's estimate is that of its answers alone, and the time of its last probe is kept. |
| `Endpoints.RankIsBestFirst` | crates/dnet-core/src/endpoint_health.rs:25-37 | The ranking holds exactly the candidates, best first. |
| `Endpoints.RankIsStable` | crates/dnet-core/src/endpoint_health.rs:25-37 | Endpoints of equal rank keep the order given. |
| `Endpoints.RankByComponents` | crates/dnet-core/src/endpoint_health.rs:25-47 | Earlier in the ranking means healthy before degraded before unknown and, in the same state, a known and no longer round trip. |
| `Endpoints.MigrationIsSound` | crates/dnet-core/src/migrate.rs:33-47 | A usable endpoint is kept; an unusable one is left for another that no candidate outranks; nowhere to go exactly when there is no candidate. |
| `ProbeRacing.JudgeIsMonotone` | crates/dnet-core/src/probe.rs:65-87 | More bytes in no more (but positive) time are judged no worse, and the product fits in 128 bits. |
| `ProbeRacing.JudgeExactly` | crates/dnet-core/src/probe.rs:65-87 | Usable exactly if the time is positive, at least 64 KiB came and the rate is at least 256 kbit/s, the rate being whole bits per second saturated at 64 bits; else the first of these that fails. |
| `ProbeRacing.ProbeRace.Record` | crates/dnet-core/src/probe.rs:137-152 | Recording follows `Recorded`, and answers whether the report was taken. |
| `ProbeRacing.ProbeRace.FailPending` | crates/dnet-core/src/probe.rs:157-166 | Failing the pending in a loop over the entries fails exactly those. |
| `ProbeRacing.OrderOfReportsDoesNotMatter` | crates/dnet-core/src/probe.rs:137-216 | One report per profile, in any order, gives the same standing and decision. |
| `ProbeRacing.DecisionIsFinal` | crates/dnet-core/src/probe.rs:169-216 | Without new reports a decision never changes as time passes; by the deadline there is one; nobody wins exactly when nothing is usable and nothing is awaited. |
| `ProbeRacing.FailingPendingEndsTheRace` | crates/dnet-core/src/probe.rs:157-166 | After failing the pending the race is decided at once, as it would have been at the deadline. |
| `ProbeRacing.WinnerIsDeserved` | crates/dnet-core/src/probe.rs:169-216 | Nothing usable is preferable to the winner; a Tier 2 winner means no Tier 1 is usable, and none pending unless grace or deadline passed. |
| `ProbeRacing.DecideExactly` | crates/dnet-core/src/probe.rs:169-216 | Still on exactly while the first by tier, time and place may be bettered by a pending Tier 1 within grace and deadline, or nothing is usable, something is pending and the deadline has not passed; the winner is that first. |
| `Reprobing.BlockDetector.Observe` | crates/dnet-core/src/reprobe.rs:63-85 | The detector follows `Checked`. |
| `Reprobing.BlockIsReportedOnce` | crates/dnet-core/src/reprobe.rs:63-85 | Over every sequence of checks the answer is exactly by the failures in a row: fine, suspect with the count, blocked on the third, already blocked after. |
| `Reprobing.PlanIsTheUnblocked` | crates/dnet-core/src/reprobe.rs:105-118 | The plan names exactly the other profiles not blocked. |
| `Reprobing.PlanIsBestTierFirst` | crates/dnet-core/src/reprobe.rs:105-118 | The plan is the retryable Tier 1 profiles in the order given, then the Tier 2 ones. |
| `Rules.NormalizeIsIdempotent` | crates/dnet-core/src/rule_eval.rs:123-138 | A normalised name is lower case and normalises to itself. |
| `NameForms.NormalFormExactly` | crates/dnet-core/src/rule_eval.rs:123-138 | A name's normal form is the well-formed name (labels of 1 to 63 allowed characters, at most 253 in all) that it is but for case and a trailing dot. |
| `NameForms.LabelsJoin` | crates/dnet-core/src/rule_eval.rs:123-138 | Splitting a name at its dots and joining the labels gives it back. |
| `NameForms.PathFormExactly` | crates/dnet-core/src/rule_eval.rs:150-158 | A path's normal form is, in lower case and with slashes turned, what lies between the long-path prefix and all backslashes at its end. |
| `AddressRanges.ContainsExactly` | crates/dnet-core/src/rule_eval.rs:161-178 | A range contains exactly the addresses of its family from its first, as many as its prefix leaves free, IPv4-mapped ones counting as IPv4. |
| `AddressRanges.OverlapExactly` | crates/dnet-core/src/rule.rs:73-86 | Two blocks overlap if and only if some address lies in both. |
| `AddressRanges.CanonicalExactly` | crates/dnet-core/src/rule_eval.rs:161-167 | Exactly `::ffff:` before an IPv4 address is taken off. |
| `AddressRanges.UnderMeans` | crates/dnet-core/src/rule_eval.rs:141-146 | A name is under a suffix exactly if it is the suffix or something, a dot and the suffix. |
| `Rules.DecidingIsLowest` | crates/dnet-core/src/rule_eval.rs:211-234 | The deciding rule matches and no matching rule outranks it; there is none exactly when nothing matches. |
| `Rules.OrderDependsOnContents` | crates/dnet-core/src/rule_eval.rs:211-216 | With distinct precedences the order of trial depends only on which rules there are. |
| `BuiltinRules.BuildBuiltins` | crates/dnet-core/src/builtin_rules.rs:48-84 | The built-in set, pushed rule by rule, is capture at 0 and the rest numbered in order. |
| `AddressRanges.BuiltinsRouteExactly` | crates/dnet-core/src/builtin_rules.rs:48-84 | The disconnected set routes every flow exactly so: port 53 captured; 10.66.0.1 and 10.9.0.254 tunnelled; every other private, link-local and multicast address and every portal-check name bypassed; all else tunnelled. |
| `AddressRanges.ConnectedRoutesExactly` | crates/dnet-core/src/builtin_rules.rs:48-84 | With an active endpoint the same, except that what goes to it is bypassed, port 53 apart. |
| `BuiltinRules.ValidateRuleSet` | crates/dnet-core/src/rule.rs:260-268 | Accepts exactly the sets without a shared precedence; else names that of the first rule that repeats an earlier one. |
| `BuiltinRules.ValidateBuiltinsPresent` | crates/dnet-core/src/builtin_rules.rs:175-188 | Names the first built-in that is missing, in the order they are built. |
| `BuiltinRules.NothingMissingExactly` | crates/dnet-core/src/builtin_rules.rs:175-188 | Nothing is missing exactly if capture, the active endpoint's bypass, the tunnelled origins, the bypassed ranges and the portal suffixes are all there as built-ins. |
| `BuiltinRules.ValidateUserRulesFollow` | crates/dnet-core/src/rule.rs:274-291 | Accepts exactly the sets in which every personal rule is at 200 or beyond and after every built-in, and names the first that is not. |
| `BuiltinRules.OrderIsKept` | crates/dnet-core/src/builtin_rules.rs:108-144 | Inserting the endpoint keeps each rule's identity, match and action, the relative order of all, and the numbers of personal rules and of precedences from 100 on. |
| `BuiltinRules.MeaningIsPreserved` | crates/dnet-core/src/builtin_rules.rs:108-144 | After inserting, every flow is captured if it is plain DNS, bypassed if it matches the endpoint, and otherwise decided by the very rule that decided it before. |
| `BuiltinRules.OnceIsEnough` | crates/dnet-core/src/builtin_rules.rs:108-144 | Applying it twice equals applying it once. |
| `BuiltinLayout.InsertionSucceedsExactly` | crates/dnet-core/src/builtin_rules.rs:108-144 | On every set the validators accept, insertion succeeds if and only if the host can be written as a rule and the layout has room: capture at 0, bypasses below 99, nothing that stays at 1 or right after something that moves. |
| `BuiltinLayout.OutcomeExactly` | crates/dnet-core/src/builtin_rules.rs:108-144 | The outcome on every set the validators accept: unchanged exactly if a built-in bypass of the endpoint is there; else refused for the first of a bypass pushed onto the block, a host that cannot be written, the number two rules would share, capture not first; else inserted. |
| `BuiltinLayout.OpenedIsBuiltWithEndpoint` | crates/dnet-core/src/builtin_rules.rs:48-144 | Inserting into the disconnected set gives, rule for rule, the set built with the endpoint from the start. |
| `BuiltinLayout.OpenedRoutesLikeBuilt` | crates/dnet-core/src/builtin_rules.rs:48-144 | So both route every flow alike. |
| `BuiltinLayout.PersonalRulesCannotLift` | crates/dnet-core/src/rule.rs:274-291 | In every set that the validators accept, no personal rule changes what the built-ins decide. |
| `Compile.CompiledRoutesAgree` | crates/dnet-config/src/primary.rs:397-425 | Over every rule set and flow: the core acts on the very rule that decides if and only if each rule the flow mismatches has a matching rule before it; then first match over the generated entries does what the matching rule of lowest precedence says, else tunnels. |
| `Compile.OutrankedMismatchesDoNotShow` | crates/dnet-config/src/primary.rs:397-425 | In particular when the deciding rule outranks each rule the flow mismatches. |
| `Compile.EntryAgrees` | crates/dnet-config/tests/rule_agreement.rs:28-58 | On every flow one rule and its entry agree if and only if the flow is not one of four mismatches: a matched name with a trailing dot, a name that is no DNS name beneath a suffix, an IPv4-mapped address in the range, a path equal only after normalisation. |
| `Compile.OneRuleAgreesExactly` | crates/dnet-config/tests/rule_agreement.rs:61-73 | Alone, a rule that does not tunnel is carried out by the core as it says if and only if the flow does not mismatch it. |
| `Compile.TrailingDotParts` | crates/dnet-core/src/rule_eval.rs:123-138 | The flows that show the first mismatch: any bypassed name written with a trailing dot. |
| `Compile.OddNameParts` | crates/dnet-core/src/rule_eval.rs:123-146 | The flows that show the second: an odd label in front of any bypassed suffix. |
| `Compile.MappedAddressParts` | crates/dnet-core/src/rule_eval.rs:161-178 | The flow that shows the third: 10.0.0.1 in IPv6 form against 10.0.0.0/8. |
| `Compile.SpellingParts` | crates/dnet-core/src/rule_eval.rs:150-160 | The flow that shows the fourth: a program path in another case. |
| `DnsChain.DnsEntryAgrees` | crates/dnet-config/src/primary.rs:437-452 | On every query, a bypass or refusal of names and its DNS entry agree if and only if the name is not matched but for a trailing dot, nor a name that is no DNS name beneath the suffix. |
| `DnsChain.EveryQueryIsDecided` | crates/dnet-config/src/primary.rs:427-486 | Every query, whatever its name, is decided by the chain; the local resolver answers if and only if the first bypass or refusal that catches the name is a bypass. |
| `DnsChain.NameRuleIsNamed` | crates/dnet-config/src/primary.rs:437-486 | That rule is a bypass or refusal, of the name or of a suffix it is under, that no other such rule outranks. |
| `DnsChain.LookupAgreesWithRoutingExactly` | crates/dnet-config/src/primary.rs:437-486 | For every name, program and port: a name is asked locally while its flow is not bypassed if and only if a rule that does not bypass outranks the bypass of the name, or the name is no DNS name beneath a bypassed suffix; a flow is bypassed while its name is not asked locally if and only if a bypass of its program, or of its name but for a trailing dot, decides it. |
| `DnsChain.BypassedNameIsAskedLocally` | crates/dnet-config/src/primary.rs:427-434 | For an unknown program and a name without a trailing dot, what is bypassed is asked locally. |
| `DnsChain.TunnelledNameAskedLocally` | crates/dnet-config/src/primary.rs:437-452 | The input that shows the first: a name tunnelled by one rule and bypassed by a later one. |
| `DnsChain.OddNameAskedLocally` | crates/dnet-config/src/primary.rs:437-452 | The input that shows the second: an odd label in front of any bypassed suffix. |
| `DnsChain.ProgramIsGivenAFakeAddress` | crates/dnet-config/src/primary.rs:464-469 | The input that shows the third: any name that a bypassed program connects to gets a fake address. |
| `DnsChain.DottedNameIsGivenAFakeAddress` | crates/dnet-config/src/primary.rs:464-469 | The input that shows the fourth: any bypassed name with a trailing dot gets a fake address. |
| `DnsChain.ConfigurationDependsOnContents` | crates/dnet-config/src/primary.rs:389-486 | With distinct precedences the generated route and DNS rules depend only on which rules there are. |

## Left out

- All wording: `because` strings, explanations and disclosures. Events keep their structured fields.
- Floating-point rounding of the averages, and rounding of durations to nanoseconds.
- `PathMonitor::snapshot` and `PathHistory`: telemetry, kept beside the decisions and never read by them.
- Minting of rule identifiers: the identifiers are parameters.
- Parsing of addresses, ranges and hosts from text; case folding beyond ASCII in names and paths.
- The rule list of the encrypted-DNS block: only its place in the numbering is modelled.
- `retry_delay` and the recovery time budget: constants and one formula.
- The daemon's loop around the monitor and the engine (`netwatch.rs`), the operating-system calls,
  storage, feeds, portal handling, outbound generators and the user interface.
- `CoreFailedPersistently` is modelled as a cause, but the engine never sets `core_failed` itself.
