/** When "every profile is blocked" is true: always, unless the daemon itself gives it as the cause of a failed
    start. */
module EngineHonesty {
  import opened Common
  import opened ProbeRacing
  import opened Reprobing
  import opened FailureCauses
  import opened Endpoints
  import opened EngineSpec
  import opened EngineInvariant
  import opened EngineRuns
  import opened EngineRecovery

  /** A race result is consistent: it names only raced profiles, and when nobody won, no report is of a usable
      profile. */
  predicate Consistent(e: Engine, input: Input) {
    && Honest(e, input)
    && (input.RaceFinished? && input.decision == NoneUsable ==>
          forall i :: 0 <= i < |input.results| ==> Judge(input.results[i].1).NotUsable?)
  }

  /** While an attempt is on: a profile that cannot be raced is known to work only if it carries, and a race
      that is not about one named profile includes every raceable profile not known to be blocked. */
  predicate Tracked(e: Engine) {
    && (e.phase.Racing() || e.phase.Tunnelling() ==>
          forall i :: 0 <= i < |e.profiles| && !e.profiles[i].kind.Probeable() && e.profiles[i].viability.Working? ==>
            e.phase.Tunnelling() && e.phase.profile == e.profiles[i].id)
    && (e.phase.Recovering? || (e.phase.Probing? && e.requested.None?) ==>
          forall i :: 0 <= i < |e.profiles| && e.profiles[i].kind.Probeable() && NotBlocked(e.profiles[i]) ==>
            e.profiles[i].id in e.raced)
  }

  /** No profile that cannot be raced is known to work. */
  predicate NoDirectWorking(profiles: seq<Profile>) {
    forall i :: 0 <= i < |profiles| && !profiles[i].kind.Probeable() ==> !profiles[i].viability.Working?
  }

  // ------------------------------------------------------------------ what a race changes

  lemma {:induction false} SilencedChangesOnlyListed(profiles: seq<Profile>, ids: seq<ProfileId>, now: Time, i: nat)
    requires i < |profiles|
    ensures |Silenced(profiles, ids, now).0| == |profiles|
    ensures Silenced(profiles, ids, now).0[i] == profiles[i]
            || (profiles[i].id in ids && Silenced(profiles, ids, now).0[i].viability.Blocked?)
  {
    if ids != [] {
      var n := |ids| - 1;
      SilencedChangesOnlyListed(profiles, ids[..n], now, i);
      SilencedSame(profiles, ids[..n], now);
      MarkedSame(Silenced(profiles, ids[..n], now).0, ids[n], Blocked(now, NoResponse));
    }
  }

  lemma LearningChangesOnlyRaced(e: Engine, decision: RaceDecision, results: seq<(ProfileId, ProfileProbe)>,
                                 now: Time, i: nat)
    requires Inv(e) && AcceptsRace(e, decision) && Honest(e, RaceFinished(decision, results)) && i < |e.profiles|
    ensures |Learned(e, decision, results, now).0.profiles| == |e.profiles|
    ensures Learned(e, decision, results, now).0.profiles[i] == e.profiles[i] || e.profiles[i].id in e.raced
  {
    LearnedSame(e, decision, results, now);
    NotedChangesOnlyReported(e.profiles, results, now, i);
    NotedSame(e.profiles, results, now);
    var noted := Noted(e.profiles, results, now).0;
    var silent := Filter(e.raced, SilentTest(results));
    SilencedChangesOnlyListed(noted, silent, now, i);
    var silenced := if decision == NoneUsable then Silenced(noted, silent, now).0 else noted;
    if decision.Selected? {
      MarkedSame(silenced, decision.profile, Working(now));
    }
  }

  lemma LearningKeepsDirect(e: Engine, decision: RaceDecision, results: seq<(ProfileId, ProfileProbe)>, now: Time)
    requires Inv(e) && Tracked(e) && AcceptsRace(e, decision) && Honest(e, RaceFinished(decision, results))
    ensures NoDirectWorking(Learned(e, decision, results, now).0.profiles)
  {
    var after := Learned(e, decision, results, now).0.profiles;
    LearnedSame(e, decision, results, now);
    forall i | 0 <= i < |after| && !after[i].kind.Probeable() ensures !after[i].viability.Working? {
      LearningChangesOnlyRaced(e, decision, results, now, i);
      if e.profiles[i].id in e.raced {
        RacedIsNotBlocked(e, i);
      }
    }
  }

  /** Reports of failure block what they name and unblock nothing. */
  lemma {:induction false} FailureReportsBlock(profiles: seq<Profile>, results: seq<(ProfileId, ProfileProbe)>,
                                               now: Time, i: nat)
    requires UniqueProfiles(profiles) && i < |profiles|
    requires forall j :: 0 <= j < |results| ==> Judge(results[j].1).NotUsable?
    ensures |Noted(profiles, results, now).0| == |profiles|
    ensures profiles[i].viability.Blocked? || Reports(results, profiles[i].id) ==>
            Noted(profiles, results, now).0[i].viability.Blocked?
  {
    if results != [] {
      var n := |results| - 1;
      FailureReportsBlock(profiles, results[..n], now, i);
      NotedSame(profiles, results[..n], now);
      MarkingBlocked(Noted(profiles, results[..n], now).0, profiles, results[n].0, ViabilityFrom(results[n].1, now), i);
      ReportsSplit(results, profiles[i].id);
    }
  }

  lemma ReportsSplit(results: seq<(ProfileId, ProfileProbe)>, id: ProfileId)
    requires results != []
    ensures Reports(results, id) <==> Reports(results[..|results| - 1], id) || results[|results| - 1].0 == id
  {
    var init := results[..|results| - 1];
    if j :| 0 <= j < |results| && results[j].0 == id {
      assert j < |init| ==> init[j].0 == id;
    }
    if j :| 0 <= j < |init| && init[j].0 == id {
      assert results[j].0 == id;
    }
  }

  lemma MarkingBlocked(before: seq<Profile>, profiles: seq<Profile>, id: ProfileId, blocked: Viability, i: nat)
    requires UniqueProfiles(profiles) && SameProfiles(before, profiles) && i < |profiles| && blocked.Blocked?
    ensures Marked(before, id, blocked)[i].viability.Blocked? <==> before[i].viability.Blocked? || profiles[i].id == id
  {
    MarkedSame(before, id, blocked);
    SamePlaces(before, profiles, id);
    PlaceUnique(profiles, i);
  }

  lemma {:induction false} SilenceBlocks(profiles: seq<Profile>, ids: seq<ProfileId>, now: Time, i: nat)
    requires UniqueProfiles(profiles) && i < |profiles|
    ensures |Silenced(profiles, ids, now).0| == |profiles|
    ensures profiles[i].viability.Blocked? || profiles[i].id in ids ==>
            Silenced(profiles, ids, now).0[i].viability.Blocked?
  {
    if ids != [] {
      var n := |ids| - 1;
      SilenceBlocks(profiles, ids[..n], now, i);
      SilencedSame(profiles, ids[..n], now);
      MarkingBlocked(Silenced(profiles, ids[..n], now).0, profiles, ids[n], Blocked(now, NoResponse), i);
      assert ids == ids[..n] + [ids[n]];
    }
  }

  /** When nobody wins, every profile that was raced is blocked afterwards. */
  lemma LosersAreBlocked(e: Engine, results: seq<(ProfileId, ProfileProbe)>, now: Time, i: nat)
    requires Inv(e) && AcceptsRace(e, NoneUsable) && Consistent(e, RaceFinished(NoneUsable, results))
    requires i < |e.profiles|
    ensures |Learned(e, NoneUsable, results, now).0.profiles| == |e.profiles|
    ensures e.profiles[i].viability.Blocked? || e.profiles[i].id in e.raced ==>
              Learned(e, NoneUsable, results, now).0.profiles[i].viability.Blocked?
  {
    FailureReportsBlock(e.profiles, results, now, i);
    NotedSame(e.profiles, results, now);
    var noted := Noted(e.profiles, results, now).0;
    SilenceBlocks(noted, Filter(e.raced, SilentTest(results)), now, i);
  }

  // ------------------------------------------------------------------ tracking is kept

  lemma DirectNoneWorkingTracked(e: Engine)
    requires NoDirectWorking(e.profiles) && !e.phase.Racing()
    ensures Tracked(e)
  {
  }

  lemma ConnectThroughTracked(e: Engine, against: EndpointId)
    requires forall p :: p in e.profiles ==> p.viability.Untested?
    ensures Tracked(ConnectThrough(e, e.requested, against).0)
  {
    var ids, kept := ProbeableIds(e.profiles), Filter(e.profiles, ProbeableTest());
    forall i | 0 <= i < |e.profiles| && e.profiles[i].kind.Probeable() ensures e.profiles[i].id in ids {
      assert e.profiles[i] in kept;
      var j :| 0 <= j < |kept| && kept[j] == e.profiles[i];
      assert ids[j] == e.profiles[i].id;
    }
  }

  lemma ConnectTracked(e: Engine, requested: Option<ProfileId>)
    requires Tracked(e)
    ensures Tracked(OnConnect(e, requested).0)
  {
    if AcceptsConnect(e) {
      var f := Forgotten(e, requested);
      var cause, ranked := Diagnose(f, false), Rank(f.endpoints);
      if cause.Some? {
        FailTracked(f, cause.value, false);
      } else if requested.Some? && PlaceOf(f.profiles, requested.value).None? {
        FailTracked(f, ConfigurationInvalid(NoSuchProfile(requested.value)), false);
      } else if ranked == [] {
        FailTracked(f, NoEndpointReachable, false);
      } else {
        ConnectThroughTracked(f.(endpoint := Some(ranked[0])), ranked[0]);
      }
    }
  }

  lemma FailTracked(e: Engine, cause: FailureCause, stop: bool)
    ensures Tracked(Fail(e, cause, stop).0)
  {
  }

  lemma RaceFinishedTracked(e: Engine, decision: RaceDecision, results: seq<(ProfileId, ProfileProbe)>, now: Time)
    requires Inv(e) && Tracked(e) && Honest(e, RaceFinished(decision, results))
    ensures Tracked(OnRaceFinished(e, decision, results, now).0)
  {
    if AcceptsRace(e, decision) {
      LearningKeepsDirect(e, decision, results, now);
      var learned := Learned(e, decision, results, now).0;
      NobodyWonKeepsProfiles(learned, e.phase == Recovering, e.endpoint.value);
      RaceLeavesPhase(e, decision, results, now);
      var next := OnRaceFinished(e, decision, results, now).0;
      assert next.profiles == learned.profiles;
      if next != e {
        DirectNoneWorkingTracked(next);
      }
    }
  }

  lemma TunnelUpTracked(e: Engine, now: Time)
    requires Inv(e) && Tracked(e)
    ensures Tracked(OnTunnelUp(e, now).0)
  {
    if e.phase.Starting? {
      MarkedSame(e.profiles, e.phase.profile, Working(now));
    }
  }

  lemma RetryTracked(e: Engine, blocked: ProfileId, against: EndpointId)
    requires UniqueProfiles(e.profiles) && NoDirectWorking(e.profiles) && !Viable(e.profiles, blocked)
    ensures Tracked(Retry(e, PlanReprobe(e.profiles, blocked), against).0)
  {
    var candidates := PlanReprobe(e.profiles, blocked);
    var probeable := Filter(candidates, ProbeableIdTest(e.profiles));
    RetryKeepsProfiles(e, candidates, against);
    forall i | 0 <= i < |e.profiles| && e.profiles[i].kind.Probeable() && NotBlocked(e.profiles[i])
      ensures e.profiles[i].id in probeable
    {
      PlaceUnique(e.profiles, i);
      PlanIsTheUnblocked(e.profiles, blocked);
      assert e.profiles[i] in e.profiles;
      assert e.profiles[i].id in candidates;
    }
  }

  lemma BlameTracked(e: Engine, failures: nat, now: Time)
    requires Inv(e.(watch := FRESH_WATCH)) && Tracked(e) && e.phase.Connected?
    ensures Tracked(Blame(e, e.phase.profile, e.phase.endpoint, failures, now).0)
  {
    var profile, blocked := e.phase.profile, Blocked(now, LiveChecksFailed(failures));
    var marked := Marked(e.profiles, profile, blocked);
    MarkedSame(e.profiles, profile, blocked);
    SamePlaces(marked, e.profiles, profile);
    forall i | 0 <= i < |marked| && !marked[i].kind.Probeable() ensures !marked[i].viability.Working? {
      PlaceUnique(e.profiles, i);
    }
    RetryTracked(e.(profiles := marked, replacing := Some(profile)), profile, e.phase.endpoint);
  }

  lemma CheckTracked(e: Engine, check: LiveCheck, now: Time)
    requires Inv(e) && Tracked(e)
    ensures Tracked(OnCheck(e, check, now).0)
  {
    if e.phase.Connected? {
      var (watch, detection) := Checked(e.watch, check);
      var f := e.(watch := watch);
      if detection.IsBlocked? {
        BlameTracked(f, detection.failures, now);
      }
    }
  }

  lemma StepTracked(e: Engine, input: Input, now: Time)
    requires Inv(e) && CanStep(e) && Tracked(e) && Honest(e, input)
    ensures Tracked(Stepped(e, input, now).0)
  {
    match input {
      case Connect(requested) => ConnectTracked(e, requested);
      case RaceFinished(decision, results) => RaceFinishedTracked(e, decision, results, now);
      case TunnelUp => TunnelUpTracked(e, now);
      case Check(check) => CheckTracked(e, check, now);
      case EndpointProbe(id, outcome) => EndpointProbeTracked(e, input, now);
      case _ =>
    }
  }

  lemma EndpointProbeTracked(e: Engine, input: Input, now: Time)
    requires Tracked(e) && input.EndpointProbe?
    ensures Tracked(OnEndpointProbe(e, input.probed, input.outcome, now).0)
  {
  }

  lemma {:induction false} TrackedAlways(r: Run, k: nat)
    requires r.Valid() && k <= |r.inputs|
    requires forall j :: 0 <= j < k ==> Consistent(r.engines[j], r.inputs[j].input)
    ensures Tracked(r.engines[k])
  {
    if k > 0 {
      TrackedAlways(r, k - 1);
      InvAlways(r, k - 1);
      assert r.Follows(k - 1);
      StepTracked(r.engines[k - 1], r.inputs[k - 1].input, r.inputs[k - 1].now);
    }
  }

  // ------------------------------------------------------------------ the report is true

  /** The effect says "every profile is blocked" only if it is so. */
  predicate ReportIsTrue(effect: Effect) {
    Emit(GaveUp(AllProfilesBlocked)) in effect.1 ==> AllBlocked(effect.0.profiles)
  }

  lemma DiagnosisIsTrue(e: Engine, afterRace: bool, stop: bool)
    requires Diagnose(e, afterRace).Some?
    ensures ReportIsTrue(Fail(e, Diagnose(e, afterRace).value, stop))
  {
  }

  lemma ConnectReportIsTrue(e: Engine, requested: Option<ProfileId>)
    ensures ReportIsTrue(OnConnect(e, requested))
  {
    if AcceptsConnect(e) {
      var f := Forgotten(e, requested);
      if Diagnose(f, false).Some? {
        DiagnosisIsTrue(f, false, false);
      } else {
        ConnectAnywhereNeverGivesUp(f, requested);
      }
    }
  }

  lemma ConnectAnywhereNeverGivesUp(e: Engine, requested: Option<ProfileId>)
    requires e.profiles != [] && forall p :: p in e.profiles ==> p.viability.Untested?
    ensures Emit(GaveUp(AllProfilesBlocked)) !in ConnectAnywhere(e, requested).1
  {
    var ranked := Rank(e.endpoints);
    if ranked != [] {
      ConnectThroughNeverGivesUp(e.(endpoint := Some(ranked[0])), requested, ranked[0]);
    }
  }

  /** With a profile to try, a connect always tries one. */
  lemma ConnectThroughNeverGivesUp(e: Engine, requested: Option<ProfileId>, against: EndpointId)
    requires e.profiles != [] && forall p :: p in e.profiles ==> p.viability.Untested?
    ensures Emit(GaveUp(AllProfilesBlocked)) !in ConnectThrough(e, requested, against).1
  {
    if requested.None? && ProbeableIds(e.profiles) == [] {
      var kept := Filter(e.profiles, ProbeableTest());
      assert forall p :: p in e.profiles ==> p !in kept;
      assert e.profiles[0] in Filter(e.profiles, LastResortTest());
    }
  }

  lemma RaceReportIsTrue(e: Engine, decision: RaceDecision, results: seq<(ProfileId, ProfileProbe)>, now: Time)
    requires Inv(e) && Tracked(e) && Consistent(e, RaceFinished(decision, results))
    ensures ReportIsTrue(OnRaceFinished(e, decision, results, now))
  {
    if AcceptsRace(e, decision) {
      var (learned, said) := Learned(e, decision, results, now);
      SaidIsAboutProfiles(e, decision, results, now);
      if decision.NoneUsable? {
        if e.phase == Recovering || e.requested.None? {
          NobodyWonReportIsTrue(e, results, now);
        } else if Diagnose(learned, true).Some? {
          DiagnosisIsTrue(learned, true, false);
        }
      }
    }
  }

  lemma SaidIsAboutProfiles(e: Engine, decision: RaceDecision, results: seq<(ProfileId, ProfileProbe)>, now: Time)
    ensures forall a :: a in Learned(e, decision, results, now).1 ==> a.Emit? && a.event.ProfileBlocked?
  {
    NotedSays(e.profiles, results, now);
    SilencedSays(Noted(e.profiles, results, now).0, Filter(e.raced, SilentTest(results)), now);
  }

  lemma {:induction false} NotedSays(profiles: seq<Profile>, results: seq<(ProfileId, ProfileProbe)>, now: Time)
    ensures forall a :: a in Noted(profiles, results, now).1 ==> a.Emit? && a.event.ProfileBlocked?
  {
    if results != [] {
      NotedSays(profiles, results[..|results| - 1], now);
    }
  }

  lemma {:induction false} SilencedSays(profiles: seq<Profile>, ids: seq<ProfileId>, now: Time)
    ensures forall a :: a in Silenced(profiles, ids, now).1 ==> a.Emit? && a.event.ProfileBlocked?
  {
    if ids != [] {
      SilencedSays(profiles, ids[..|ids| - 1], now);
    }
  }

  lemma NobodyWonReport(e: Engine, recovering: bool, against: EndpointId)
    requires DirectFallback(e.profiles).None? ==> AllBlocked(e.profiles)
    ensures ReportIsTrue(NobodyWon(e, recovering, against))
  {
    if Diagnose(e, true).Some? {
      DiagnosisIsTrue(e, true, false);
    }
  }

  lemma NobodyWonReportIsTrue(e: Engine, results: seq<(ProfileId, ProfileProbe)>, now: Time)
    requires Inv(e) && Tracked(e) && AcceptsRace(e, NoneUsable) && Consistent(e, RaceFinished(NoneUsable, results))
    requires e.phase == Recovering || e.requested.None?
    ensures var learned := Learned(e, NoneUsable, results, now).0;
            ReportIsTrue(NobodyWon(learned, e.phase == Recovering, e.endpoint.value))
  {
    var learned := Learned(e, NoneUsable, results, now).0;
    if DirectFallback(learned.profiles).None? {
      NothingLeft(e, learned.profiles, results, now);
    }
    NobodyWonReport(learned, e.phase == Recovering, e.endpoint.value);
  }

  /** A race that nobody won, with no last resort left either, leaves nothing unblocked. */
  lemma NothingLeft(e: Engine, after: seq<Profile>, results: seq<(ProfileId, ProfileProbe)>, now: Time)
    requires Inv(e) && Tracked(e) && AcceptsRace(e, NoneUsable) && Consistent(e, RaceFinished(NoneUsable, results))
    requires e.phase == Recovering || e.requested.None?
    requires after == Learned(e, NoneUsable, results, now).0.profiles && DirectFallback(after).None?
    ensures AllBlocked(after)
  {
    LearnedSame(e, NoneUsable, results, now);
    LearningKeepsDirect(e, NoneUsable, results, now);
    forall i | 0 <= i < |after| && after[i].kind.Probeable() ensures after[i].viability.Blocked? {
      LosersAreBlocked(e, results, now, i);
    }
    NoLastResort(after);
  }

  lemma NoLastResort(profiles: seq<Profile>)
    requires NoDirectWorking(profiles) && DirectFallback(profiles).None?
    requires forall i :: 0 <= i < |profiles| && profiles[i].kind.Probeable() ==> profiles[i].viability.Blocked?
    ensures AllBlocked(profiles)
  {
    var untried := Filter(profiles, LastResortTest());
    forall p | p in profiles ensures p.viability.Blocked? {
      var i :| 0 <= i < |profiles| && profiles[i] == p;
      assert p !in untried;
    }
  }

  lemma CheckReportIsTrue(e: Engine, check: LiveCheck, now: Time)
    requires Inv(e)
    ensures ReportIsTrue(OnCheck(e, check, now))
  {
    if e.phase.Connected? {
      var (watch, detection) := Checked(e.watch, check);
      var f := e.(watch := watch);
      if detection.IsBlocked? {
        if Diagnose(f, false).Some? {
          DiagnosisIsTrue(f, false, true);
        } else {
          BlameReportIsTrue(f, e.phase.profile, e.phase.endpoint, detection.failures, now);
        }
      }
    }
  }

  lemma EmptyPlanMeansAllBlocked(profiles: seq<Profile>, blocked: ProfileId)
    requires UniqueProfiles(profiles) && !Viable(profiles, blocked) && PlanReprobe(profiles, blocked) == []
    ensures AllBlocked(profiles)
  {
    forall p | p in profiles ensures p.viability.Blocked? {
      var i :| 0 <= i < |profiles| && profiles[i] == p;
      PlaceUnique(profiles, i);
      PlanIsTheUnblocked(profiles, blocked);
      assert p.id !in PlanReprobe(profiles, blocked);
    }
  }

  lemma RetryReportIsTrue(e: Engine, blocked: ProfileId, against: EndpointId)
    requires UniqueProfiles(e.profiles) && !Viable(e.profiles, blocked)
    ensures ReportIsTrue(Retry(e, PlanReprobe(e.profiles, blocked), against))
  {
    var plan := PlanReprobe(e.profiles, blocked);
    if plan == [] {
      EmptyPlanMeansAllBlocked(e.profiles, blocked);
    } else {
      RetrySaysNothing(e, plan, against);
    }
  }

  lemma RetrySaysNothing(e: Engine, candidates: seq<ProfileId>, against: EndpointId)
    requires candidates != []
    ensures Emit(GaveUp(AllProfilesBlocked)) !in Retry(e, candidates, against).1
  {
  }

  lemma BlameReportIsTrue(e: Engine, profile: ProfileId, against: EndpointId, failures: nat, now: Time)
    requires UniqueProfiles(e.profiles) && PlaceOf(e.profiles, profile).Some?
    ensures ReportIsTrue(Blame(e, profile, against, failures, now))
  {
    var blocked := Blocked(now, LiveChecksFailed(failures));
    var marked := Marked(e.profiles, profile, blocked);
    MarkedSame(e.profiles, profile, blocked);
    SamePlaces(marked, e.profiles, profile);
    var f := e.(profiles := marked, replacing := Some(profile));
    RetryReportIsTrue(f, profile, against);
    RetryKeepsProfiles(f, PlanReprobe(marked, profile), against);
    var said := BlockedEvent(e.profiles, profile, LiveChecksFailed(failures)) + [StopTunnel];
    assert Emit(GaveUp(AllProfilesBlocked)) !in said;
  }

  lemma FailSaysItsCause(e: Engine, cause: FailureCause, stop: bool)
    ensures Fail(e, cause, stop).0.profiles == e.profiles
    ensures Emit(GaveUp(AllProfilesBlocked)) in Fail(e, cause, stop).1 <==> cause == AllProfilesBlocked
  {
  }

  lemma TunnelMoveSaysNothingOfProfiles(e: Engine, profile: ProfileId, active: EndpointId)
    ensures var moved := RelocateTunnel(e, profile, active);
            moved.Some? ==> Emit(GaveUp(AllProfilesBlocked)) !in moved.value.1
  {
    FailSaysItsCause(e, NoEndpointReachable, true);
  }

  lemma RaceMoveSaysNothingOfProfiles(e: Engine, active: EndpointId)
    ensures var moved := RelocateRace(e, active);
            moved.Some? ==> Emit(GaveUp(AllProfilesBlocked)) !in moved.value.1
  {
    FailSaysItsCause(e, NoEndpointReachable, false);
  }

  lemma EndpointProbeSaysNothingOfProfiles(e: Engine, input: Input, now: Time)
    requires input.EndpointProbe?
    ensures Emit(GaveUp(AllProfilesBlocked)) !in OnEndpointProbe(e, input.probed, input.outcome, now).1
  {
    var at := FindEndpoint(e.endpoints, input.probed);
    if at.Some? {
      var known := e.endpoints[at.value];
      var t := Health.Probed(known.health, input.outcome, now, Health.DEFAULT_UNREACHABLE_AFTER);
      var after := e.(endpoints := e.endpoints[at.value := known.(health := t.next)]);
      if e.phase.Tunnelling() {
        TunnelMoveSaysNothingOfProfiles(after, e.phase.profile, input.probed);
      } else {
        RaceMoveSaysNothingOfProfiles(after, input.probed);
      }
    }
  }

  lemma StepReportIsTrue(e: Engine, input: Input, now: Time)
    requires Inv(e) && CanStep(e) && Tracked(e) && Consistent(e, input) && !input.StartFailed?
    ensures ReportIsTrue(Stepped(e, input, now))
  {
    match input {
      case Connect(requested) => ConnectReportIsTrue(e, requested);
      case RaceFinished(decision, results) => RaceReportIsTrue(e, decision, results, now);
      case Check(check) => CheckReportIsTrue(e, check, now);
      case EndpointProbe(_, _) => EndpointProbeSaysNothingOfProfiles(e, input, now);
      case _ =>
    }
  }

  lemma StartingIsNotAllBlocked(e: Engine)
    requires Inv(e) && e.phase.Starting?
    ensures !AllBlocked(e.profiles)
  {
    assert Viable(e.profiles, e.phase.profile);
  }

  /** On every run with consistent race results, "every profile is blocked" is said falsely exactly when the
      daemon itself gives that as the cause of a failed start: the engine passes that cause on unexamined,
      though the profile being started is not blocked. In every other case every profile is in fact marked
      blocked. */
  lemma AllProfilesBlockedIsTrue(r: Run, k: nat)
    requires r.Valid() && k < |r.inputs|
    requires forall j :: 0 <= j <= k ==> Consistent(r.engines[j], r.inputs[j].input)
    ensures Emit(GaveUp(AllProfilesBlocked)) in r.actions[k] && !AllBlocked(r.engines[k + 1].profiles) <==>
              r.inputs[k].input == StartFailed(AllProfilesBlocked) && r.engines[k].phase.Starting?
  {
    var e, input, now := r.engines[k], r.inputs[k].input, r.inputs[k].now;
    InvAlways(r, k);
    TrackedAlways(r, k);
    assert r.Follows(k);
    if input.StartFailed? {
      FailSaysItsCause(e, input.cause, true);
      if e.phase.Starting? {
        StartingIsNotAllBlocked(e);
      }
    } else {
      StepReportIsTrue(e, input, now);
    }
  }
}
