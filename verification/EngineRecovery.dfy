/** Why recovery ends, and what a profile that the user named is promised. */
module EngineRecovery {
  import opened Common
  import opened ProbeRacing
  import opened Reprobing
  import opened FailureCauses
  import opened Endpoints
  import opened EngineSpec
  import opened EngineInvariant
  import opened EngineRuns

  // ------------------------------------------------------------------ recovery ends

  /** An accepted race result names only profiles of that race. */
  predicate Honest(e: Engine, input: Input) {
    input.RaceFinished? && AcceptsRace(e, input.decision) ==>
      forall i :: 0 <= i < |input.results| ==> input.results[i].0 in e.raced
  }

  predicate StartsAttempt(e: Engine, input: Input) { input.Connect? && AcceptsConnect(e) }

  /** Nothing that was blocked in `before` is unblocked in `after`. */
  predicate NoneUnblocked(before: seq<Profile>, after: seq<Profile>) {
    SameProfiles(after, before) && forall i :: 0 <= i < |before| ==> NotBlocked(after[i]) ==> NotBlocked(before[i])
  }

  lemma {:induction false} NotedChangesOnlyReported(profiles: seq<Profile>, results: seq<(ProfileId, ProfileProbe)>,
                                                    now: Time, i: nat)
    requires i < |profiles|
    ensures |Noted(profiles, results, now).0| == |profiles|
    ensures Noted(profiles, results, now).0[i] == profiles[i] || Reports(results, profiles[i].id)
  {
    if results != [] {
      var n := |results| - 1;
      NotedChangesOnlyReported(profiles, results[..n], now, i);
      NotedSame(profiles, results[..n], now);
      var before := Noted(profiles, results[..n], now).0;
      MarkedSame(before, results[n].0, ViabilityFrom(results[n].1, now));
      if Reports(results[..n], profiles[i].id) {
        var j :| 0 <= j < n && results[..n][j].0 == profiles[i].id;
        assert results[j].0 == profiles[i].id;
      }
      if PlaceOf(before, results[n].0) == Some(i) {
        assert results[n].0 == profiles[i].id;
      }
    }
  }

  lemma {:induction false} SilencedOnlyBlocks(profiles: seq<Profile>, ids: seq<ProfileId>, now: Time)
    ensures NoneUnblocked(profiles, Silenced(profiles, ids, now).0)
  {
    if ids != [] {
      SilencedOnlyBlocks(profiles, ids[..|ids| - 1], now);
      MarkedSame(Silenced(profiles, ids[..|ids| - 1], now).0, ids[|ids| - 1], Blocked(now, NoResponse));
    }
  }

  lemma RacedIsNotBlocked(e: Engine, i: nat)
    requires Inv(e) && e.phase.Racing() && i < |e.profiles| && e.profiles[i].id in e.raced
    ensures NotBlocked(e.profiles[i]) && e.profiles[i].kind.Probeable()
  {
    assert Raceable(e.profiles, e.profiles[i].id);
    PlaceUnique(e.profiles, i);
  }

  lemma LearningUnblocksNothing(e: Engine, decision: RaceDecision, results: seq<(ProfileId, ProfileProbe)>, now: Time)
    requires Inv(e) && AcceptsRace(e, decision) && Honest(e, RaceFinished(decision, results))
    ensures NoneUnblocked(e.profiles, Learned(e, decision, results, now).0.profiles)
  {
    var noted := Noted(e.profiles, results, now).0;
    var silent := Filter(e.raced, SilentTest(results));
    var after := Learned(e, decision, results, now).0.profiles;
    LearnedSame(e, decision, results, now);
    NotedSame(e.profiles, results, now);
    SilencedOnlyBlocks(noted, silent, now);
    var silenced := if decision == NoneUsable then Silenced(noted, silent, now).0 else noted;
    forall i | 0 <= i < |e.profiles| && NotBlocked(after[i]) ensures NotBlocked(e.profiles[i]) {
      NotedChangesOnlyReported(e.profiles, results, now, i);
      if e.profiles[i].id in e.raced {
        RacedIsNotBlocked(e, i);
      } else if decision.Selected? {
        MarkedSame(silenced, decision.profile, Working(now));
      }
    }
  }

  lemma NobodyWonKeepsProfiles(e: Engine, recovering: bool, against: EndpointId)
    ensures NobodyWon(e, recovering, against).0.profiles == e.profiles
  {
  }

  lemma RetryKeepsProfiles(e: Engine, candidates: seq<ProfileId>, against: EndpointId)
    ensures Retry(e, candidates, against).0.profiles == e.profiles
  {
  }

  lemma BlameUnblocksNothing(e: Engine, profile: ProfileId, against: EndpointId, failures: nat, now: Time)
    ensures NoneUnblocked(e.profiles, Blame(e, profile, against, failures, now).0.profiles)
  {
    MarkedSame(e.profiles, profile, Blocked(now, LiveChecksFailed(failures)));
    var marked := Marked(e.profiles, profile, Blocked(now, LiveChecksFailed(failures)));
    RetryKeepsProfiles(e.(profiles := marked, replacing := Some(profile)), PlanReprobe(marked, profile), against);
  }

  lemma CheckUnblocksNothing(e: Engine, check: LiveCheck, now: Time)
    requires Inv(e)
    ensures NoneUnblocked(e.profiles, OnCheck(e, check, now).0.profiles)
  {
    if e.phase.Connected? {
      var (watch, detection) := Checked(e.watch, check);
      if detection.IsBlocked? {
        BlameUnblocksNothing(e.(watch := watch), e.phase.profile, e.phase.endpoint, detection.failures, now);
      }
    }
  }

  lemma TunnelUpUnblocksNothing(e: Engine, now: Time)
    requires Inv(e)
    ensures NoneUnblocked(e.profiles, OnTunnelUp(e, now).0.profiles)
  {
    if e.phase.Starting? {
      MarkedSame(e.profiles, e.phase.profile, Working(now));
    }
  }

  /** Within an attempt nothing blocked becomes unblocked. */
  lemma StepUnblocksNothing(e: Engine, input: Input, now: Time)
    requires Inv(e) && CanStep(e) && Honest(e, input) && !StartsAttempt(e, input)
    ensures NoneUnblocked(e.profiles, Stepped(e, input, now).0.profiles)
  {
    match input {
      case RaceFinished(decision, results) =>
        if AcceptsRace(e, decision) {
          LearningUnblocksNothing(e, decision, results, now);
          NobodyWonKeepsProfiles(Learned(e, decision, results, now).0, e.phase == Recovering, e.endpoint.value);
        }
      case Check(check) => CheckUnblocksNothing(e, check, now);
      case TunnelUp => TunnelUpUnblocksNothing(e, now);
      case _ =>
    }
  }

  /** The inputs from `a` up to `k` all belong to one attempt. */
  ghost predicate OneAttempt(r: Run, a: nat, k: nat)
    requires r.Shaped() && k <= |r.inputs|
  {
    forall j :: a <= j < k ==>
        !StartsAttempt(r.engines[j], r.inputs[j].input) && Honest(r.engines[j], r.inputs[j].input)
  }

  /** The places of the profiles not known to be blocked. */
  function Unblocked(profiles: seq<Profile>): set<nat> { set i | 0 <= i < |profiles| && NotBlocked(profiles[i]) }

  function Blocks(r: Run, a: nat, k: nat): nat
    requires r.Shaped() && a <= k <= |r.inputs|
  {
    if k == a then 0 else Blocks(r, a, k - 1) + if Blames(r.engines[k - 1], r.inputs[k - 1].input) then 1 else 0
  }

  lemma AttemptStep(r: Run, k: nat)
    requires r.Valid() && k < |r.inputs|
    requires !StartsAttempt(r.engines[k], r.inputs[k].input) && Honest(r.engines[k], r.inputs[k].input)
    ensures NoneUnblocked(r.engines[k].profiles, r.engines[k + 1].profiles)
    ensures Unblocked(r.engines[k + 1].profiles) <= Unblocked(r.engines[k].profiles)
    ensures Blames(r.engines[k], r.inputs[k].input) ==>
            Unblocked(r.engines[k + 1].profiles) < Unblocked(r.engines[k].profiles)
  {
    InvAlways(r, k);
    assert r.Follows(k);
    StepUnblocksNothing(r.engines[k], r.inputs[k].input, r.inputs[k].now);
    if Blames(r.engines[k], r.inputs[k].input) {
      ThirdFailureExactly(r, k);
      var id := r.engines[k].phase.profile;
      var at := PlaceOf(r.engines[k].profiles, id).value;
      SamePlaces(r.engines[k + 1].profiles, r.engines[k].profiles, id);
      assert at in Unblocked(r.engines[k].profiles) && at !in Unblocked(r.engines[k + 1].profiles);
    }
  }

  lemma ProperSubsetIsSmaller(a: set<nat>, b: set<nat>)
    requires a <= b
    ensures |a| <= |b| && (a < b ==> |a| < |b|)
  {
    assert b == a + (b - a);
  }

  lemma {:induction false} UnblockedFits(profiles: seq<Profile>)
    ensures |Unblocked(profiles)| <= |profiles|
  {
    if profiles != [] {
      var n := |profiles| - 1;
      UnblockedFits(profiles[..n]);
      assert Unblocked(profiles) == Unblocked(profiles[..n]) + if NotBlocked(profiles[n]) then {n} else {};
    }
  }

  /** Within one attempt the profiles not known to be blocked only become fewer, and each block found by live
      checks uses one up: recovery happens at most as often as there are profiles. */
  lemma {:induction false} RecoveryTerminates(r: Run, a: nat, k: nat)
    requires r.Valid() && a <= k <= |r.inputs| && OneAttempt(r, a, k)
    ensures Unblocked(r.engines[k].profiles) <= Unblocked(r.engines[a].profiles)
    ensures Blocks(r, a, k) + |Unblocked(r.engines[k].profiles)| <= |Unblocked(r.engines[a].profiles)|
    ensures |Unblocked(r.engines[a].profiles)| <= |r.engines[a].profiles|
  {
    UnblockedFits(r.engines[a].profiles);
    if k > a {
      RecoveryTerminates(r, a, k - 1);
      AttemptStep(r, k - 1);
      ProperSubsetIsSmaller(Unblocked(r.engines[k].profiles), Unblocked(r.engines[k - 1].profiles));
    }
  }

  lemma {:induction false} NoneUnblockedThrough(r: Run, a: nat, k: nat)
    requires r.Valid() && a <= k <= |r.inputs| && OneAttempt(r, a, k)
    ensures NoneUnblocked(r.engines[a].profiles, r.engines[k].profiles)
  {
    if k > a {
      NoneUnblockedThrough(r, a, k - 1);
      AttemptStep(r, k - 1);
    }
  }

  /** The action starts something over this profile. */
  predicate Starts(action: Action, id: ProfileId) {
    (action.StartTunnel? && action.profile == id) || (action.StartRace? && id in action.profiles)
  }

  /** A profile found blocked is not started again, in a tunnel or in a race, before the next connect. */
  lemma BlockedIsNotRetried(r: Run, a: nat, k: nat, id: ProfileId)
    requires r.Valid() && a <= k < |r.inputs| && OneAttempt(r, a, k + 1)
    requires !Viable(r.engines[a].profiles, id)
    ensures forall action :: action in r.actions[k] ==> !Starts(action, id)
  {
    NoneUnblockedThrough(r, a, k + 1);
    SamePlaces(r.engines[k + 1].profiles, r.engines[a].profiles, id);
    forall action | action in r.actions[k] ensures !Starts(action, id) {
      OnlyUsableThingsAreStarted(r, k, action);
    }
  }

  // ------------------------------------------------------------------ a named profile

  /** The attempt is about `p` alone. */
  predicate About(e: Engine, p: ProfileId) {
    && e.requested == Some(p) && !e.phase.Recovering?
    && (e.phase.Probing? ==> e.raced == [p])
    && (e.phase.Tunnelling() ==> e.phase.profile == p)
  }

  lemma ConnectThroughIsAbout(e: Engine, p: ProfileId, against: EndpointId)
    requires e.requested == Some(p)
    ensures About(ConnectThrough(e, Some(p), against).0, p)
  {
  }

  lemma ConnectAnywhereIsAbout(e: Engine, p: ProfileId)
    requires e.requested == Some(p)
    ensures About(ConnectAnywhere(e, Some(p)).0, p)
  {
    var ranked := Rank(e.endpoints);
    if ranked != [] {
      ConnectThroughIsAbout(e.(endpoint := Some(ranked[0])), p, ranked[0]);
    }
  }

  lemma ConnectIsAbout(e: Engine, p: ProfileId)
    requires AcceptsConnect(e)
    ensures About(OnConnect(e, Some(p)).0, p)
  {
    var f := Forgotten(e, Some(p));
    ConnectUnlessIsAbout(f, Diagnose(f, false), p);
  }

  lemma ConnectUnlessIsAbout(e: Engine, cause: Option<FailureCause>, p: ProfileId)
    requires e.requested == Some(p)
    ensures About(ConnectUnless(e, cause, Some(p)).0, p)
  {
    ConnectAnywhereIsAbout(e, p);
  }

  lemma CheckStaysAbout(e: Engine, check: LiveCheck, now: Time, p: ProfileId)
    requires Inv(e) && About(e, p) && !Blames(e, Check(check))
    ensures About(OnCheck(e, check, now).0, p)
  {
    if e.phase.Connected? {
      CleanMeansNothingElseIsWrong(e);
      var f := e.(watch := Checked(e.watch, check).0);
      assert SituationOf(f, false) == SituationOf(e, false);
    }
  }

  lemma StepStaysAbout(e: Engine, input: Input, now: Time, p: ProfileId)
    requires Inv(e) && CanStep(e) && About(e, p) && !StartsAttempt(e, input) && !Blames(e, input)
    ensures About(Stepped(e, input, now).0, p)
  {
    match input {
      case RaceFinished(decision, results) => RaceStaysAbout(e, decision, results, now, p);
      case Check(check) => CheckStaysAbout(e, check, now, p);
      case EndpointProbe(_, _) => ProbeStaysAbout(e, input, now, p);
      case _ =>
    }
  }

  lemma ProbeStaysAbout(e: Engine, input: Input, now: Time, p: ProfileId)
    requires About(e, p) && input.EndpointProbe?
    ensures About(OnEndpointProbe(e, input.probed, input.outcome, now).0, p)
  {
  }

  lemma RaceStaysAbout(e: Engine, decision: RaceDecision, results: seq<(ProfileId, ProfileProbe)>, now: Time,
                       p: ProfileId)
    requires Inv(e) && About(e, p)
    ensures About(OnRaceFinished(e, decision, results, now).0, p)
  {
    if AcceptsRace(e, decision) {
      LearnedSame(e, decision, results, now);
    }
  }

  lemma {:induction false} AboutThrough(r: Run, a: nat, k: nat, p: ProfileId)
    requires r.Valid() && a < k <= |r.inputs|
    requires r.inputs[a].input == Connect(Some(p)) && AcceptsConnect(r.engines[a])
    requires forall j :: a < j < k ==>
            !StartsAttempt(r.engines[j], r.inputs[j].input) && !Blames(r.engines[j], r.inputs[j].input)
    ensures About(r.engines[k], p)
  {
    assert r.Follows(k - 1);
    if k == a + 1 {
      ConnectIsAbout(r.engines[a], p);
    } else {
      AboutThrough(r, a, k - 1, p);
      InvAlways(r, k - 1);
      StepStaysAbout(r.engines[k - 1], r.inputs[k - 1].input, r.inputs[k - 1].now, p);
    }
  }

  /** A profile the user named is tried alone: until it has been up and found blocked, nothing else is raced
      or brought up in its place. */
  lemma NamedProfileIsTriedAlone(r: Run, a: nat, k: nat, p: ProfileId, id: ProfileId)
    requires r.Valid() && a <= k < |r.inputs|
    requires r.inputs[a].input == Connect(Some(p)) && AcceptsConnect(r.engines[a])
    requires forall j :: a < j <= k ==>
            !StartsAttempt(r.engines[j], r.inputs[j].input) && !Blames(r.engines[j], r.inputs[j].input)
    ensures forall action :: action in r.actions[k] && Starts(action, id) ==> id == p
  {
    AboutThrough(r, a, k + 1, p);
    forall action | action in r.actions[k] && Starts(action, id) ensures id == p {
      OnlyUsableThingsAreStarted(r, k, action);
      InvAlways(r, k + 1);
      StartedIsCurrent(r, k, action);
    }
  }

  lemma StartedIsCurrent(r: Run, k: nat, action: Action)
    requires r.Valid() && k < |r.inputs| && action in r.actions[k]
    ensures StartsAsStated(r.engines[k + 1], action)
  {
    InvAlways(r, k);
    RunStep(r, k);
  }
}
