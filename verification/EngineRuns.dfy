/** Whole runs of the engine, under any inputs in any order. */
module EngineRuns {
  import opened Common
  import opened ProbeRacing
  import opened Reprobing
  import opened FailureCauses
  import opened Endpoints
  import opened EngineSpec
  import opened EngineInvariant
  import Health

  datatype Timed = Timed(now: Time, input: Input)

  datatype Run = Run(inputs: seq<Timed>, engines: seq<Engine>, actions: seq<seq<Action>>) {
    predicate Shaped() { |actions| == |inputs| && |engines| == |inputs| + 1 }

    predicate Follows(k: nat)
      requires Shaped() && k < |inputs|
    {
      CanStep(engines[k]) && Stepped(engines[k], inputs[k].input, inputs[k].now) == (engines[k + 1], actions[k])
    }

    /** From a new engine with distinct profiles and endpoints. */
    ghost predicate Valid() {
      && Shaped()
      && engines[0] == NewEngine(engines[0].profiles, engines[0].endpoints)
      && UniqueProfiles(engines[0].profiles) && UniqueEndpoints(engines[0].endpoints)
      && (forall k :: 0 <= k < |inputs| ==> Follows(k))
    }
  }

  /** A step of a run is right. */
  lemma RunStep(r: Run, k: nat)
    requires r.Valid() && k < |r.inputs| && Inv(r.engines[k])
    ensures Right(Before(r.engines[k], r.inputs[k].input), (r.engines[k + 1], r.actions[k]))
  {
    StepIsRight(r.engines[k], r.inputs[k].input, r.inputs[k].now);
    assert r.Follows(k);
  }

  lemma {:induction false} InvAlways(r: Run, k: nat)
    requires r.Valid() && k <= |r.inputs|
    ensures Inv(r.engines[k])
  {
    if k > 0 {
      InvAlways(r, k - 1);
      RunStep(r, k - 1);
    }
  }

  /** Every sequence of inputs has its run: the engine never meets a race without an endpoint. */
  lemma {:induction false} RunExists(profiles: seq<Profile>, endpoints: seq<Endpoint>, inputs: seq<Timed>)
    returns (r: Run)
    requires UniqueProfiles(profiles) && UniqueEndpoints(endpoints)
    ensures r.Valid() && r.inputs == inputs && r.engines[0] == NewEngine(profiles, endpoints)
  {
    if inputs == [] {
      r := Run([], [NewEngine(profiles, endpoints)], []);
    } else {
      var n := |inputs| - 1;
      var before := RunExists(profiles, endpoints, inputs[..n]);
      InvAlways(before, n);
      StepIsRight(before.engines[n], inputs[n].input, inputs[n].now);
      var step := Stepped(before.engines[n], inputs[n].input, inputs[n].now);
      r := Run(inputs, before.engines + [step.0], before.actions + [step.1]);
      forall k | 0 <= k < |inputs| ensures r.Follows(k) {
        if k < n { assert before.Follows(k); }
      }
    }
  }

  // ------------------------------------------------------------------ action discipline

  /** What is running after the first `k` inputs, replaying every action asked for; nothing if one of them
      made no sense. */
  function WorldAt(r: Run, k: nat): Option<World>
    requires r.Shaped() && k <= |r.inputs|
  {
    if k == 0 then Some(Quiet)
    else
      var w := WorldAt(r, k - 1);
      var over := r.inputs[k - 1].input.RaceFinished? && AcceptsRace(r.engines[k - 1], r.inputs[k - 1].input.decision);
      Replay(if w == Some(RaceOn) && over then Some(Quiet) else w, r.actions[k - 1])
  }

  /** On every run, what is running is exactly what the phase says: a tunnel in `Starting` and `Connected`, a
      race in `Probing` and `Recovering`, nothing otherwise. So a race or a tunnel is only started when
      nothing runs, and what is replaced was stopped or cancelled first. */
  lemma {:induction false} ActionsAreDisciplined(r: Run, k: nat)
    requires r.Valid() && k <= |r.inputs|
    ensures WorldAt(r, k) == Some(WorldOf(r.engines[k].phase))
  {
    if k > 0 {
      ActionsAreDisciplined(r, k - 1);
      InvAlways(r, k - 1);
      RunStep(r, k - 1);
    }
  }

  /** Everything started is usable when it is started: a tunnel goes to a usable endpoint over a profile not
      known to be blocked, and a race runs only profiles that can be raced and are not known to be blocked. */
  lemma OnlyUsableThingsAreStarted(r: Run, k: nat, a: Action)
    requires r.Valid() && k < |r.inputs| && a in r.actions[k]
    ensures a.StartTunnel? ==>
              && Viable(r.engines[k + 1].profiles, a.profile) && IsUsable(r.engines[k + 1].endpoints, a.against)
              && r.engines[k + 1].phase == Starting(a.profile, a.against)
    ensures a.StartRace? ==>
              && a.profiles != [] && AllRaceable(r.engines[k + 1].profiles, a.profiles)
              && IsUsable(r.engines[k + 1].endpoints, a.against) && r.engines[k + 1].raced == a.profiles
  {
    InvAlways(r, k);
    InvAlways(r, k + 1);
    RunStep(r, k);
    assert StartsAsStated(r.engines[k + 1], a);
  }

  /** While an attempt is on, its endpoint is the one in use and is usable, so a live check never finds a
      reason to move to another endpoint: the probe that makes it unusable has already moved it. */
  lemma EndpointInUseIsUsable(r: Run, k: nat)
    requires r.Valid() && k <= |r.inputs|
    requires r.engines[k].phase.Racing() || r.engines[k].phase.Tunnelling()
    ensures var e := r.engines[k];
            && e.endpoint.Some? && IsUsable(e.endpoints, e.endpoint.value)
            && PlanMigration(e.endpoints, e.endpoint.value) == Remain
            && (e.phase.Tunnelling() ==> e.phase.endpoint == e.endpoint.value)
  {
    InvAlways(r, k);
  }

  // ------------------------------------------------------------------ detecting a block

  /** Live checks failed in a row since the tunnel came up or one last passed. */
  function ChecksFailed(r: Run, k: nat): nat
    requires r.Shaped() && k <= |r.inputs|
  {
    if k == 0 || !r.engines[k].phase.Connected? || !r.engines[k - 1].phase.Connected? then 0
    else if !r.inputs[k - 1].input.Check? then ChecksFailed(r, k - 1)
    else if r.inputs[k - 1].input.check.Passed? then 0
    else ChecksFailed(r, k - 1) + 1
  }

  lemma BlameLeavesConnected(e: Engine, profile: ProfileId, against: EndpointId, failures: nat, now: Time)
    ensures !Blame(e, profile, against, failures, now).0.phase.Connected?
  {
  }

  lemma CheckWatch(e: Engine, check: LiveCheck, now: Time)
    requires Inv(e) && e.phase.Connected?
    ensures var next := OnCheck(e, check, now).0;
            && (next.phase.Connected? ==> next.watch == Checked(e.watch, check).0)
            && (next.phase.Connected? <==> check.Passed? || e.watch.failures + 1 < BLOCK_AFTER)
  {
    var f := e.(watch := Checked(e.watch, check).0);
    BlameLeavesConnected(f, e.phase.profile, e.phase.endpoint, Increment(e.watch.failures), now);
  }

  lemma ConnectLeavesConnected(e: Engine, requested: Option<ProfileId>)
    ensures var next := OnConnect(e, requested).0; next == e || !next.phase.Connected?
  {
    if AcceptsConnect(e) {
      AnywhereIsNotConnected(Forgotten(e, requested), requested);
    }
  }

  lemma AnywhereIsNotConnected(e: Engine, requested: Option<ProfileId>)
    ensures !ConnectAnywhere(e, requested).0.phase.Connected?
  {
    var ranked := Rank(e.endpoints);
    if ranked != [] {
      ThroughIsNotConnected(e.(endpoint := Some(ranked[0])), requested, ranked[0]);
    }
  }

  lemma ThroughIsNotConnected(e: Engine, requested: Option<ProfileId>, against: EndpointId)
    ensures !ConnectThrough(e, requested, against).0.phase.Connected?
  {
  }

  lemma ProbeKeepsOrLeaves(e: Engine, id: EndpointId, outcome: Health.ProbeOutcome, now: Time)
    ensures var next := OnEndpointProbe(e, id, outcome, now).0;
            (next.phase == e.phase && next.watch == e.watch) || !next.phase.Connected?
  {
  }

  /** How one step treats the watch and the connection. */
  lemma WatchStep(e: Engine, input: Input, now: Time)
    requires Inv(e)
    ensures CanStep(e)
    ensures var next := Stepped(e, input, now).0;
            && (next.phase.Connected? && !e.phase.Connected? ==> next.watch == FRESH_WATCH)
            && (next.phase.Connected? && e.phase.Connected? ==>
                  next.watch == if input.Check? then Checked(e.watch, input.check).0 else e.watch)
            && (e.phase.Connected? && input.Check? ==>
                  (next.phase.Connected? <==> input.check.Passed? || e.watch.failures + 1 < BLOCK_AFTER))
  {
    match input {
      case Check(check) => if e.phase.Connected? { CheckWatch(e, check, now); }
      case Connect(requested) => ConnectLeavesConnected(e, requested);
      case RaceFinished(decision, results) => RaceLeavesPhase(e, decision, results, now);
      case EndpointProbe(id, outcome) => ProbeKeepsOrLeaves(e, id, outcome, now);
      case _ =>
    }
  }

  lemma RaceLeavesPhase(e: Engine, decision: RaceDecision, results: seq<(ProfileId, ProfileProbe)>, now: Time)
    requires Inv(e)
    ensures var next := OnRaceFinished(e, decision, results, now).0;
            next == e || (!next.phase.Connected? && !next.phase.Racing())
  {
  }

  /** While connected, the detector holds exactly the failures in a row since the tunnel came up, always
      fewer than three and never reported. */
  lemma {:induction false} WatchIsExact(r: Run, k: nat)
    requires r.Valid() && k <= |r.inputs| && r.engines[k].phase.Connected?
    ensures r.engines[k].watch == Watch(ChecksFailed(r, k), false) && ChecksFailed(r, k) < BLOCK_AFTER
  {
    InvAlways(r, k);
    if k > 0 {
      InvAlways(r, k - 1);
      assert r.Follows(k - 1);
      WatchStep(r.engines[k - 1], r.inputs[k - 1].input, r.inputs[k - 1].now);
      if r.engines[k - 1].phase.Connected? {
        WatchIsExact(r, k - 1);
      }
    }
  }

  /** The step at which the carrying profile is found blocked. */
  predicate Blames(e: Engine, input: Input) {
    && e.phase.Connected? && input.Check?
    && Checked(e.watch, input.check).1.IsBlocked?
    && e.environment.Clean()
  }

  lemma CleanMeansNothingElseIsWrong(e: Engine)
    requires Inv(e) && e.phase.Connected?
    ensures Diagnose(e, false).None? <==> e.environment.Clean()
  {
    var s := SituationOf(e, false);
    var at := PlaceOf(e.profiles, e.phase.profile).value;
    assert e.profiles[at] in e.profiles;
    if e.endpoints != [] {
      assert s.endpointReach[0] == NotKnown;
      assert s.endpointReach[0] in s.endpointReach;
    }
  }

  /** A live check ends the connection exactly when it is the third in a row to fail; and the profile is then
      blamed exactly when nothing else explains it: privilege, a path, no portal, a usable configuration.
      Otherwise the cause found is reported and no profile is marked. */
  lemma ThirdFailureExactly(r: Run, k: nat)
    requires r.Valid() && k < |r.inputs| && r.engines[k].phase.Connected? && r.inputs[k].input.Check?
    ensures !r.engines[k + 1].phase.Connected? <==> r.inputs[k].input.check.Failed? && ChecksFailed(r, k) == 2
    ensures Blames(r.engines[k], r.inputs[k].input) <==>
              r.inputs[k].input.check.Failed? && ChecksFailed(r, k) == 2 && r.engines[k].environment.Clean()
    ensures Blames(r.engines[k], r.inputs[k].input) ==>
              && Emit(ProfileBlocked(r.engines[k].phase.profile, LiveChecksFailed(3))) in r.actions[k]
              && !Viable(r.engines[k + 1].profiles, r.engines[k].phase.profile)
    ensures !Blames(r.engines[k], r.inputs[k].input) ==> r.engines[k + 1].profiles == r.engines[k].profiles
  {
    var e, input, now := r.engines[k], r.inputs[k].input, r.inputs[k].now;
    InvAlways(r, k);
    WatchIsExact(r, k);
    assert r.Follows(k);
    WatchStep(e, input, now);
    var f := e.(watch := Checked(e.watch, input.check).0);
    if Checked(e.watch, input.check).1.IsBlocked? {
      CleanMeansNothingElseIsWrong(e);
      assert SituationOf(f, false) == SituationOf(e, false);
      if e.environment.Clean() {
        BlameMarks(f, e.phase.profile, e.phase.endpoint, 3, now);
      }
    }
  }

  lemma BlameMarks(e: Engine, profile: ProfileId, against: EndpointId, failures: nat, now: Time)
    requires UniqueProfiles(e.profiles) && PlaceOf(e.profiles, profile).Some?
    ensures var (next, actions) := Blame(e, profile, against, failures, now);
            && next.profiles == Marked(e.profiles, profile, Blocked(now, LiveChecksFailed(failures)))
            && !Viable(next.profiles, profile)
            && Emit(ProfileBlocked(profile, LiveChecksFailed(failures))) in actions
  {
    MarkedSame(e.profiles, profile, Blocked(now, LiveChecksFailed(failures)));
    SamePlaces(Marked(e.profiles, profile, Blocked(now, LiveChecksFailed(failures))), e.profiles, profile);
    var said := BlockedEvent(e.profiles, profile, LiveChecksFailed(failures));
    assert said[0] == Emit(ProfileBlocked(profile, LiveChecksFailed(failures)));
    var actions := Blame(e, profile, against, failures, now).1;
    assert actions[0] == said[0];
  }
}
