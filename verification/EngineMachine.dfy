/** The engine as the program runs it: handlers that update its fields in place and collect actions. */
module EngineMachine {
  import opened Common
  import opened DegradationReporting
  import opened ProbeRacing
  import opened Reprobing
  import opened FailureCauses
  import opened Endpoints
  import opened EngineSpec
  import opened EngineInvariant
  import Health

  class ConnectionEngine {
    var profiles: seq<Profile>
    var endpoints: seq<Endpoint>
    var phase: Phase
    var environment: Environment
    var reach: seq<Reach>
    const detector: BlockDetector
    var endpoint: Option<EndpointId>
    var raced: seq<ProfileId>
    var replacing: Option<ProfileId>
    var requested: Option<ProfileId>

    function View(): Engine
      reads this, detector
    {
      Engine(profiles, endpoints, phase, environment, reach, detector.Contents(), endpoint, raced, replacing, requested)
    }

    constructor (profiles: seq<Profile>, endpoints: seq<Endpoint>)
      requires UniqueProfiles(profiles) && UniqueEndpoints(endpoints)
      ensures View() == NewEngine(profiles, endpoints) && Inv(View())
      ensures fresh(detector)
    {
      this.profiles, this.endpoints, phase, environment := profiles, endpoints, Idle, DEFAULT_ENVIRONMENT;
      reach, endpoint, raced, replacing, requested := [], None, [], None, None;
      detector := new BlockDetector();
    }

    /** Apply one input. The invariant makes every step possible, and every step keeps it. */
    method Step(input: Input, now: Time) returns (actions: seq<Action>)
      requires Inv(View())
      modifies this, detector
      ensures CanStep(old(View())) && (View(), actions) == Stepped(old(View()), input, now)
      ensures Inv(View())
    {
      StepIsRight(View(), input, now);
      match input {
        case Connect(profile) => actions := Connect(profile);
        case Disconnect => actions := Disconnect();
        case RaceFinished(decision, results) => actions := RaceFinished(decision, results, now);
        case TunnelUp => actions := TunnelUp(now);
        case StartFailed(cause) =>
          actions := [];
          if phase.Starting? {
            actions := Fail(cause, true);
          }
        case Check(check) => actions := LiveCheck(check, now);
        case EndpointProbe(id, outcome) => actions := EndpointProbe(id, outcome, now);
        case SetEnvironment(observed) =>
          environment := observed;
          actions := [];
        case PathChanged(from, to) => actions := PathChanged(from, to);
        case Connectivity(change) =>
          actions := if phase.Connected? then [Emit(QualityChanged(change))] else [];
        case SetReach(observed) =>
          reach := observed;
          actions := [];
      }
    }

    method Fail(cause: FailureCause, stop: bool) returns (actions: seq<Action>)
      modifies this
      ensures (View(), actions) == EngineSpec.Fail(old(View()), cause, stop)
    {
      actions := [];
      if stop {
        actions := actions + [StopTunnel];
      }
      actions := actions + [Emit(GaveUp(cause))];
      assert actions == EngineSpec.Fail(old(View()), cause, stop).1;
      phase := Broken(cause);
      raced := [];
      replacing := None;
    }

    method StartTheRace(ids: seq<ProfileId>, against: EndpointId, next: Phase) returns (actions: seq<Action>)
      modifies this
      ensures (View(), actions) == BeginRace(old(View()), ids, against, next)
    {
      raced := ids;
      phase := next;
      actions := [];
      if phase == Probing {
        actions := actions + [Emit(ProbeStarted)];
      }
      actions := actions + [StartRace(ids, against)];
      assert actions == BeginRace(old(View()), ids, against, next).1;
    }

    method StartTheTunnel(profile: ProfileId, against: EndpointId) returns (actions: seq<Action>)
      modifies this, detector
      ensures (View(), actions) == BringUp(old(View()), profile, against)
    {
      var tier2 := IsTier2(profiles, profile);
      detector.Reset();
      phase := Starting(profile, against);
      actions := [Emit(ProfileSelected(profile))];
      if tier2 {
        actions := actions + [WarnTier2(profile)];
      }
      actions := actions + [StartTunnel(profile, against)];
      assert actions == BringUp(old(View()), profile, against).1;
    }

    method ResetViabilities()
      modifies this`profiles
      ensures profiles == Map(old(profiles), ResetOne())
    {
      var i := 0;
      while i < |profiles|
        invariant i <= |profiles| == |old(profiles)|
        invariant forall j :: 0 <= j < i ==> profiles[j] == ResetOne()(old(profiles)[j])
        invariant forall j :: i <= j < |profiles| ==> profiles[j] == old(profiles)[j]
      {
        profiles := profiles[i := profiles[i].(viability := Untested)];
        i := i + 1;
      }
    }

    method ForgetLastAttempt(wanted: Option<ProfileId>)
      modifies this, detector
      ensures View() == Forgotten(old(View()), wanted)
    {
      ResetViabilities();
      detector.Reset();
      raced := [];
      replacing := None;
      reach := [];
      requested := wanted;
    }

    method Connect(wanted: Option<ProfileId>) returns (actions: seq<Action>)
      modifies this, detector
      ensures (View(), actions) == OnConnect(old(View()), wanted)
    {
      if !(phase.Idle? || phase.Broken?) {
        return [];
      }
      ForgetLastAttempt(wanted);
      actions := Attempt(Diagnose(View(), false), wanted);
    }

    method Attempt(cause: Option<FailureCause>, wanted: Option<ProfileId>) returns (actions: seq<Action>)
      modifies this, detector
      ensures (View(), actions) == ConnectUnless(old(View()), cause, wanted)
    {
      if cause.Some? {
        actions := Fail(cause.value, false);
      } else if wanted.Some? && PlaceOf(profiles, wanted.value).None? {
        actions := Fail(ConfigurationInvalid(NoSuchProfile(wanted.value)), false);
      } else {
        actions := ChooseEndpoint(wanted);
      }
    }

    method ChooseEndpoint(wanted: Option<ProfileId>) returns (actions: seq<Action>)
      modifies this, detector
      ensures (View(), actions) == ConnectAnywhere(old(View()), wanted)
    {
      var ranked := Rank(endpoints);
      if ranked == [] {
        actions := Fail(NoEndpointReachable, false);
      } else {
        endpoint := Some(ranked[0]);
        actions := TryProfiles(wanted, ranked[0]);
      }
    }

    method TryProfiles(wanted: Option<ProfileId>, against: EndpointId) returns (actions: seq<Action>)
      modifies this, detector
      ensures (View(), actions) == ConnectThrough(old(View()), wanted, against)
    {
      if wanted.Some? {
        if !IsProbeable(profiles, wanted.value) {
          actions := StartTheTunnel(wanted.value, against);
        } else {
          actions := StartTheRace([wanted.value], against, Probing);
        }
        return;
      }
      var probeable := ProbeableIds(profiles);
      if probeable != [] {
        actions := StartTheRace(probeable, against, Probing);
        return;
      }
      var direct := DirectFallback(profiles);
      if direct.Some? {
        actions := StartTheTunnel(direct.value, against);
      } else {
        actions := Fail(AllProfilesBlocked, false);
      }
    }

    method Disconnect() returns (actions: seq<Action>)
      modifies this
      ensures (View(), actions) == OnDisconnect(old(View()))
    {
      match phase {
        case Idle => actions := [];
        case Broken(_) => actions := [];
        case Probing => actions := [CancelRace];
        case Recovering => actions := [CancelRace];
        case Starting(_, _) => actions := [StopTunnel];
        case Connected(_, _) => actions := [StopTunnel];
      }
      phase := Idle;
      raced := [];
      replacing := None;
    }

    method Mark(id: ProfileId, viability: Viability)
      modifies this`profiles
      ensures profiles == Marked(old(profiles), id, viability)
    {
      var at := PlaceOf(profiles, id);
      if at.Some? {
        profiles := profiles[at.value := profiles[at.value].(viability := viability)];
      }
    }

    method MarkBlocked(id: ProfileId, now: Time, reason: BlockReason) returns (actions: seq<Action>)
      modifies this`profiles
      ensures profiles == Marked(old(profiles), id, Blocked(now, reason))
      ensures actions == BlockedEvent(old(profiles), id, reason)
    {
      actions := [];
      if PlaceOf(profiles, id).Some? {
        actions := [Emit(ProfileBlocked(id, reason))];
        Mark(id, Blocked(now, reason));
      }
    }

    method NoteResults(results: seq<(ProfileId, ProfileProbe)>, now: Time) returns (actions: seq<Action>)
      modifies this`profiles
      ensures (profiles, actions) == Noted(old(profiles), results, now)
    {
      actions := [];
      for i := 0 to |results|
        invariant (profiles, actions) == Noted(old(profiles), results[..i], now)
      {
        assert results[..i + 1][..i] == results[..i];
        match Judge(results[i].1) {
          case Usable(_) =>
            Mark(results[i].0, Working(now));
            assert actions + [] == actions;
          case NotUsable(why) =>
            var said := MarkBlocked(results[i].0, now, ProbeFailed(why));
            actions := actions + said;
        }
      }
      assert results[..|results|] == results;
    }

    method BlockSilent(ids: seq<ProfileId>, now: Time) returns (actions: seq<Action>)
      modifies this`profiles
      ensures (profiles, actions) == Silenced(old(profiles), ids, now)
    {
      actions := [];
      for i := 0 to |ids|
        invariant (profiles, actions) == Silenced(old(profiles), ids[..i], now)
      {
        assert ids[..i + 1][..i] == ids[..i];
        var said := MarkBlocked(ids[i], now, NoResponse);
        actions := actions + said;
      }
      assert ids[..|ids|] == ids;
    }

    method RecordResults(decision: RaceDecision, results: seq<(ProfileId, ProfileProbe)>, now: Time)
      returns (actions: seq<Action>)
      modifies this`profiles, this`raced
      ensures (View(), actions) == Learned(old(View()), decision, results, now)
    {
      actions := NoteResults(results, now);
      if decision == NoneUsable {
        var silent := Filter(raced, SilentTest(results));
        var said := BlockSilent(silent, now);
        actions := actions + said;
      }
      if decision.Selected? {
        Mark(decision.profile, Working(now));
      }
      raced := [];
      assert actions == Learned(old(View()), decision, results, now).1;
    }

    method RaceFinished(decision: RaceDecision, results: seq<(ProfileId, ProfileProbe)>, now: Time)
      returns (actions: seq<Action>)
      requires phase.Racing() ==> endpoint.Some?
      modifies this, detector
      ensures (View(), actions) == OnRaceFinished(old(View()), decision, results, now)
    {
      if !phase.Racing() || decision == StillPending {
        return [];
      }
      if decision.Selected? && decision.profile !in raced {
        return [];
      }
      var against, recovering := endpoint.value, phase == Recovering;
      actions := RecordResults(decision, results, now);
      var more;
      if decision.Selected? {
        more := StartTheTunnel(decision.profile, against);
      } else {
        more := NothingWon(recovering, against);
      }
      actions := actions + more;
    }

    method NothingWon(recovering: bool, against: EndpointId) returns (actions: seq<Action>)
      modifies this, detector
      ensures (View(), actions) == NobodyWon(old(View()), recovering, against)
    {
      var cause := Diagnose(View(), true);
      if cause.Some? {
        actions := Fail(cause.value, false);
      } else if !recovering && requested.Some? {
        actions := Fail(ConfigurationInvalid(NamedProfileFailed(requested.value)), false);
      } else {
        var direct := DirectFallback(profiles);
        if direct.Some? {
          actions := StartTheTunnel(direct.value, against);
        } else {
          actions := Fail(AllProfilesBlocked, false);
        }
      }
    }

    method TunnelUp(now: Time) returns (actions: seq<Action>)
      modifies this, detector
      ensures (View(), actions) == OnTunnelUp(old(View()), now)
    {
      if phase.Starting? {
        Mark(phase.profile, Working(now));
        detector.Reset();
        replacing := None;
        phase := Connected(phase.profile, phase.endpoint);
      }
      actions := [];
    }

    method PathChanged(from: Option<InterfaceId>, to: InterfaceId) returns (actions: seq<Action>)
      ensures (View(), actions) == OnPathChanged(View(), from, to)
    {
      actions := [];
      if phase.Connected? {
        var at := PlaceOf(profiles, phase.profile);
        if at.Some? {
          actions := [Emit(CarrierChanged(from, to, profiles[at.value].tier))];
        }
      }
    }

    method LiveCheck(check: LiveCheck, now: Time) returns (actions: seq<Action>)
      modifies this, detector
      ensures (View(), actions) == OnCheck(old(View()), check, now)
    {
      if !phase.Connected? {
        return [];
      }
      var profile, against := phase.profile, phase.endpoint;
      var detection := detector.Observe(check);
      if !detection.IsBlocked? {
        return [];
      }
      var cause := Diagnose(View(), false);
      if cause.Some? {
        actions := Fail(cause.value, true);
        return;
      }
      var moved := MoveTunnel(profile, against);
      if moved.Some? {
        return moved.value;
      }
      actions := FindAnother(profile, against, detection.failures, now);
    }

    method FindAnother(profile: ProfileId, against: EndpointId, failures: nat, now: Time) returns (actions: seq<Action>)
      modifies this, detector
      ensures (View(), actions) == Blame(old(View()), profile, against, failures, now)
    {
      actions := MarkBlocked(profile, now, LiveChecksFailed(failures));
      actions := actions + [StopTunnel];
      replacing := Some(profile);
      var more := TryAgain(PlanReprobe(profiles, profile), against);
      actions := actions + more;
    }

    method TryAgain(candidates: seq<ProfileId>, against: EndpointId) returns (actions: seq<Action>)
      modifies this, detector
      ensures (View(), actions) == Retry(old(View()), candidates, against)
    {
      if candidates == [] {
        actions := Fail(AllProfilesBlocked, false);
      } else {
        var probeable := Filter(candidates, ProbeableIdTest(profiles));
        if probeable == [] {
          actions := StartTheTunnel(candidates[0], against);
        } else {
          actions := StartTheRace(probeable, against, Recovering);
        }
      }
    }

    /** `None` means keep the endpoint. */
    method MoveTunnel(profile: ProfileId, active: EndpointId) returns (actions: Option<seq<Action>>)
      modifies this, detector
      ensures RelocateTunnel(old(View()), profile, active)
              == if actions.None? then None else Some((View(), actions.value))
      ensures actions.None? ==> View() == old(View())
    {
      match PlanMigration(endpoints, active) {
        case Remain => return None;
        case MoveTo(to) =>
          endpoint := Some(to);
          detector.Reset();
          phase := Starting(profile, to);
          return Some([Emit(EndpointMigrated(active, to)), StopTunnel, StartTunnel(profile, to)]);
        case NoneReachable =>
          var failed := Fail(NoEndpointReachable, true);
          return Some(failed);
      }
    }

    method MoveRace(active: EndpointId) returns (actions: Option<seq<Action>>)
      modifies this
      ensures RelocateRace(old(View()), active) == if actions.None? then None else Some((View(), actions.value))
      ensures actions.None? ==> View() == old(View())
    {
      match PlanMigration(endpoints, active) {
        case Remain => return None;
        case MoveTo(to) =>
          endpoint := Some(to);
          return Some([Emit(EndpointMigrated(active, to)), CancelRace, StartRace(raced, to)]);
        case NoneReachable =>
          var failed := Fail(NoEndpointReachable, false);
          return Some([CancelRace] + failed);
      }
    }

    method EndpointProbe(id: EndpointId, outcome: Health.ProbeOutcome, now: Time) returns (actions: seq<Action>)
      modifies this, detector
      ensures (View(), actions) == OnEndpointProbe(old(View()), id, outcome, now)
    {
      var at := FindEndpoint(endpoints, id);
      if at.None? {
        return [];
      }
      var known := endpoints[at.value];
      var t := Health.OnProbe(known.health, outcome, now, Health.DEFAULT_UNREACHABLE_AFTER);
      endpoints := endpoints[at.value := known.(health := t.next)];
      if endpoint != Some(id) || !t.becameUnreachable {
        return [];
      }
      var moved := None;
      if phase.Tunnelling() {
        moved := MoveTunnel(phase.profile, id);
      } else if phase.Racing() {
        moved := MoveRace(id);
      }
      actions := if moved.Some? then moved.value else [];
    }
  }
}
