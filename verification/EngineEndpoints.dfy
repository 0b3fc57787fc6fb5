/** The endpoints over every run: what is known of each, and where an attempt goes when its endpoint is lost. */
module EngineEndpoints {
  import opened Common
  import opened ProbeRacing
  import opened Reprobing
  import opened FailureCauses
  import opened Endpoints
  import opened EngineSpec
  import opened EngineInvariant
  import opened EngineRuns
  import opened EngineLearning
  import opened EngineOutcomes
  import opened EngineAttempts
  import Health

  // ------------------------------------------------------------------ what is known of an endpoint

  /** The probes of one endpoint among the first `k` inputs. */
  function ProbesOf(r: Run, k: nat, id: EndpointId): seq<Health.Probe>
    requires r.Shaped() && k <= |r.inputs|
  {
    if k == 0 then []
    else
      var input := r.inputs[k - 1].input;
      ProbesOf(r, k - 1, id)
      + if input.EndpointProbe? && input.probed == id then [Health.Probe(r.inputs[k - 1].now, input.outcome)] else []
  }

  /** Health after further probes. */
  function Onward(h: Health.EndpointHealth, probes: seq<Health.Probe>): Health.EndpointHealth {
    if probes == [] then h
    else
      var n := |probes| - 1;
      Health.Probed(Onward(h, probes[..n]), probes[n].outcome, probes[n].at, 3).next
  }

  lemma {:induction false} OnwardFromNew(probes: seq<Health.Probe>)
    ensures Onward(Health.NEVER_PROBED, probes) == Health.After(probes, 3)
  {
    if probes != [] {
      OnwardFromNew(probes[..|probes| - 1]);
    }
  }

  lemma OnlyProbesTouchEndpoints(e: Engine, input: Input, now: Time)
    requires CanStep(e) && !input.EndpointProbe?
    ensures Stepped(e, input, now).0.endpoints == e.endpoints
  {
    match input {
      case Connect(requested) => ConnectKeepsEndpoints(e, requested);
      case Check(check) => CheckKeepsEndpoints(e, check, now);
      case RaceFinished(decision, results) => RaceKeepsEndpoints(e, decision, results, now);
      case _ =>
    }
  }

  lemma ConnectKeepsEndpoints(e: Engine, requested: Option<ProfileId>)
    ensures OnConnect(e, requested).0.endpoints == e.endpoints
  {
    if AcceptsConnect(e) {
      AnywhereKeepsEndpoints(Forgotten(e, requested), requested);
    }
  }

  lemma AnywhereKeepsEndpoints(e: Engine, requested: Option<ProfileId>)
    ensures ConnectAnywhere(e, requested).0.endpoints == e.endpoints
  {
    var ranked := Rank(e.endpoints);
    if ranked != [] {
      ThroughKeepsEndpoints(e.(endpoint := Some(ranked[0])), requested, ranked[0]);
    }
  }

  lemma ThroughKeepsEndpoints(e: Engine, requested: Option<ProfileId>, against: EndpointId)
    ensures ConnectThrough(e, requested, against).0.endpoints == e.endpoints
  {
  }

  lemma CheckKeepsEndpoints(e: Engine, check: LiveCheck, now: Time)
    ensures OnCheck(e, check, now).0.endpoints == e.endpoints
  {
    if e.phase.Connected? {
      var f := e.(watch := Checked(e.watch, check).0);
      BlameKeepsEndpoints(f, e.phase.profile, e.phase.endpoint, Increment(e.watch.failures), now);
    }
  }

  lemma BlameKeepsEndpoints(e: Engine, profile: ProfileId, against: EndpointId, failures: nat, now: Time)
    ensures Blame(e, profile, against, failures, now).0.endpoints == e.endpoints
  {
  }

  lemma RaceKeepsEndpoints(e: Engine, decision: RaceDecision, results: Results, now: Time)
    requires CanStep(e)
    ensures OnRaceFinished(e, decision, results, now).0.endpoints == e.endpoints
  {
  }

  /** One probe changes the health of its endpoint, and nothing else of any. */
  lemma ProbeInPlace(e: Engine, id: EndpointId, outcome: Health.ProbeOutcome, now: Time, i: nat)
    requires UniqueEndpoints(e.endpoints) && i < |e.endpoints|
    ensures var after := OnEndpointProbe(e, id, outcome, now).0.endpoints;
            && |after| == |e.endpoints|
            && after[i] == if e.endpoints[i].id == id
                           then e.endpoints[i].(health := Health.Probed(e.endpoints[i].health, outcome, now, 3).next)
                           else e.endpoints[i]
  {
    var at := FindEndpoint(e.endpoints, id);
    if at.Some? && e.endpoints[i].id == id {
      assert at.value == i;
    }
  }

  /** Over every run: which endpoints there are and which are enabled never changes, and the health of each is
      exactly what its own probes make of the health it began with. */
  lemma {:induction false} HealthIsReplay(r: Run, k: nat, i: nat)
    requires r.Valid() && k <= |r.inputs| && i < |r.engines[0].endpoints|
    ensures |r.engines[k].endpoints| == |r.engines[0].endpoints|
    ensures var first := r.engines[0].endpoints[i];
            r.engines[k].endpoints[i] == first.(health := Onward(first.health, ProbesOf(r, k, first.id)))
  {
    if k > 0 {
      var e, input, now := r.engines[k - 1], r.inputs[k - 1].input, r.inputs[k - 1].now;
      HealthIsReplay(r, k - 1, i);
      InvAlways(r, k - 1);
      assert r.Follows(k - 1);
      var id := r.engines[0].endpoints[i].id;
      if input.EndpointProbe? {
        ProbeInPlace(e, input.probed, input.outcome, now, i);
        assert input.probed != id ==> ProbesOf(r, k, id) == ProbesOf(r, k - 1, id);
        assert input.probed == id ==> ProbesOf(r, k, id)[..|ProbesOf(r, k, id)| - 1] == ProbesOf(r, k - 1, id);
      } else {
        OnlyProbesTouchEndpoints(e, input, now);
        assert ProbesOf(r, k, id) == ProbesOf(r, k - 1, id);
      }
    }
  }

  // ------------------------------------------------------------------ losing the endpoint in use

  /** The endpoint in use, lost by this probe. */
  ghost predicate Loses(e: Engine, n: Engine, id: EndpointId) {
    && (e.phase.Racing() || e.phase.Tunnelling()) && e.endpoint == Some(id)
    && exists i :: 0 <= i < |n.endpoints| && n.endpoints[i].id == id
                   && n.endpoints[i].health.state == Health.Unreachable
  }

  /** The tunnel or race goes on at another best endpoint, the old one stopped first; or there is none. */
  ghost predicate AfterLoss(e: Engine, n: Engine, id: EndpointId, said: seq<Action>) {
    && n.environment == e.environment && n.reach == e.reach && n.requested == e.requested && n.profiles == e.profiles
    && if forall i :: 0 <= i < |n.endpoints| ==> !IsCandidate(n.endpoints[i]) then
      && n.phase == Broken(NoEndpointReachable)
      && said == [if e.phase.Tunnelling() then StopTunnel else CancelRace, Emit(GaveUp(NoEndpointReachable))]
    else
      && n.endpoint.Some? && BestEndpoint(n.endpoints, n.endpoint.value)
      && var to := n.endpoint.value;
         if e.phase.Tunnelling() then
           && n.phase == Starting(e.phase.profile, to) && n.watch == FRESH_WATCH
           && said == [Emit(EndpointMigrated(id, to)), StopTunnel, StartTunnel(e.phase.profile, to)]
         else
           && n.phase == e.phase && n.raced == e.raced
           && said == [Emit(EndpointMigrated(id, to)), CancelRace, StartRace(e.raced, to)]
  }

  lemma MigrationIs(endpoints: seq<Endpoint>, id: EndpointId)
    requires UniqueEndpoints(endpoints) && !IsUsable(endpoints, id)
    ensures match PlanMigration(endpoints, id)
            case Remain => false
            case MoveTo(to) =>
              BestEndpoint(endpoints, to) && exists i :: 0 <= i < |endpoints| && IsCandidate(endpoints[i])
            case NoneReachable => forall i :: 0 <= i < |endpoints| ==> !IsCandidate(endpoints[i])
  {
    RankHeadIsBest(endpoints);
  }

  lemma TunnelMoves(e: Engine, f: Engine, id: EndpointId)
    requires UniqueEndpoints(f.endpoints) && !IsUsable(f.endpoints, id) && f == e.(endpoints := f.endpoints)
    requires e.phase.Tunnelling()
    ensures var moved := RelocateTunnel(f, e.phase.profile, id);
            && moved.Some? && moved.value.0.endpoints == f.endpoints && moved.value.0.profiles == e.profiles
            && AfterLoss(e, moved.value.0, id, moved.value.1)
  {
    MigrationIs(f.endpoints, id);
  }

  lemma RaceMoves(e: Engine, f: Engine, id: EndpointId)
    requires UniqueEndpoints(f.endpoints) && !IsUsable(f.endpoints, id) && f == e.(endpoints := f.endpoints)
    requires e.phase.Racing()
    ensures var moved := RelocateRace(f, id);
            && moved.Some? && moved.value.0.endpoints == f.endpoints && moved.value.0.profiles == e.profiles
            && AfterLoss(e, moved.value.0, id, moved.value.1)
  {
    MigrationIs(f.endpoints, id);
    if PlanMigration(f.endpoints, id).NoneReachable? {
      var said := [CancelRace] + Fail(f, NoEndpointReachable, false).1;
      assert said == [CancelRace, Emit(GaveUp(NoEndpointReachable))];
    }
  }

  /** A probe of the endpoint in use that leaves it unreachable takes the attempt to another best endpoint, or ends
      it if there is none; any other probe changes nothing but the health of what it probed. */
  lemma ProbeExactly(r: Run, k: nat)
    requires r.Valid() && k < |r.inputs| && r.inputs[k].input.EndpointProbe?
    ensures var (e, n, id) := (r.engines[k], r.engines[k + 1], r.inputs[k].input.probed);
            && n.profiles == e.profiles
            && (if Loses(e, n, id) then AfterLoss(e, n, id, r.actions[k])
                else n == e.(endpoints := n.endpoints) && r.actions[k] == [])
  {
    var e, id, outcome, now := r.engines[k], r.inputs[k].input.probed, r.inputs[k].input.outcome, r.inputs[k].now;
    InvAlways(r, k);
    assert r.Follows(k);
    ProbeIs(e, id, outcome, now);
  }

  lemma ProbeIs(e: Engine, id: EndpointId, outcome: Health.ProbeOutcome, now: Time)
    requires Inv(e)
    ensures var (n, said) := OnEndpointProbe(e, id, outcome, now);
            && n.profiles == e.profiles
            && (if Loses(e, n, id) then AfterLoss(e, n, id, said) else n == e.(endpoints := n.endpoints) && said == [])
  {
    var at := FindEndpoint(e.endpoints, id);
    if at.Some? {
      var known := e.endpoints[at.value];
      var t := Health.Probed(known.health, outcome, now, Health.DEFAULT_UNREACHABLE_AFTER);
      var f := e.(endpoints := e.endpoints[at.value := known.(health := t.next)]);
      ProbeChangesOneEndpoint(e.endpoints, at.value, t.next, id);
      var lost := (e.phase.Racing() || e.phase.Tunnelling()) && e.endpoint == Some(id) && t.becameUnreachable;
      if lost {
        if e.phase.Tunnelling() { TunnelMoves(e, f, id); } else { RaceMoves(e, f, id); }
        assert f.endpoints[at.value].health.state == Health.Unreachable;
      } else {
        LostMeans(e, f, id, at.value, t);
      }
    }
  }

  lemma LostMeans(e: Engine, f: Engine, id: EndpointId, at: nat, t: Health.Transition)
    requires Inv(e) && at < |e.endpoints| && e.endpoints[at].id == id && UniqueEndpoints(f.endpoints)
    requires f.endpoints == e.endpoints[at := e.endpoints[at].(health := t.next)]
    requires t.becameUnreachable <==>
            e.endpoints[at].health.state != Health.Unreachable && t.next.state == Health.Unreachable
    ensures Loses(e, f, id) <==>
            (e.phase.Racing() || e.phase.Tunnelling()) && e.endpoint == Some(id) && t.becameUnreachable
  {
    if Loses(e, f, id) {
      var i :| 0 <= i < |f.endpoints| && f.endpoints[i].id == id && f.endpoints[i].health.state == Health.Unreachable;
      assert i == at;
      assert FindEndpoint(e.endpoints, id) == Some(at);
    }
    if t.becameUnreachable {
      assert f.endpoints[at].health.state == Health.Unreachable;
    }
  }

  // ------------------------------------------------------------------ the environment

  /** What was last said of the machine: to begin with, that nothing is wrong with it. */
  function LastEnvironment(r: Run, k: nat): Environment
    requires r.Shaped() && k <= |r.inputs|
  {
    if k == 0 then Environment(true, 1, false, None)
    else if r.inputs[k - 1].input.SetEnvironment? then r.inputs[k - 1].input.environment
    else LastEnvironment(r, k - 1)
  }

  /** The engine judges by what was last said of the machine. */
  lemma {:induction false} EnvironmentIsLast(r: Run, k: nat)
    requires r.Valid() && k <= |r.inputs|
    ensures r.engines[k].environment == LastEnvironment(r, k)
  {
    if k > 0 {
      EnvironmentIsLast(r, k - 1);
      EnvironmentStep(r, k - 1);
    }
  }

  lemma EnvironmentStep(r: Run, k: nat)
    requires r.Valid() && k < |r.inputs|
    ensures r.engines[k + 1].environment
            == if r.inputs[k].input.SetEnvironment? then r.inputs[k].input.environment else r.engines[k].environment
  {
    match r.inputs[k].input {
      case Connect(_) => ConnectExactly(r, k);
      case Disconnect => DisconnectEndsEverything(r, k);
      case RaceFinished(decision, _) =>
        if !AcceptsRace(r.engines[k], decision) {
          StaleResultIsIgnored(r, k);
        } else if decision.Selected? {
          WinnerIsBroughtUp(r, k);
        } else {
          NobodyWonExactly(r, k);
        }
      case TunnelUp => TunnelUpConnects(r, k);
      case StartFailed(_) => StartFailedBreaks(r, k);
      case Check(_) => CheckExactly(r, k);
      case EndpointProbe(_, _) => ProbeExactly(r, k);
      case PathChanged(_, _) => OthersOnlyNote(r, k);
      case Connectivity(_) => OthersOnlyNote(r, k);
      case SetReach(_) => OthersOnlyNote(r, k);
      case SetEnvironment(_) => OthersOnlyNote(r, k);
    }
  }

  // ------------------------------------------------------------------ giving up

  /** The engine says that it gave up exactly when it has just broken, with the cause it broke with. */
  lemma GivesUpExactly(r: Run, k: nat, c: FailureCause)
    requires r.Valid() && k < |r.inputs|
    ensures Emit(GaveUp(c)) in r.actions[k] <==>
              r.engines[k + 1].phase == Broken(c) && (!r.engines[k].phase.Broken? || r.inputs[k].input.Connect?)
  {
    InvAlways(r, k);
    assert r.Follows(k);
    StepGivesUp(r.engines[k], r.inputs[k].input, r.inputs[k].now, c);
  }

  /** What an effect says of giving up is what its phase says. */
  predicate Candid(effect: Effect, c: FailureCause) {
    Emit(GaveUp(c)) in effect.1 <==> effect.0.phase == Broken(c)
  }

  lemma FailIsCandid(e: Engine, cause: FailureCause, stop: bool, c: FailureCause)
    ensures Candid(Fail(e, cause, stop), c)
  {
    var said := Fail(e, cause, stop).1;
    assert said[|said| - 1] == Emit(GaveUp(cause));
  }

  lemma BringUpIsCandid(e: Engine, p: ProfileId, x: EndpointId, c: FailureCause)
    ensures Candid(BringUp(e, p, x), c)
  {
  }

  lemma BeginRaceIsCandid(e: Engine, ids: seq<ProfileId>, x: EndpointId, phase: Phase, c: FailureCause)
    requires phase.Racing()
    ensures Candid(BeginRace(e, ids, x, phase), c)
  {
  }

  lemma AfterTalkIsCandid(talk: seq<Action>, effect: Effect, c: FailureCause)
    requires Candid(effect, c) && Emit(GaveUp(c)) !in talk
    ensures Candid(After(talk, effect), c)
  {
  }

  lemma ConnectIsCandid(e: Engine, requested: Option<ProfileId>, c: FailureCause)
    requires AcceptsConnect(e)
    ensures Candid(OnConnect(e, requested), c)
  {
    var f := Forgotten(e, requested);
    var cause := Diagnose(f, false);
    if cause.Some? {
      FailIsCandid(f, cause.value, false, c);
    } else if requested.Some? && PlaceOf(f.profiles, requested.value).None? {
      FailIsCandid(f, ConfigurationInvalid(NoSuchProfile(requested.value)), false, c);
    } else {
      AnywhereIsCandid(f, requested, c);
    }
  }

  lemma AnywhereIsCandid(e: Engine, requested: Option<ProfileId>, c: FailureCause)
    ensures Candid(ConnectAnywhere(e, requested), c)
  {
    var ranked := Rank(e.endpoints);
    if ranked == [] {
      FailIsCandid(e, NoEndpointReachable, false, c);
    } else {
      ThroughIsCandid(e.(endpoint := Some(ranked[0])), requested, ranked[0], c);
    }
  }

  lemma ThroughIsCandid(e: Engine, requested: Option<ProfileId>, x: EndpointId, c: FailureCause)
    ensures Candid(ConnectThrough(e, requested, x), c)
  {
    if requested.None? && ProbeableIds(e.profiles) == [] && DirectFallback(e.profiles).None? {
      FailIsCandid(e, AllProfilesBlocked, false, c);
    }
  }

  lemma RaceIsCandid(e: Engine, decision: RaceDecision, results: Results, now: Time, c: FailureCause)
    requires Inv(e) && AcceptsRace(e, decision)
    ensures CanStep(e) && Candid(OnRaceFinished(e, decision, results, now), c)
  {
    var (learned, talk) := Learned(e, decision, results, now);
    TalkIsAboutProfiles(e, decision, results, now);
    var x := e.endpoint.value;
    if decision.Selected? {
      BringUpIsCandid(learned, decision.profile, x, c);
      AfterTalkIsCandid(talk, BringUp(learned, decision.profile, x), c);
    } else {
      NobodyWonIsCandid(learned, e.phase == Recovering, x, c);
      AfterTalkIsCandid(talk, NobodyWon(learned, e.phase == Recovering, x), c);
    }
  }

  lemma NobodyWonIsCandid(e: Engine, recovering: bool, x: EndpointId, c: FailureCause)
    ensures Candid(NobodyWon(e, recovering, x), c)
  {
    var cause := Diagnose(e, true);
    if cause.Some? {
      FailIsCandid(e, cause.value, false, c);
    } else if !recovering && e.requested.Some? {
      FailIsCandid(e, ConfigurationInvalid(NamedProfileFailed(e.requested.value)), false, c);
    } else if DirectFallback(e.profiles).None? {
      FailIsCandid(e, AllProfilesBlocked, false, c);
    }
  }

  lemma BlameIsCandid(e: Engine, p: ProfileId, x: EndpointId, failures: nat, now: Time, c: FailureCause)
    ensures Candid(Blame(e, p, x, failures, now), c)
  {
    var reason := LiveChecksFailed(failures);
    var talk := BlockedEvent(e.profiles, p, reason) + [StopTunnel];
    var f := e.(profiles := Marked(e.profiles, p, Blocked(now, reason)), replacing := Some(p));
    var plan := PlanReprobe(f.profiles, p);
    RetryIsCandid(f, plan, x, c);
    AfterTalkIsCandid(talk, Retry(f, plan, x), c);
  }

  lemma RetryIsCandid(e: Engine, candidates: seq<ProfileId>, x: EndpointId, c: FailureCause)
    ensures Candid(Retry(e, candidates, x), c)
  {
    if candidates == [] {
      FailIsCandid(e, AllProfilesBlocked, false, c);
    }
  }

  lemma CheckIsCandid(e: Engine, check: LiveCheck, now: Time, c: FailureCause)
    requires Inv(e) && e.phase.Connected?
    ensures Candid(OnCheck(e, check, now), c)
  {
    var f := e.(watch := Checked(e.watch, check).0);
    var cause := Diagnose(f, false);
    if cause.Some? {
      FailIsCandid(f, cause.value, true, c);
    } else {
      BlameIsCandid(f, e.phase.profile, e.phase.endpoint, Increment(e.watch.failures), now, c);
    }
  }

  lemma ProbeIsCandid(e: Engine, id: EndpointId, outcome: Health.ProbeOutcome, now: Time, c: FailureCause)
    requires Inv(e)
    ensures Emit(GaveUp(c)) in OnEndpointProbe(e, id, outcome, now).1 <==>
              OnEndpointProbe(e, id, outcome, now).0.phase == Broken(c) && !e.phase.Broken?
  {
    ProbeIs(e, id, outcome, now);
    var (n, said) := OnEndpointProbe(e, id, outcome, now);
    if Loses(e, n, id) {
      LossIsCandid(e, n, id, said, c);
    }
  }

  lemma LossIsCandid(e: Engine, n: Engine, id: EndpointId, said: seq<Action>, c: FailureCause)
    requires (e.phase.Racing() || e.phase.Tunnelling()) && AfterLoss(e, n, id, said)
    ensures Emit(GaveUp(c)) in said <==> n.phase == Broken(c)
  {
    if forall i :: 0 <= i < |n.endpoints| ==> !IsCandidate(n.endpoints[i]) {
      assert said[1] == Emit(GaveUp(NoEndpointReachable));
    }
  }

  lemma StepGivesUp(e: Engine, input: Input, now: Time, c: FailureCause)
    requires Inv(e)
    ensures CanStep(e)
    ensures Emit(GaveUp(c)) in Stepped(e, input, now).1 <==>
              Stepped(e, input, now).0.phase == Broken(c) && (!e.phase.Broken? || input.Connect?)
  {
    match input {
      case Connect(requested) => if AcceptsConnect(e) { ConnectIsCandid(e, requested, c); }
      case RaceFinished(decision, results) =>
        if AcceptsRace(e, decision) { RaceIsCandid(e, decision, results, now, c); }
      case StartFailed(cause) => FailIsCandid(e, cause, true, c);
      case Check(check) => if e.phase.Connected? { CheckIsCandid(e, check, now, c); }
      case EndpointProbe(id, outcome) => ProbeIsCandid(e, id, outcome, now, c);
      case _ =>
    }
  }
}
