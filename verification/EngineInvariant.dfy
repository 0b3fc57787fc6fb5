/** What every step of the engine keeps, and what its actions do to the world. */
module EngineInvariant {
  import opened Common
  import opened ProbeRacing
  import opened Reprobing
  import opened FailureCauses
  import opened Endpoints
  import opened EngineSpec
  import Health

  // ------------------------------------------------------------------ the invariant

  predicate UniqueProfiles(profiles: seq<Profile>) {
    forall i, j :: 0 <= i < j < |profiles| ==> profiles[i].id != profiles[j].id
  }

  /** The profile is configured and not known to be blocked. */
  predicate Viable(profiles: seq<Profile>, id: ProfileId) {
    var at := PlaceOf(profiles, id);
    at.Some? && NotBlocked(profiles[at.value])
  }

  predicate Raceable(profiles: seq<Profile>, id: ProfileId) {
    var at := PlaceOf(profiles, id);
    at.Some? && NotBlocked(profiles[at.value]) && profiles[at.value].kind.Probeable()
  }

  predicate AllRaceable(profiles: seq<Profile>, ids: seq<ProfileId>) {
    forall id :: id in ids ==> Raceable(profiles, id)
  }

  ghost predicate Inv(e: Engine) {
    && UniqueProfiles(e.profiles) && UniqueEndpoints(e.endpoints)
    && (e.phase.Racing() || e.phase.Tunnelling() ==> e.endpoint.Some? && IsUsable(e.endpoints, e.endpoint.value))
    && (e.phase.Tunnelling() ==> e.endpoint == Some(e.phase.endpoint) && Viable(e.profiles, e.phase.profile))
    && (e.phase.Racing() ==> e.raced != [] && AllRaceable(e.profiles, e.raced))
    && (!e.phase.Racing() ==> e.raced == [])
    && (e.phase.Connected? ==> e.watch == Watch(e.watch.failures, false) && e.watch.failures < BLOCK_AFTER)
  }

  // ------------------------------------------------------------------ the world

  /** What the daemon has running on the engine's behalf. */
  datatype World = Quiet | RaceOn | TunnelOn

  /** What an action does to the world; nothing if it makes no sense there. */
  function Act(w: Option<World>, a: Action): Option<World> {
    match (w, a)
    case (None, _) => None
    case (_, Emit(_)) => w
    case (_, WarnTier2(_)) => w
    case (Some(Quiet), StartRace(_, _)) => Some(RaceOn)
    case (Some(Quiet), StartTunnel(_, _)) => Some(TunnelOn)
    case (Some(RaceOn), CancelRace) => Some(Quiet)
    case (Some(TunnelOn), StopTunnel) => Some(Quiet)
    case (_, _) => None
  }

  function Replay(w: Option<World>, actions: seq<Action>): Option<World> {
    if actions == [] then w else Act(Replay(w, actions[..|actions| - 1]), actions[|actions| - 1])
  }

  function WorldOf(phase: Phase): World {
    if phase.Racing() then RaceOn else if phase.Tunnelling() then TunnelOn else Quiet
  }

  /** A race whose result is accepted is over; no other input changes what is running. */
  function Before(e: Engine, input: Input): World {
    if input.RaceFinished? && AcceptsRace(e, input.decision) then Quiet else WorldOf(e.phase)
  }

  lemma {:induction false} ReplayConcat(w: Option<World>, a: seq<Action>, b: seq<Action>)
    ensures Replay(w, a + b) == Replay(Replay(w, a), b)
  {
    if b == [] {
      assert a + b == a;
    } else {
      var init := b[..|b| - 1];
      ReplayConcat(w, a, init);
      assert (a + b)[..|a + b| - 1] == a + init;
    }
  }

  predicate OnlyTalk(actions: seq<Action>) { forall a :: a in actions ==> a.Emit? || a.WarnTier2? }

  lemma {:induction false} TalkChangesNothing(w: Option<World>, actions: seq<Action>)
    requires OnlyTalk(actions)
    ensures Replay(w, actions) == w
  {
    if actions != [] {
      TalkChangesNothing(w, actions[..|actions| - 1]);
    }
  }

  lemma ReplayLast(w: Option<World>, talk: seq<Action>, a: Action)
    requires OnlyTalk(talk)
    ensures Replay(w, talk + [a]) == Act(w, a)
  {
    TalkChangesNothing(w, talk);
    assert (talk + [a])[..|talk + [a]| - 1] == talk;
  }

  /** An effect that is right: the invariant holds after it, its actions take the world from `w` to what
      the phase says, and what it starts is what the state then says. */
  ghost predicate Right(w: World, effect: Effect) {
    && Inv(effect.0)
    && Replay(Some(w), effect.1) == Some(WorldOf(effect.0.phase))
    && (forall a :: a in effect.1 ==> StartsAsStated(effect.0, a))
  }

  predicate StartsAsStated(e: Engine, a: Action) {
    match a
    case StartTunnel(profile, against) => e.phase == Starting(profile, against)
    case StartRace(profiles, against) => e.phase.Racing() && e.raced == profiles && e.endpoint == Some(against)
    case _ => true
  }

  /** Saying more first changes nothing. */
  lemma RightAfterTalk(w: World, talk: seq<Action>, effect: Effect)
    requires Right(w, effect) && OnlyTalk(talk)
    ensures Right(w, After(talk, effect))
  {
    ReplayConcat(Some(w), talk, effect.1);
    TalkChangesNothing(Some(w), talk);
  }

  lemma RightAfterStop(w: World, talk: seq<Action>, stop: Action, effect: Effect)
    requires OnlyTalk(talk) && ((w == TunnelOn && stop == StopTunnel) || (w == RaceOn && stop == CancelRace))
    requires Right(Quiet, effect)
    ensures Right(w, After(talk + [stop], effect))
  {
    ReplayConcat(Some(w), talk + [stop], effect.1);
    ReplayLast(Some(w), talk, stop);
  }

  // ------------------------------------------------------------------ the endings are right

  /** What the endings need of the state they start from. */
  ghost predicate Ready(e: Engine) { UniqueProfiles(e.profiles) && UniqueEndpoints(e.endpoints) }

  lemma FailIsRight(e: Engine, cause: FailureCause, stop: bool)
    requires Ready(e)
    ensures Right(if stop then TunnelOn else Quiet, Fail(e, cause, stop))
  {
    var (failed, actions) := Fail(e, cause, stop);
    if stop {
      assert actions[..1] == [StopTunnel];
      ReplayConcat(Some(TunnelOn), [StopTunnel], [Emit(GaveUp(cause))]);
      ReplayLast(Some(TunnelOn), [], StopTunnel);
      assert [] + [StopTunnel] == [StopTunnel];
      TalkChangesNothing(Some(Quiet), [Emit(GaveUp(cause))]);
    } else {
      TalkChangesNothing(Some(Quiet), actions);
    }
  }

  lemma BeginRaceIsRight(e: Engine, profiles: seq<ProfileId>, against: EndpointId, phase: Phase)
    requires Ready(e) && phase.Racing() && profiles != [] && AllRaceable(e.profiles, profiles)
    requires e.endpoint == Some(against) && IsUsable(e.endpoints, against)
    ensures Right(Quiet, BeginRace(e, profiles, against, phase))
  {
    ReplayLast(Some(Quiet), if phase == Probing then [Emit(ProbeStarted)] else [], StartRace(profiles, against));
  }

  lemma BringUpIsRight(e: Engine, profile: ProfileId, against: EndpointId)
    requires Ready(e) && Viable(e.profiles, profile) && e.raced == []
    requires e.endpoint == Some(against) && IsUsable(e.endpoints, against)
    ensures Right(Quiet, BringUp(e, profile, against))
  {
    ReplayLast(Some(Quiet), [Emit(ProfileSelected(profile))]
        + (if IsTier2(e.profiles, profile) then [WarnTier2(profile)] else []),
               StartTunnel(profile, against));
  }

  // ------------------------------------------------------------------ marking profiles

  /** The same profiles but for what is known of their viability. */
  predicate SameProfiles(a: seq<Profile>, b: seq<Profile>) {
    |a| == |b| && forall i :: 0 <= i < |a| ==> a[i] == b[i].(viability := a[i].viability)
  }

  lemma {:induction false} SamePlaces(a: seq<Profile>, b: seq<Profile>, id: ProfileId)
    requires SameProfiles(a, b)
    ensures PlaceOf(a, id) == PlaceOf(b, id)
  {
    if a != [] && a[0].id != id {
      SamePlaces(a[1..], b[1..], id);
    }
  }

  lemma MarkedSame(profiles: seq<Profile>, id: ProfileId, viability: Viability)
    ensures SameProfiles(Marked(profiles, id, viability), profiles)
    ensures forall i :: 0 <= i < |profiles| ==>
              Marked(profiles, id, viability)[i].viability
              == if PlaceOf(profiles, id) == Some(i) then viability else profiles[i].viability
  {
  }

  lemma {:induction false} NotedSame(profiles: seq<Profile>, results: seq<(ProfileId, ProfileProbe)>, now: Time)
    ensures SameProfiles(Noted(profiles, results, now).0, profiles)
    ensures OnlyTalk(Noted(profiles, results, now).1)
  {
    if results != [] {
      NotedSame(profiles, results[..|results| - 1], now);
    }
  }

  lemma {:induction false} SilencedSame(profiles: seq<Profile>, ids: seq<ProfileId>, now: Time)
    ensures SameProfiles(Silenced(profiles, ids, now).0, profiles)
    ensures OnlyTalk(Silenced(profiles, ids, now).1)
  {
    if ids != [] {
      SilencedSame(profiles, ids[..|ids| - 1], now);
    }
  }

  lemma LearnedSame(e: Engine, decision: RaceDecision, results: seq<(ProfileId, ProfileProbe)>, now: Time)
    ensures var (learned, said) := Learned(e, decision, results, now);
            && SameProfiles(learned.profiles, e.profiles) && OnlyTalk(said)
            && learned == e.(profiles := learned.profiles, raced := [])
            && (decision.Selected? && PlaceOf(e.profiles, decision.profile).Some? ==>
                 Viable(learned.profiles, decision.profile))
  {
    NotedSame(e.profiles, results, now);
    var noted := Noted(e.profiles, results, now).0;
    var silent := Filter(e.raced, SilentTest(results));
    SilencedSame(noted, silent, now);
    var silenced := if decision == NoneUsable then Silenced(noted, silent, now).0 else noted;
    if decision.Selected? {
      SamePlaces(silenced, e.profiles, decision.profile);
      MarkedSame(silenced, decision.profile, Working(now));
      SamePlaces(Marked(silenced, decision.profile, Working(now)), e.profiles, decision.profile);
    }
  }

  lemma PlaceUnique(profiles: seq<Profile>, i: nat)
    requires UniqueProfiles(profiles) && i < |profiles|
    ensures PlaceOf(profiles, profiles[i].id) == Some(i)
  {
  }

  lemma ProbeableMeans(profiles: seq<Profile>, id: ProfileId)
    requires UniqueProfiles(profiles)
    ensures IsProbeable(profiles, id) <==>
            PlaceOf(profiles, id).Some? && profiles[PlaceOf(profiles, id).value].kind.Probeable()
  {
    if p :| p in profiles && p.id == id && p.kind.Probeable() {
      var i :| 0 <= i < |profiles| && profiles[i] == p;
      PlaceUnique(profiles, i);
    }
  }

  lemma FallbackIsViable(profiles: seq<Profile>)
    requires UniqueProfiles(profiles) && DirectFallback(profiles).Some?
    ensures Viable(profiles, DirectFallback(profiles).value)
  {
    var p := Filter(profiles, LastResortTest())[0];
    assert p in Filter(profiles, LastResortTest());
    var i :| 0 <= i < |profiles| && profiles[i] == p;
    PlaceUnique(profiles, i);
  }

  // ------------------------------------------------------------------ each handler is right

  lemma ConnectIsRight(e: Engine, requested: Option<ProfileId>)
    requires Inv(e)
    ensures Right(WorldOf(e.phase), OnConnect(e, requested))
  {
    if AcceptsConnect(e) {
      var f := Forgotten(e, requested);
      assert Ready(f);
      var cause, ranked := Diagnose(f, false), Rank(f.endpoints);
      if cause.Some? {
        FailIsRight(f, cause.value, false);
      } else if requested.Some? && PlaceOf(f.profiles, requested.value).None? {
        FailIsRight(f, ConfigurationInvalid(NoSuchProfile(requested.value)), false);
      } else if ranked == [] {
        FailIsRight(f, NoEndpointReachable, false);
      } else {
        RankHeadIsUsable(f.endpoints);
        ConnectThroughIsRight(f.(endpoint := Some(ranked[0])), requested, ranked[0]);
      }
    }
  }

  lemma ConnectThroughIsRight(e: Engine, requested: Option<ProfileId>, against: EndpointId)
    requires Ready(e) && e.raced == [] && e.endpoint == Some(against) && IsUsable(e.endpoints, against)
    requires forall p :: p in e.profiles ==> p.viability.Untested?
    requires requested.Some? ==> PlaceOf(e.profiles, requested.value).Some?
    ensures Right(Quiet, ConnectThrough(e, requested, against))
  {
    if requested.Some? {
      ProbeableMeans(e.profiles, requested.value);
      if IsProbeable(e.profiles, requested.value) {
        BeginRaceIsRight(e, [requested.value], against, Probing);
      } else {
        BringUpIsRight(e, requested.value, against);
      }
    } else {
      var probeable := ProbeableIds(e.profiles);
      if probeable != [] {
        ProbeableIdsAreRaceable(e.profiles);
        BeginRaceIsRight(e, probeable, against, Probing);
      } else if DirectFallback(e.profiles).Some? {
        FallbackIsViable(e.profiles);
        BringUpIsRight(e, DirectFallback(e.profiles).value, against);
      } else {
        FailIsRight(e, AllProfilesBlocked, false);
      }
    }
  }

  lemma ProbeableIdsAreRaceable(profiles: seq<Profile>)
    requires UniqueProfiles(profiles) && forall p :: p in profiles ==> p.viability.Untested?
    ensures AllRaceable(profiles, ProbeableIds(profiles))
  {
    var kept, ids := Filter(profiles, ProbeableTest()), ProbeableIds(profiles);
    forall id | id in ids ensures Raceable(profiles, id) {
      var j :| 0 <= j < |ids| && ids[j] == id;
      assert kept[j] in kept;
      var i :| 0 <= i < |profiles| && profiles[i] == kept[j];
      PlaceUnique(profiles, i);
    }
  }

  lemma DisconnectIsRight(e: Engine)
    requires Inv(e)
    ensures Right(WorldOf(e.phase), OnDisconnect(e))
  {
    if e.phase.Racing() {
      ReplayLast(Some(RaceOn), [], CancelRace);
      assert [] + [CancelRace] == [CancelRace];
    } else if e.phase.Tunnelling() {
      ReplayLast(Some(TunnelOn), [], StopTunnel);
      assert [] + [StopTunnel] == [StopTunnel];
    }
  }

  lemma RaceFinishedIsRight(e: Engine, decision: RaceDecision, results: seq<(ProfileId, ProfileProbe)>, now: Time)
    requires Inv(e)
    ensures Right(Before(e, RaceFinished(decision, results)), OnRaceFinished(e, decision, results, now))
  {
    if AcceptsRace(e, decision) {
      var (learned, said) := Learned(e, decision, results, now);
      LearnedSame(e, decision, results, now);
      var against := e.endpoint.value;
      if decision.Selected? {
        assert Raceable(e.profiles, decision.profile);
        BringUpIsRight(learned, decision.profile, against);
        RightAfterTalk(Quiet, said, BringUp(learned, decision.profile, against));
      } else {
        NobodyWonIsRight(learned, e.phase == Recovering, against);
        RightAfterTalk(Quiet, said, NobodyWon(learned, e.phase == Recovering, against));
      }
    }
  }

  lemma NobodyWonIsRight(e: Engine, recovering: bool, against: EndpointId)
    requires Ready(e) && e.raced == [] && e.endpoint == Some(against) && IsUsable(e.endpoints, against)
    ensures Right(Quiet, NobodyWon(e, recovering, against))
  {
    var cause, direct := Diagnose(e, true), DirectFallback(e.profiles);
    if cause.Some? {
      FailIsRight(e, cause.value, false);
    } else if !recovering && e.requested.Some? {
      FailIsRight(e, ConfigurationInvalid(NamedProfileFailed(e.requested.value)), false);
    } else if direct.Some? {
      FallbackIsViable(e.profiles);
      BringUpIsRight(e, direct.value, against);
    } else {
      FailIsRight(e, AllProfilesBlocked, false);
    }
  }

  lemma TunnelUpIsRight(e: Engine, now: Time)
    requires Inv(e)
    ensures Right(WorldOf(e.phase), OnTunnelUp(e, now))
  {
    if e.phase.Starting? {
      MarkedSame(e.profiles, e.phase.profile, Working(now));
      SamePlaces(Marked(e.profiles, e.phase.profile, Working(now)), e.profiles, e.phase.profile);
    }
  }

  lemma CheckIsRight(e: Engine, check: LiveCheck, now: Time)
    requires Inv(e)
    ensures Right(WorldOf(e.phase), OnCheck(e, check, now))
  {
    if e.phase.Connected? {
      var (watch, detection) := Checked(e.watch, check);
      var f := e.(watch := watch);
      if detection.IsBlocked? {
        if Diagnose(f, false).Some? {
          FailIsRight(f, Diagnose(f, false).value, true);
        } else {
          assert RelocateTunnel(f, e.phase.profile, e.phase.endpoint).None?;
          BlameIsRight(f, e.phase.profile, e.phase.endpoint, detection.failures, now);
        }
      }
    }
  }

  lemma BlameIsRight(e: Engine, profile: ProfileId, against: EndpointId, failures: nat, now: Time)
    requires Ready(e) && e.raced == [] && e.endpoint == Some(against) && IsUsable(e.endpoints, against)
    ensures Right(TunnelOn, Blame(e, profile, against, failures, now))
  {
    var reason := LiveChecksFailed(failures);
    var marked := Marked(e.profiles, profile, Blocked(now, reason));
    MarkedSame(e.profiles, profile, Blocked(now, reason));
    var f := e.(profiles := marked, replacing := Some(profile));
    RetryIsRight(f, profile, against);
    RightAfterStop(TunnelOn, BlockedEvent(e.profiles, profile, reason), StopTunnel,
        Retry(f, PlanReprobe(marked, profile), against));
  }

  lemma RetryIsRight(e: Engine, blocked: ProfileId, against: EndpointId)
    requires Ready(e) && e.raced == [] && e.endpoint == Some(against) && IsUsable(e.endpoints, against)
    ensures Right(Quiet, Retry(e, PlanReprobe(e.profiles, blocked), against))
  {
    var candidates := PlanReprobe(e.profiles, blocked);
    var probeable := Filter(candidates, ProbeableIdTest(e.profiles));
    forall id | id in candidates ensures Viable(e.profiles, id) {
      PlanIsTheUnblocked(e.profiles, blocked);
      var p :| p in e.profiles && p.id == id && NotBlocked(p);
      var i :| 0 <= i < |e.profiles| && e.profiles[i] == p;
      PlaceUnique(e.profiles, i);
    }
    if candidates == [] {
      FailIsRight(e, AllProfilesBlocked, false);
    } else if probeable == [] {
      BringUpIsRight(e, candidates[0], against);
    } else {
      forall id | id in probeable ensures Raceable(e.profiles, id) {
        ProbeableMeans(e.profiles, id);
      }
      BeginRaceIsRight(e, probeable, against, Recovering);
    }
  }

  /** A probe of one endpoint leaves every other as usable as it was, and makes its own unusable only on
      the probe that says so. */
  lemma ProbeChangesOneEndpoint(endpoints: seq<Endpoint>, at: nat, health: Health.EndpointHealth, id: EndpointId)
    requires UniqueEndpoints(endpoints) && at < |endpoints|
    ensures var after := endpoints[at := endpoints[at].(health := health)];
            && UniqueEndpoints(after)
            && (id != endpoints[at].id ==> (IsUsable(after, id) <==> IsUsable(endpoints, id)))
            && (id == endpoints[at].id ==> FindEndpoint(after, id) == Some(at))
  {
    var after := endpoints[at := endpoints[at].(health := health)];
    SameEndpointPlaces(after, endpoints, id);
  }

  lemma {:induction false} SameEndpointPlaces(a: seq<Endpoint>, b: seq<Endpoint>, id: EndpointId)
    requires |a| == |b| && forall i :: 0 <= i < |a| ==> a[i].id == b[i].id
    ensures FindEndpoint(a, id) == FindEndpoint(b, id)
  {
    if a != [] && a[0].id != id {
      SameEndpointPlaces(a[1..], b[1..], id);
    }
  }

  /** Saying why, stopping, and starting again leaves the same kind of thing running. */
  lemma ReplaceIsDisciplined(talk: Action, stop: Action, start: Action)
    requires talk.Emit?
    ensures stop == StopTunnel && start.StartTunnel? ==> Replay(Some(TunnelOn), [talk, stop, start]) == Some(TunnelOn)
    ensures stop == CancelRace && start.StartRace? ==> Replay(Some(RaceOn), [talk, stop, start]) == Some(RaceOn)
  {
    var w := if stop == StopTunnel then TunnelOn else RaceOn;
    assert [talk, stop, start] == [talk] + [stop] + [start];
    ReplayConcat(Some(w), [talk] + [stop], [start]);
    ReplayLast(Some(w), [talk], stop);
    ReplayLast(Act(Some(w), stop), [], start);
    assert [] + [start] == [start];
  }

  lemma RelocateTunnelIsRight(e: Engine, profile: ProfileId, active: EndpointId)
    requires Ready(e) && e.raced == [] && Viable(e.profiles, profile) && !IsUsable(e.endpoints, active)
    ensures RelocateTunnel(e, profile, active).Some?
    ensures Right(TunnelOn, RelocateTunnel(e, profile, active).value)
  {
    MigrationIsSound(e.endpoints, active);
    match PlanMigration(e.endpoints, active) {
      case MoveTo(to) => ReplaceIsDisciplined(Emit(EndpointMigrated(active, to)), StopTunnel, StartTunnel(profile, to));
      case NoneReachable => FailIsRight(e, NoEndpointReachable, true);
    }
  }

  lemma RelocateRaceIsRight(e: Engine, active: EndpointId)
    requires Ready(e) && e.phase.Racing() && e.raced != [] && AllRaceable(e.profiles, e.raced)
            && !IsUsable(e.endpoints, active)
    ensures RelocateRace(e, active).Some?
    ensures Right(RaceOn, RelocateRace(e, active).value)
  {
    MigrationIsSound(e.endpoints, active);
    match PlanMigration(e.endpoints, active) {
      case MoveTo(to) => ReplaceIsDisciplined(Emit(EndpointMigrated(active, to)), CancelRace, StartRace(e.raced, to));
      case NoneReachable =>
        FailIsRight(e, NoEndpointReachable, false);
        RightAfterStop(RaceOn, [], CancelRace, Fail(e, NoEndpointReachable, false));
        assert [] + [CancelRace] == [CancelRace];
    }
  }

  lemma EndpointProbeIsRight(e: Engine, id: EndpointId, outcome: Health.ProbeOutcome, now: Time)
    requires Inv(e)
    ensures Right(WorldOf(e.phase), OnEndpointProbe(e, id, outcome, now))
  {
    var at := FindEndpoint(e.endpoints, id);
    if at.Some? {
      var known := e.endpoints[at.value];
      var t := Health.Probed(known.health, outcome, now, Health.DEFAULT_UNREACHABLE_AFTER);
      var f := e.(endpoints := e.endpoints[at.value := known.(health := t.next)]);
      ProbeChangesOneEndpoint(e.endpoints, at.value, t.next, id);
      if e.endpoint.Some? {
        ProbeChangesOneEndpoint(e.endpoints, at.value, t.next, e.endpoint.value);
      }
      if e.endpoint == Some(id) && t.becameUnreachable {
        assert !IsUsable(f.endpoints, id);
        if e.phase.Tunnelling() {
          RelocateTunnelIsRight(f, e.phase.profile, id);
        } else if e.phase.Racing() {
          RelocateRaceIsRight(f, id);
        }
      }
    }
  }

  /** Every step keeps the invariant, and its actions take what is running to what the new phase says is
      running: nothing is started while something runs, and nothing is stopped that is not running. */
  lemma StepIsRight(e: Engine, input: Input, now: Time)
    requires Inv(e)
    ensures CanStep(e) && Right(Before(e, input), Stepped(e, input, now))
  {
    match input {
      case Connect(profile) => ConnectIsRight(e, profile);
      case Disconnect => DisconnectIsRight(e);
      case RaceFinished(decision, results) => RaceFinishedIsRight(e, decision, results, now);
      case TunnelUp => TunnelUpIsRight(e, now);
      case StartFailed(cause) => if e.phase.Starting? { FailIsRight(e, cause, true); }
      case Check(check) => CheckIsRight(e, check, now);
      case EndpointProbe(id, outcome) => EndpointProbeIsRight(e, id, outcome, now);
      case SetEnvironment(environment) =>
      case PathChanged(from, to) => TalkChangesNothing(Some(WorldOf(e.phase)), OnPathChanged(e, from, to).1);
      case Connectivity(change) => TalkChangesNothing(Some(WorldOf(e.phase)), OnConnectivity(e, change).1);
      case SetReach(reach) =>
    }
  }
}
