/** The connection engine: what each input does to the state, and what it asks to be done. */
module EngineSpec {
  import opened Common
  import opened DegradationReporting
  import opened ProbeRacing
  import opened Reprobing
  import opened FailureCauses
  import opened Endpoints
  import Health

  datatype Phase = Idle | Probing | Starting(profile: ProfileId, endpoint: EndpointId)
                 | Connected(profile: ProfileId, endpoint: EndpointId) | Recovering | Broken(cause: FailureCause) {
    /** A race is being run. */
    predicate Racing() { Probing? || Recovering? }
    /** A tunnel is being brought up or is up. */
    predicate Tunnelling() { Starting? || Connected? }
  }

  datatype Environment = Environment(privileged: bool, usablePaths: nat, captivePortal: bool,
                                     configurationError: Option<string>) {
    predicate Clean() { privileged && usablePaths > 0 && !captivePortal && configurationError.None? }
  }

  const DEFAULT_ENVIRONMENT := Environment(true, 1, false, None)

  datatype Input =
    | Connect(profile: Option<ProfileId>)
    | Disconnect
    | RaceFinished(decision: RaceDecision, results: seq<(ProfileId, ProfileProbe)>)
    | TunnelUp
    | StartFailed(cause: FailureCause)
    | Check(check: LiveCheck)
    | EndpointProbe(probed: EndpointId, outcome: Health.ProbeOutcome)
    | SetEnvironment(environment: Environment)
    | PathChanged(from: Option<InterfaceId>, to: InterfaceId)
    | Connectivity(change: Change)
    | SetReach(reach: seq<Reach>)

  /** What is recorded on the session. The words that explain each event are not modelled. */
  datatype Event =
    | ProbeStarted
    | ProfileSelected(profile: ProfileId)
    | ProfileBlocked(profile: ProfileId, reason: BlockReason)
    | EndpointMigrated(from: EndpointId, to: EndpointId)
    | CarrierChanged(left: Option<InterfaceId>, now: InterfaceId, tier: Tier)
    | QualityChanged(change: Change)
    | GaveUp(cause: FailureCause)

  datatype Action =
    | Emit(event: Event)
    | StartRace(profiles: seq<ProfileId>, against: EndpointId)
    | CancelRace
    | StartTunnel(profile: ProfileId, against: EndpointId)
    | StopTunnel
    | WarnTier2(profile: ProfileId)

  datatype Engine = Engine(
    profiles: seq<Profile>, endpoints: seq<Endpoint>, phase: Phase, environment: Environment, reach: seq<Reach>,
    watch: Watch, endpoint: Option<EndpointId>, raced: seq<ProfileId>, replacing: Option<ProfileId>,
    requested: Option<ProfileId>)

  type Effect = (Engine, seq<Action>)

  function NewEngine(profiles: seq<Profile>, endpoints: seq<Endpoint>): Engine {
    Engine(profiles, endpoints, Idle, DEFAULT_ENVIRONMENT, [], FRESH_WATCH, None, [], None, None)
  }

  // ------------------------------------------------------------------ profiles

  function PlaceOf(profiles: seq<Profile>, id: ProfileId): (r: Option<nat>)
    ensures r.Some? ==> r.value < |profiles| && profiles[r.value].id == id
    ensures r.Some? ==> forall i :: 0 <= i < r.value ==> profiles[i].id != id
    ensures r.None? ==> forall i :: 0 <= i < |profiles| ==> profiles[i].id != id
  {
    if profiles == [] then None
    else if profiles[0].id == id then Some(0)
    else
      var rest := PlaceOf(profiles[1..], id);
      if rest.None? then None else Some(rest.value + 1)
  }

  /** The profile of this identifier, if there is one, becomes `viability`. */
  function Marked(profiles: seq<Profile>, id: ProfileId, viability: Viability): seq<Profile> {
    var at := PlaceOf(profiles, id);
    if at.None? then profiles else profiles[at.value := profiles[at.value].(viability := viability)]
  }

  function BlockedEvent(profiles: seq<Profile>, id: ProfileId, reason: BlockReason): seq<Action> {
    if PlaceOf(profiles, id).None? then [] else [Emit(ProfileBlocked(id, reason))]
  }

  predicate IsProbeable(profiles: seq<Profile>, id: ProfileId) {
    exists p :: p in profiles && p.id == id && p.kind.Probeable()
  }

  function ProbeableTest(): Profile -> bool { (p: Profile) => p.kind.Probeable() }

  function ProbeableIds(profiles: seq<Profile>): seq<ProfileId> {
    Map(Filter(profiles, ProbeableTest()), Reprobing.IdOf())
  }

  function ResetOne(): Profile -> Profile { (p: Profile) => p.(viability := Untested) }

  function LastResortTest(): Profile -> bool { (p: Profile) => !p.kind.Probeable() && p.viability.Untested? }

  /** A profile that can only be tried by bringing it up, once every other has failed. */
  function DirectFallback(profiles: seq<Profile>): Option<ProfileId> {
    var untried := Filter(profiles, LastResortTest());
    if (exists p :: p in profiles && p.kind.Probeable() && !p.viability.Blocked?) || untried == [] then None
    else Some(untried[0].id)
  }

  predicate IsTier2(profiles: seq<Profile>, id: ProfileId) {
    var at := PlaceOf(profiles, id);
    at.Some? && profiles[at.value].tier == Tier2
  }

  // ------------------------------------------------------------------ shared endings

  function SituationOf(e: Engine, afterRace: bool): Situation {
    var reach := seq(|e.endpoints|, i => if afterRace && 0 <= i < |e.reach| then e.reach[i] else NotKnown);
    Situation(e.environment.privileged, e.environment.configurationError, None, e.environment.usablePaths,
              e.environment.captivePortal, reach, e.profiles)
  }

  function Diagnose(e: Engine, afterRace: bool): Option<FailureCause> { Classify(SituationOf(e, afterRace)) }

  function Fail(e: Engine, cause: FailureCause, stop: bool): Effect {
    (e.(phase := Broken(cause), raced := [], replacing := None),
     (if stop then [StopTunnel] else []) + [Emit(GaveUp(cause))])
  }

  function BeginRace(e: Engine, profiles: seq<ProfileId>, against: EndpointId, phase: Phase): Effect {
    (e.(raced := profiles, phase := phase),
     (if phase == Probing then [Emit(ProbeStarted)] else []) + [StartRace(profiles, against)])
  }

  function BringUp(e: Engine, profile: ProfileId, against: EndpointId): Effect {
    (e.(watch := FRESH_WATCH, phase := Starting(profile, against)),
     [Emit(ProfileSelected(profile))]
     + (if IsTier2(e.profiles, profile) then [WarnTier2(profile)] else [])
     + [StartTunnel(profile, against)])
  }

  function After(actions: seq<Action>, effect: Effect): Effect { (effect.0, actions + effect.1) }

  // ------------------------------------------------------------------ connect and disconnect

  function Forgotten(e: Engine, requested: Option<ProfileId>): Engine {
    e.(profiles := Map(e.profiles, ResetOne()), watch := FRESH_WATCH, raced := [], replacing := None, reach := [],
       requested := requested)
  }

  predicate AcceptsConnect(e: Engine) { e.phase.Idle? || e.phase.Broken? }

  function OnConnect(e: Engine, requested: Option<ProfileId>): Effect {
    if !AcceptsConnect(e) then (e, [])
    else
      var e := Forgotten(e, requested);
      ConnectUnless(e, Diagnose(e, false), requested)
  }

  function ConnectUnless(e: Engine, cause: Option<FailureCause>, requested: Option<ProfileId>): Effect {
    if cause.Some? then Fail(e, cause.value, false)
    else if requested.Some? && PlaceOf(e.profiles, requested.value).None? then
      Fail(e, ConfigurationInvalid(NoSuchProfile(requested.value)), false)
    else ConnectAnywhere(e, requested)
  }

  function ConnectAnywhere(e: Engine, requested: Option<ProfileId>): Effect {
    var ranked := Rank(e.endpoints);
    if ranked == [] then Fail(e, NoEndpointReachable, false)
    else ConnectThrough(e.(endpoint := Some(ranked[0])), requested, ranked[0])
  }

  function ConnectThrough(e: Engine, requested: Option<ProfileId>, against: EndpointId): Effect {
    if requested.Some? then
      if IsProbeable(e.profiles, requested.value) then BeginRace(e, [requested.value], against, Probing)
      else BringUp(e, requested.value, against)
    else
      var probeable := ProbeableIds(e.profiles);
      if probeable != [] then BeginRace(e, probeable, against, Probing)
      else
        var direct := DirectFallback(e.profiles);
        if direct.Some? then BringUp(e, direct.value, against) else Fail(e, AllProfilesBlocked, false)
  }

  function OnDisconnect(e: Engine): Effect {
    (e.(phase := Idle, raced := [], replacing := None),
     if e.phase.Racing() then [CancelRace] else if e.phase.Tunnelling() then [StopTunnel] else [])
  }

  // ------------------------------------------------------------------ the race

  /** A result for the race in progress, not a late one from an abandoned race. */
  predicate AcceptsRace(e: Engine, decision: RaceDecision) {
    e.phase.Racing() && decision != StillPending && (decision.Selected? ==> decision.profile in e.raced)
  }

  function ViabilityFrom(probe: ProfileProbe, now: Time): Viability {
    match Judge(probe)
    case Usable(_) => Working(now)
    case NotUsable(why) => Blocked(now, ProbeFailed(why))
  }

  /** What the reports say of the profiles they name, in order. */
  function Noted(profiles: seq<Profile>, results: seq<(ProfileId, ProfileProbe)>, now: Time)
    : (seq<Profile>, seq<Action>)
  {
    if results == [] then (profiles, [])
    else
      var n := |results| - 1;
      var (before, actions) := Noted(profiles, results[..n], now);
      var viability := ViabilityFrom(results[n].1, now);
      (Marked(before, results[n].0, viability),
       actions + if viability.Blocked? then BlockedEvent(before, results[n].0, viability.reason) else [])
  }

  predicate Reports(results: seq<(ProfileId, ProfileProbe)>, id: ProfileId) {
    exists i :: 0 <= i < |results| && results[i].0 == id
  }

  function SilentTest(results: seq<(ProfileId, ProfileProbe)>): ProfileId -> bool {
    (id: ProfileId) => !Reports(results, id)
  }

  function Silenced(profiles: seq<Profile>, ids: seq<ProfileId>, now: Time): (seq<Profile>, seq<Action>) {
    if ids == [] then (profiles, [])
    else
      var n := |ids| - 1;
      var (before, actions) := Silenced(profiles, ids[..n], now);
      (Marked(before, ids[n], Blocked(now, NoResponse)), actions + BlockedEvent(before, ids[n], NoResponse))
  }

  /** The reports, then the silence when nobody won, then the winner. */
  function Learned(e: Engine, decision: RaceDecision, results: seq<(ProfileId, ProfileProbe)>, now: Time): Effect {
    var (noted, said) := Noted(e.profiles, results, now);
    var (silenced, silence) :=
      if decision == NoneUsable then Silenced(noted, Filter(e.raced, SilentTest(results)), now) else (noted, []);
    var known := if decision.Selected? then Marked(silenced, decision.profile, Working(now)) else silenced;
    (e.(profiles := known, raced := []), said + silence)
  }

  function OnRaceFinished(e: Engine, decision: RaceDecision, results: seq<(ProfileId, ProfileProbe)>, now: Time): Effect
    requires e.phase.Racing() ==> e.endpoint.Some?
  {
    if !AcceptsRace(e, decision) then (e, [])
    else
      var (learned, said) := Learned(e, decision, results, now);
      After(said, if decision.Selected? then BringUp(learned, decision.profile, e.endpoint.value)
                  else NobodyWon(learned, e.phase == Recovering, e.endpoint.value))
  }

  function NobodyWon(e: Engine, recovering: bool, against: EndpointId): Effect {
    var cause := Diagnose(e, true);
    var direct := DirectFallback(e.profiles);
    if cause.Some? then Fail(e, cause.value, false)
    else if !recovering && e.requested.Some? then
      Fail(e, ConfigurationInvalid(NamedProfileFailed(e.requested.value)), false)
    else if direct.Some? then BringUp(e, direct.value, against)
    else Fail(e, AllProfilesBlocked, false)
  }

  // ------------------------------------------------------------------ the tunnel

  function OnTunnelUp(e: Engine, now: Time): Effect {
    if !e.phase.Starting? then (e, [])
    else
      (e.(profiles := Marked(e.profiles, e.phase.profile, Working(now)), watch := FRESH_WATCH, replacing := None,
          phase := Connected(e.phase.profile, e.phase.endpoint)), [])
  }

  function OnPathChanged(e: Engine, from: Option<InterfaceId>, to: InterfaceId): Effect {
    if !e.phase.Connected? then (e, [])
    else
      var at := PlaceOf(e.profiles, e.phase.profile);
      (e, if at.None? then [] else [Emit(CarrierChanged(from, to, e.profiles[at.value].tier))])
  }

  function OnConnectivity(e: Engine, change: Change): Effect {
    (e, if e.phase.Connected? then [Emit(QualityChanged(change))] else [])
  }

  function OnCheck(e: Engine, check: LiveCheck, now: Time): Effect {
    if !e.phase.Connected? then (e, [])
    else
      var (watch, detection) := Checked(e.watch, check);
      var e := e.(watch := watch);
      if !detection.IsBlocked? then (e, [])
      else
        var cause := Diagnose(e, false);
        if cause.Some? then Fail(e, cause.value, true)
        else
          var moved := RelocateTunnel(e, e.phase.profile, e.phase.endpoint);
          if moved.Some? then moved.value else Blame(e, e.phase.profile, e.phase.endpoint, detection.failures, now)
  }

  /** The carrying profile is blocked: stop, and look for another. */
  function Blame(e: Engine, profile: ProfileId, against: EndpointId, failures: nat, now: Time): Effect {
    var reason := LiveChecksFailed(failures);
    var said := BlockedEvent(e.profiles, profile, reason) + [StopTunnel];
    var e := e.(profiles := Marked(e.profiles, profile, Blocked(now, reason)), replacing := Some(profile));
    var candidates := PlanReprobe(e.profiles, profile);
    After(said, Retry(e, candidates, against))
  }

  function ProbeableIdTest(profiles: seq<Profile>): ProfileId -> bool { (id: ProfileId) => IsProbeable(profiles, id) }

  function Retry(e: Engine, candidates: seq<ProfileId>, against: EndpointId): Effect {
    var probeable := Filter(candidates, ProbeableIdTest(e.profiles));
    if candidates == [] then Fail(e, AllProfilesBlocked, false)
    else if probeable == [] then BringUp(e, candidates[0], against)
    else BeginRace(e, probeable, against, Recovering)
  }

  // ------------------------------------------------------------------ the endpoint

  function RelocateTunnel(e: Engine, profile: ProfileId, active: EndpointId): Option<Effect> {
    match PlanMigration(e.endpoints, active)
    case Remain => None
    case MoveTo(to) =>
      Some((e.(endpoint := Some(to), watch := FRESH_WATCH, phase := Starting(profile, to)),
            [Emit(EndpointMigrated(active, to)), StopTunnel, StartTunnel(profile, to)]))
    case NoneReachable => Some(Fail(e, NoEndpointReachable, true))
  }

  function RelocateRace(e: Engine, active: EndpointId): Option<Effect> {
    match PlanMigration(e.endpoints, active)
    case Remain => None
    case MoveTo(to) =>
      Some((e.(endpoint := Some(to)), [Emit(EndpointMigrated(active, to)), CancelRace, StartRace(e.raced, to)]))
    case NoneReachable => Some(After([CancelRace], Fail(e, NoEndpointReachable, false)))
  }

  function OnEndpointProbe(e: Engine, id: EndpointId, outcome: Health.ProbeOutcome, now: Time): Effect {
    var at := FindEndpoint(e.endpoints, id);
    if at.None? then (e, [])
    else
      var known := e.endpoints[at.value];
      var t := Health.Probed(known.health, outcome, now, Health.DEFAULT_UNREACHABLE_AFTER);
      var e := e.(endpoints := e.endpoints[at.value := known.(health := t.next)]);
      var moved :=
        if e.endpoint != Some(id) || !t.becameUnreachable then None
        else if e.phase.Tunnelling() then RelocateTunnel(e, e.phase.profile, id)
        else if e.phase.Racing() then RelocateRace(e, id)
        else None;
      if moved.Some? then moved.value else (e, [])
  }

  // ------------------------------------------------------------------ one step

  /** A race always has an endpoint. */
  predicate CanStep(e: Engine) { e.phase.Racing() ==> e.endpoint.Some? }

  function Stepped(e: Engine, input: Input, now: Time): Effect
    requires CanStep(e)
  {
    match input
    case Connect(profile) => OnConnect(e, profile)
    case Disconnect => OnDisconnect(e)
    case RaceFinished(decision, results) => OnRaceFinished(e, decision, results, now)
    case TunnelUp => OnTunnelUp(e, now)
    case StartFailed(cause) => if e.phase.Starting? then Fail(e, cause, true) else (e, [])
    case Check(check) => OnCheck(e, check, now)
    case EndpointProbe(id, outcome) => OnEndpointProbe(e, id, outcome, now)
    case SetEnvironment(environment) => (e.(environment := environment), [])
    case PathChanged(from, to) => OnPathChanged(e, from, to)
    case Connectivity(change) => OnConnectivity(e, change)
    case SetReach(reach) => (e.(reach := reach), [])
  }
}
