/** Why a connection fails, told apart in order from the most fundamental cause. */
module FailureCauses {
  import opened Common
  import opened ProbeRacing
  import opened Reprobing

  datatype Core = PrimaryCore | AmneziaWgCore

  /** What is wrong with the configuration; the wording shown to the user is not modelled. */
  datatype ConfigProblem = Stated(text: string) | NoEndpointConfigured | NoProfileDefined
                         | NoSuchProfile(profile: ProfileId) | NamedProfileFailed(profile: ProfileId)

  datatype FailureCause = NoEndpointReachable | AllProfilesBlocked | CaptivePortalUnsatisfied | InsufficientPrivilege
                        | CoreFailedPersistently(core: Core) | NoUsablePath
                        | ConfigurationInvalid(detail: ConfigProblem)

  /** Whether an endpoint answered a plain check made outside any profile. */
  datatype Reach = Reached | Unreached | NotKnown

  datatype Situation = Situation(
    privileged: bool, configurationError: Option<string>, coreFailed: Option<Core>, usablePaths: nat,
    captivePortal: bool, endpointReach: seq<Reach>, profiles: seq<Profile>)

  predicate AllBlocked(profiles: seq<Profile>) { forall p :: p in profiles ==> p.viability.Blocked? }

  function Classify(s: Situation): Option<FailureCause> {
    if !s.privileged then Some(InsufficientPrivilege)
    else if s.configurationError.Some? then Some(ConfigurationInvalid(Stated(s.configurationError.value)))
    else if s.endpointReach == [] then Some(ConfigurationInvalid(NoEndpointConfigured))
    else if s.profiles == [] then Some(ConfigurationInvalid(NoProfileDefined))
    else if s.coreFailed.Some? then Some(CoreFailedPersistently(s.coreFailed.value))
    else if s.usablePaths == 0 then Some(NoUsablePath)
    else if s.captivePortal then Some(CaptivePortalUnsatisfied)
    else if forall r :: r in s.endpointReach ==> r == Unreached then Some(NoEndpointReachable)
    else if AllBlocked(s.profiles) then Some(AllProfilesBlocked)
    else None
  }

  /** How fundamental a cause is: the lowest is named. */
  function Depth(c: FailureCause): nat {
    match c
    case InsufficientPrivilege => 0
    case ConfigurationInvalid(Stated(_)) => 1
    case ConfigurationInvalid(NoEndpointConfigured) => 2
    case ConfigurationInvalid(NoProfileDefined) => 3
    case CoreFailedPersistently(_) => 4
    case NoUsablePath => 5
    case CaptivePortalUnsatisfied => 6
    case NoEndpointReachable => 7
    case AllProfilesBlocked => 8
    case ConfigurationInvalid(_) => 9
  }

  /** The cause is at work, whatever else is. */
  ghost predicate Present(s: Situation, c: FailureCause) {
    match c
    case InsufficientPrivilege => !s.privileged
    case ConfigurationInvalid(Stated(text)) => s.configurationError == Some(text)
    case ConfigurationInvalid(NoEndpointConfigured) => |s.endpointReach| == 0
    case ConfigurationInvalid(NoProfileDefined) => |s.profiles| == 0
    case CoreFailedPersistently(core) => s.coreFailed == Some(core)
    case NoUsablePath => s.usablePaths == 0
    case CaptivePortalUnsatisfied => s.captivePortal
    case NoEndpointReachable => forall i :: 0 <= i < |s.endpointReach| ==> s.endpointReach[i] == Unreached
    case AllProfilesBlocked => forall i :: 0 <= i < |s.profiles| ==> s.profiles[i].viability.Blocked?
    case ConfigurationInvalid(_) => false
  }

  /** The most fundamental cause at work is the one named, and none is named exactly when none is at work. */
  lemma ClassifyExactly(s: Situation)
    ensures forall c :: Classify(s) == Some(c) <==> Present(s, c) && forall d :: Present(s, d) ==> Depth(c) <= Depth(d)
    ensures Classify(s) == None <==> forall c :: !Present(s, c)
  {
    PresentAreSeen(s);
    var named := Classify(s);
    if named.Some? {
      forall d | Present(s, d)
        ensures Depth(named.value) <= Depth(d) && (Depth(d) == Depth(named.value) ==> d == named.value)
      {
        if Depth(d) == Depth(named.value) { SameDepthSameCause(s, named.value, d); }
      }
    }
  }

  lemma PresentAreSeen(s: Situation)
    ensures Present(s, NoEndpointReachable) <==> forall r :: r in s.endpointReach ==> r == Unreached
    ensures Present(s, AllProfilesBlocked) <==> AllBlocked(s.profiles)
  {
    assert (forall r :: r in s.endpointReach ==> r == Unreached) ==>
        forall i :: 0 <= i < |s.endpointReach| ==> s.endpointReach[i] in s.endpointReach;
    assert AllBlocked(s.profiles) ==> forall i :: 0 <= i < |s.profiles| ==> s.profiles[i] in s.profiles;
  }

  lemma SameDepthSameCause(s: Situation, c: FailureCause, d: FailureCause)
    requires Present(s, c) && Present(s, d) && Depth(c) == Depth(d)
    ensures c == d
  {
  }
}
