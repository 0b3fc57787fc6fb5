/** Ranking endpoints by health, and leaving one that stopped answering. */
module Endpoints {
  import opened Common
  import opened Quality
  import opened Health

  type EndpointId = nat

  datatype Endpoint = Endpoint(id: EndpointId, health: EndpointHealth, enabled: bool)

  predicate IsCandidate(e: Endpoint) { e.enabled && e.health.state != Unreachable }

  function StateRank(s: HealthState): nat {
    match s case Healthy => 0 case Degraded => 1 case Unknown => 2 case Unreachable => 3
  }

  /** An endpoint with no round trip yet sorts after those that have one. */
  predicate NoSlower(a: Estimate, b: Estimate) {
    b.srtt.None? || (a.srtt.Some? && a.srtt.value <= b.srtt.value)
  }

  predicate RanksNoLower(a: Endpoint, b: Endpoint) {
    var (x, y) := (StateRank(a.health.state), StateRank(b.health.state));
    x < y || (x == y && NoSlower(a.health.estimate, b.health.estimate))
  }

  function RankOrder(): (Endpoint, Endpoint) -> bool { (a: Endpoint, b: Endpoint) => RanksNoLower(a, b) }

  function CandidateTest(): Endpoint -> bool { (e: Endpoint) => IsCandidate(e) }

  function IdOf(): Endpoint -> EndpointId { (e: Endpoint) => e.id }

  function Ranked(endpoints: seq<Endpoint>): seq<Endpoint> {
    StableSort(Filter(endpoints, CandidateTest()), RankOrder())
  }

  /** Candidates, best first. */
  function Rank(endpoints: seq<Endpoint>): seq<EndpointId> { Map(Ranked(endpoints), IdOf()) }

  predicate UniqueEndpoints(endpoints: seq<Endpoint>) {
    forall i, j :: 0 <= i < j < |endpoints| ==> endpoints[i].id != endpoints[j].id
  }

  function FindEndpoint(endpoints: seq<Endpoint>, id: EndpointId): (r: Option<nat>)
    ensures r.Some? ==> r.value < |endpoints| && endpoints[r.value].id == id
    ensures r.Some? ==> forall i :: 0 <= i < r.value ==> endpoints[i].id != id
    ensures r.None? ==> forall i :: 0 <= i < |endpoints| ==> endpoints[i].id != id
  {
    if endpoints == [] then None
    else if endpoints[0].id == id then Some(0)
    else
      var rest := FindEndpoint(endpoints[1..], id);
      if rest.None? then None else Some(rest.value + 1)
  }

  /** The endpoint of this identifier is there and may be used. */
  predicate IsUsable(endpoints: seq<Endpoint>, id: EndpointId) {
    var at := FindEndpoint(endpoints, id);
    at.Some? && IsCandidate(endpoints[at.value])
  }

  /** The ranking holds exactly the candidates, best first, ties in the order given. */
  lemma RankIsBestFirst(endpoints: seq<Endpoint>)
    ensures forall e :: e in Ranked(endpoints) <==> e in endpoints && e.enabled && e.health.state != Unreachable
    ensures Sorted(Ranked(endpoints), RankOrder())
    ensures |Rank(endpoints)| == |Ranked(endpoints)|
  {
    var candidates := Filter(endpoints, CandidateTest());
    SameElements(Ranked(endpoints), candidates);
    StableSortSorted(candidates, RankOrder());
  }

  /** Endpoints of equal rank keep the order they were given in. */
  lemma RankIsStable(endpoints: seq<Endpoint>, same: Endpoint -> bool)
    requires forall x, y :: same(x) && same(y) ==> RanksNoLower(x, y)
    ensures Filter(Ranked(endpoints), same) == Filter(Filter(endpoints, CandidateTest()), same)
  {
    StableSortKeepsOrder(Filter(endpoints, CandidateTest()), RankOrder(), same);
  }

  datatype Migration = Remain | MoveTo(to: EndpointId) | NoneReachable

  /** Whether to leave `active`, and for where. */
  function PlanMigration(endpoints: seq<Endpoint>, active: EndpointId): Migration {
    if IsUsable(endpoints, active) then Remain
    else if Rank(endpoints) == [] then NoneReachable
    else MoveTo(Rank(endpoints)[0])
  }

  lemma HeadOutranks(endpoints: seq<Endpoint>, e: Endpoint)
    requires e in endpoints && IsCandidate(e)
    ensures Ranked(endpoints) != [] && RanksNoLower(Ranked(endpoints)[0], e)
  {
    RankIsBestFirst(endpoints);
    var ranked := Ranked(endpoints);
    var j :| 0 <= j < |ranked| && ranked[j] == e;
    if j > 0 { assert RankOrder()(ranked[0], ranked[j]); }
  }

  lemma FoundInPlace(endpoints: seq<Endpoint>, e: Endpoint)
    requires UniqueEndpoints(endpoints) && e in endpoints
    ensures FindEndpoint(endpoints, e.id).Some? && endpoints[FindEndpoint(endpoints, e.id).value] == e
  {
  }

  /** The head of the ranking is a usable endpoint that no usable endpoint outranks. */
  lemma RankHeadIsUsable(endpoints: seq<Endpoint>)
    requires UniqueEndpoints(endpoints)
    ensures Rank(endpoints) == [] <==> forall e :: e in endpoints ==> !IsCandidate(e)
    ensures Rank(endpoints) != [] ==>
              && IsUsable(endpoints, Rank(endpoints)[0])
              && forall e :: e in endpoints && IsCandidate(e)
                             ==> RanksNoLower(endpoints[FindEndpoint(endpoints, Rank(endpoints)[0]).value], e)
  {
    forall e | e in endpoints && IsCandidate(e)
      ensures Ranked(endpoints) != [] && RanksNoLower(Ranked(endpoints)[0], e)
    {
      HeadOutranks(endpoints, e);
    }
    RankIsBestFirst(endpoints);
    if Ranked(endpoints) != [] {
      assert Ranked(endpoints)[0] in Ranked(endpoints);
      FoundInPlace(endpoints, Ranked(endpoints)[0]);
    }
  }

  /** A usable endpoint is kept; an unusable one is left for the best usable endpoint, never for itself;
      and only when there is none is there nowhere to go. */
  lemma MigrationIsSound(endpoints: seq<Endpoint>, active: EndpointId)
    requires UniqueEndpoints(endpoints)
    ensures match PlanMigration(endpoints, active)
            case Remain => IsUsable(endpoints, active)
            case MoveTo(to) =>
              && !IsUsable(endpoints, active) && to != active && IsUsable(endpoints, to)
              && forall e :: e in endpoints && IsCandidate(e) ==>
                   RanksNoLower(endpoints[FindEndpoint(endpoints, to).value], e)
            case NoneReachable => forall e :: e in endpoints ==> !IsCandidate(e)
  {
    RankHeadIsUsable(endpoints);
  }

  /** Earlier in the ranking means a better state (healthy, then degraded, then unknown) and, in the same state,
      a round trip that is known and no longer, or none known of either. */
  lemma RankByComponents(endpoints: seq<Endpoint>, i: nat, j: nat)
    requires i < j < |Ranked(endpoints)|
    ensures var (a, b) := (Ranked(endpoints)[i].health, Ranked(endpoints)[j].health);
            && (a.state == Healthy || (a.state == Degraded && b.state != Healthy)
                || (a.state == Unknown && b.state == Unknown))
            && (a.state == b.state && b.estimate.srtt.Some? ==>
                  a.estimate.srtt.Some? && a.estimate.srtt.value <= b.estimate.srtt.value)
  {
    RankIsBestFirst(endpoints);
    var ranked := Ranked(endpoints);
    assert ranked[i] in ranked && ranked[j] in ranked;
    assert RankOrder()(ranked[i], ranked[j]);
  }
}
