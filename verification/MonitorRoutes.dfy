/** Roles and routes: exactly one path carries, and the monitor's reports let a client keep the tunnel's
    host route on the carrying path's gateway. */
module MonitorRoutes {
  import opened Common
  import opened Quality
  import opened Failover
  import opened PathMonitoring
  import opened MonitorRuns

  // ------------------------------------------------------------------ roles

  lemma RolesMarkExactlyOne(m: Monitor, id: InterfaceId, i: nat)
    requires UniqueIds(m.paths) && m.state.carrying == Some(id)
    requires i < |m.paths| && m.paths[i].id == id && Usable(m.paths[i])
    ensures WithRoles(m).paths[i].role == Carrying
    ensures forall j :: 0 <= j < |m.paths| && j != i ==> WithRoles(m).paths[j].role != Carrying
  {
  }

  /** The place of the path a decision leaves carrying. */
  lemma CarryingPlace(m: Monitor, now: Time) returns (i: nat)
    requires Evaluated(m.state, Evidence(m, now), now, m.cfg).1 != NoPath
    ensures i < |m.paths| && Usable(m.paths[i])
    ensures Evaluated(m.state, Evidence(m, now), now, m.cfg).0.carrying == Some(m.paths[i].id)
  {
    EvaluatedCarriesOnAUsablePath(m.state, Evidence(m, now), now, m.cfg);
    var carrying := Evaluated(m.state, Evidence(m, now), now, m.cfg).0.carrying;
    var p :| p in Evidence(m, now) && Usable(p) && carrying == Some(p.id);
    i :| 0 <= i < |m.paths| && Evidence(m, now)[i] == p;
  }

  lemma RolesMarkNone(m: Monitor)
    requires m.state.carrying.None?
    ensures forall j :: 0 <= j < |m.paths| ==> WithRoles(m).paths[j].role != Carrying
  {
  }

  /** After a decision the path that carries, and no other, has the role `Carrying`; no path has it
      exactly when there was no path. */
  lemma DecisionMarksExactlyOne(m: Monitor, now: Time) returns (i: nat)
    requires UniqueIds(m.paths)
    ensures var (next, decision) := Decided(m, now);
            && (decision == NoPath <==> forall j :: 0 <= j < |next.paths| ==> next.paths[j].role != Carrying)
            && (decision == NoPath <==> next.state.carrying.None?)
            && (decision != NoPath ==>
                  && i < |next.paths| && next.paths[i].role == Carrying && next.state.carrying == Some(next.paths[i].id)
                  && forall j :: 0 <= j < |next.paths| && j != i ==> next.paths[j].role != Carrying)
  {
    i := 0;
    var (state, decision) := Evaluated(m.state, Evidence(m, now), now, m.cfg);
    EvaluatedCarriesOnAUsablePath(m.state, Evidence(m, now), now, m.cfg);
    if decision != NoPath {
      i := CarryingPlace(m, now);
      RolesMarkExactlyOne(m.(state := state), m.paths[i].id, i);
    } else {
      RolesMarkNone(m.(state := state));
    }
  }

  // ------------------------------------------------------------------ routes

  /** Where the client's host route points: nowhere yet, or at a gateway (an on-link path has none). */
  type Route = Option<Option<Address>>

  /** The client installs the target's gateway on each move, and each reported gateway change. */
  function Followed(route: Route, answer: Answer, after: Monitor): Route {
    match answer
    case Verdict(Move(_, to, _)) =>
      var target := Find(after.paths, to);
      if target.Some? then Some(target.value.gateway) else route
    case Delta(PathsDelta(_, Some(change))) => Some(change.to)
    case _ => route
  }

  function RouteAt(r: Run, a: nat, k: nat, first: Route): Route
    requires r.Shaped() && a <= k <= |r.events|
  {
    if k == a then first else Followed(RouteAt(r, a, k - 1, first), r.answers[k - 1], r.monitors[k])
  }

  /** A refresh has come in since the last decision. */
  predicate Pending(r: Run, a: nat, k: nat)
    requires r.Shaped() && a <= k <= |r.events|
  {
    k > a && (r.events[k - 1].op.Refresh? || (!r.events[k - 1].op.Evaluate? && Pending(r, a, k - 1)))
  }

  function CarryingNow(m: Monitor): Option<NetworkPath> { CarryingPath(m.state, m.paths) }

  /** The route is the carrying path's gateway, whenever the carrying path is listed and up. */
  predicate OnRoute(route: Route, m: Monitor) {
    CarryingNow(m).Some? ==> route == Some(CarryingNow(m).value.gateway)
  }

  lemma SameLinksSameCarrying(s: State, a: seq<NetworkPath>, b: seq<NetworkPath>)
    requires SameLinks(a, b)
    ensures CarryingPath(s, a).Some? <==> CarryingPath(s, b).Some?
    ensures CarryingPath(s, a).Some? ==> SameLink(CarryingPath(s, a).value, CarryingPath(s, b).value)
  {
    if s.carrying.Some? {
      var i := FindSamePlace(a, b, s.carrying.value);
    }
  }

  lemma RouteAfterDecision(m: Monitor, state: State, decision: Decision, i: nat, route: Route)
    requires UniqueIds(m.paths) && OnRoute(route, m)
    requires i < |m.paths| && Usable(m.paths[i]) && state.carrying == Some(m.paths[i].id)
    requires decision == Stay ==> state.carrying == m.state.carrying
    requires decision.Move? ==> decision.to == m.paths[i].id
    requires decision != NoPath
    ensures var next := WithRoles(m.(state := state));
            OnRoute(Followed(route, Verdict(decision), next), next) && CarryingNow(next).Some?
  {
    var next := WithRoles(m.(state := state));
    SameIdsSameUniqueness(next.paths, m.paths);
    FindInPlace(next.paths, i);
    FindInPlace(m.paths, i);
  }

  /** A decision leaves the carrying path listed and up, and the client on its gateway. */
  lemma DecisionKeepsRoute(m: Monitor, now: Time, route: Route)
    requires UniqueIds(m.paths) && OnRoute(route, m)
    ensures var (next, decision) := Decided(m, now);
            && OnRoute(Followed(route, Verdict(decision), next), next)
            && (next.state.carrying.Some? ==> CarryingNow(next).Some?)
            && (CarryingNow(next).None? ==> Followed(route, Verdict(decision), next) == route)
  {
    var (state, decision) := Evaluated(m.state, Evidence(m, now), now, m.cfg);
    EvaluatedCarriesOnAUsablePath(m.state, Evidence(m, now), now, m.cfg);
    if decision != NoPath {
      var i := CarryingPlace(m, now);
      RouteAfterDecision(m, state, decision, i, route);
    }
  }

  lemma NewsOfGateway(m: Monitor, observed: seq<NetworkPath>, id: InterfaceId)
    requires m.state.carrying == Some(id)
    ensures var (before, after) := (Find(m.paths, id), Find(observed, id));
            GatewayNews(m, Map(observed, QualityKeeper(m.paths)))
            == if before.Some? && after.Some? && Usable(after.value) && after.value.gateway != before.value.gateway
               then Some(GatewayChange(id, before.value.gateway, after.value.gateway)) else None
  {
    var kept := Map(observed, QualityKeeper(m.paths));
    var i := FindSamePlace(kept, observed, id);
  }

  /** What a refresh makes of the client's route: it learns of a new gateway only if the carrying path
      was listed before and is up now. */
  lemma RefreshEffect(m: Monitor, observed: seq<NetworkPath>, route: Route)
    requires m.state.carrying.Some?
    ensures var (next, delta) := Refreshed(m, observed);
            var (before, after) := (Find(m.paths, m.state.carrying.value), Find(observed, m.state.carrying.value));
            && next.state == m.state
            && (Find(next.paths, m.state.carrying.value).Some? <==> after.Some?)
            && (after.Some? ==> SameLink(Find(next.paths, m.state.carrying.value).value, after.value))
            && Followed(route, Delta(delta), next)
               == if before.Some? && after.Some? && Usable(after.value) && after.value.gateway != before.value.gateway
                  then Some(after.value.gateway) else route
  {
    var next := Refreshed(m, observed).0;
    RefreshedList(m, observed);
    NewsOfGateway(m, observed, m.state.carrying.value);
    var j := FindSamePlace(next.paths, observed, m.state.carrying.value);
  }

  lemma OtherEventsKeepState(r: Run, k: nat)
    requires r.Valid() && k < |r.events| && !r.events[k].op.Adopt? && !r.events[k].op.Evaluate?
    ensures r.monitors[k + 1].state == r.monitors[k].state
    ensures !r.events[k].op.Refresh? ==> r.answers[k] == Nothing || r.answers[k].Said? || r.answers[k].Due?
  {
    assert r.Follows(k);
  }

  // ------------------------------------------------------------------ when tracking is complete

  /** The list the system gave last. */
  function Listed(r: Run, k: nat): seq<NetworkPath>
    requires k <= |r.events|
  {
    if k == 0 then [] else match r.events[k - 1].op case Refresh(observed) => observed case _ => Listed(r, k - 1)
  }

  lemma {:induction false} ListedIsShown(r: Run, k: nat)
    requires r.Valid() && k <= |r.events|
    ensures SameLinks(r.monitors[k].paths, Listed(r, k))
  {
    if k > 0 {
      ListedIsShown(r, k - 1);
      LinksStep(r, k - 1);
    }
  }

  /** The path that carries, as the system lists it, if its link is up. */
  function CarryingListed(r: Run, k: nat): Option<NetworkPath>
    requires r.Shaped() && k <= |r.events|
  {
    CarryingPath(r.monitors[k].state, Listed(r, k))
  }

  /** The gateway that the carrying path was listed with when it was last up; `first` if it never was. */
  function LastUp(r: Run, a: nat, k: nat, first: Route): Route
    requires r.Shaped() && a <= k <= |r.events|
    decreases k
  {
    if CarryingListed(r, k).Some? then Some(CarryingListed(r, k).value.gateway)
    else if k == a then first
    else LastUp(r, a, k - 1, first)
  }

  /** At this refresh the carrying link is up behind another gateway than when it was last up, and the list
      before did not have it, or had it behind the new gateway already (with the link down). */
  predicate Missed(r: Run, a: nat, i: nat, first: Route)
    requires r.Shaped() && a <= i < |r.events|
  {
    && r.events[i].op.Refresh? && r.monitors[i].state.carrying.Some?
    && var (before, after) := (Find(Listed(r, i), r.monitors[i].state.carrying.value),
                               CarryingPath(r.monitors[i].state, r.events[i].op.observed));
       && after.Some? && LastUp(r, a, i, first) != Some(after.value.gateway)
       && (before.None? || before.value.gateway == after.value.gateway)
  }

  /** At every moment from `a` to `k` the client's route is right. */
  ghost predicate Tracked(r: Run, a: nat, k: nat, first: Route)
    requires r.Shaped() && a <= k <= |r.events|
  {
    forall j :: a <= j <= k ==> OnRoute(RouteAt(r, a, j, first), r.monitors[j])
  }

  lemma ListedCarrying(r: Run, k: nat)
    requires r.Valid() && k <= |r.events|
    ensures CarryingListed(r, k).Some? <==> CarryingNow(r.monitors[k]).Some?
    ensures CarryingListed(r, k).Some? ==>
            CarryingListed(r, k).value.gateway == CarryingNow(r.monitors[k]).value.gateway
  {
    ListedIsShown(r, k);
    SameLinksSameCarrying(r.monitors[k].state, r.monitors[k].paths, Listed(r, k));
  }

  lemma DecisionAnswers(r: Run, k: nat)
    requires r.Valid() && k < |r.events| && r.events[k].op.Evaluate?
    ensures var (next, decision) := Decided(r.monitors[k], r.events[k].now);
            r.monitors[k + 1] == next && r.answers[k] == Verdict(decision)
  {
    assert r.Follows(k);
  }

  /** A decision keeps a right route right, and tells the client nothing unless it leaves a path carrying. */
  lemma DecisionStep(r: Run, k: nat, route: Route)
    requires r.Valid() && k < |r.events| && r.events[k].op.Evaluate? && OnRoute(route, r.monitors[k])
    ensures var (next, after) := (r.monitors[k + 1], Followed(route, r.answers[k], r.monitors[k + 1]));
            OnRoute(after, next) && (CarryingNow(next).None? ==> after == route)
            && (next.state.carrying.Some? ==> CarryingNow(next).Some?)
  {
    MonitorBasics(r, k);
    DecisionAnswers(r, k);
    DecisionKeepsRoute(r.monitors[k], r.events[k].now, route);
  }

  lemma RefreshStep(r: Run, k: nat, route: Route)
    requires r.Valid() && k < |r.events| && r.events[k].op.Refresh?
    ensures var (s, next, observed) := (r.monitors[k].state, r.monitors[k + 1], r.events[k].op.observed);
            var after := CarryingPath(s, observed);
            && next.state == s && CarryingListed(r, k + 1) == after
            && Followed(route, r.answers[k], next)
               == if s.carrying.Some? && after.Some? && Find(Listed(r, k), s.carrying.value).Some?
                     && Find(Listed(r, k), s.carrying.value).value.gateway != after.value.gateway
                  then Some(after.value.gateway) else route
  {
    var m := r.monitors[k];
    assert r.Follows(k);
    if m.state.carrying.Some? {
      RefreshEffect(m, r.events[k].op.observed, route);
      ListedIsShown(r, k);
      var i := FindSamePlace(m.paths, Listed(r, k), m.state.carrying.value);
    }
  }

  lemma OtherStep(r: Run, k: nat, route: Route)
    requires r.Valid() && k < |r.events|
    requires !r.events[k].op.Adopt? && !r.events[k].op.Evaluate? && !r.events[k].op.Refresh?
    ensures CarryingListed(r, k + 1) == CarryingListed(r, k) && r.monitors[k + 1].state == r.monitors[k].state
    ensures Followed(route, r.answers[k], r.monitors[k + 1]) == route
  {
    OtherEventsKeepState(r, k);
  }

  /** While the route has been right, it is the gateway of the carrying path when that was last up. */
  lemma {:induction false} RouteIsLastUp(r: Run, a: nat, k: nat, first: Route)
    requires r.Valid() && a <= k <= |r.events| && Tracked(r, a, k, first)
    requires forall i :: a <= i < k ==> !r.events[i].op.Adopt?
    ensures RouteAt(r, a, k, first) == LastUp(r, a, k, first)
    decreases k
  {
    ListedCarrying(r, k);
    if CarryingListed(r, k).None? && k > a {
      var route := RouteAt(r, a, k - 1, first);
      RouteIsLastUp(r, a, k - 1, first);
      if r.events[k - 1].op.Evaluate? {
        DecisionStep(r, k - 1, route);
      } else if r.events[k - 1].op.Refresh? {
        RefreshStep(r, k - 1, route);
      } else {
        OtherStep(r, k - 1, route);
      }
    }
  }

  /** From a route that has been right, the next event leaves it right unless it is a miss. */
  lemma NextIsRightExactly(r: Run, a: nat, k: nat, first: Route)
    requires r.Valid() && a <= k < |r.events| && Tracked(r, a, k, first)
    requires forall i :: a <= i <= k ==> !r.events[i].op.Adopt?
    ensures OnRoute(RouteAt(r, a, k + 1, first), r.monitors[k + 1]) <==> !Missed(r, a, k, first)
  {
    var route := RouteAt(r, a, k, first);
    ListedCarrying(r, k);
    ListedCarrying(r, k + 1);
    if r.events[k].op.Evaluate? {
      DecisionStep(r, k, route);
    } else if r.events[k].op.Refresh? {
      RouteIsLastUp(r, a, k, first);
      RefreshStep(r, k, route);
    } else {
      OtherStep(r, k, route);
    }
  }

  /** Between adoptions tracking is complete exactly when no refresh is a miss, whatever else happens and
      however rarely decisions are made. */
  lemma {:induction false} TrackedExactly(r: Run, a: nat, k: nat, first: Route)
    requires r.Valid() && a <= k <= |r.events| && forall i :: a <= i < k ==> !r.events[i].op.Adopt?
    ensures Tracked(r, a, k, first) <==>
              OnRoute(first, r.monitors[a]) && forall i :: a <= i < k ==> !Missed(r, a, i, first)
    decreases k
  {
    if k > a {
      TrackedExactly(r, a, k - 1, first);
      assert Tracked(r, a, k, first) <==>
          Tracked(r, a, k - 1, first) && OnRoute(RouteAt(r, a, k, first), r.monitors[k]);
      if Tracked(r, a, k - 1, first) {
        NextIsRightExactly(r, a, k - 1, first);
      }
    } else {
      assert RouteAt(r, a, a, first) == first;
    }
  }

  /** So the client's route is right at every moment if at every refresh either nothing carries or the
      carrying link is up in the list before. */
  lemma RouteIsTracked(r: Run, a: nat, k: nat, first: Route)
    requires r.Valid() && a <= k <= |r.events| && OnRoute(first, r.monitors[a])
    requires forall i :: a <= i < k ==> !r.events[i].op.Adopt?
    requires forall i :: a <= i < k && r.events[i].op.Refresh? && r.monitors[i].state.carrying.Some? ==>
               CarryingNow(r.monitors[i]).Some?
    ensures Tracked(r, a, k, first)
  {
    forall i | a <= i < k ensures !Missed(r, a, i, first) {
      ListedCarrying(r, i);
    }
    TrackedExactly(r, a, k, first);
  }

  /** The carrying path is listed and up at every moment except between a refresh and the next decision. */
  lemma {:induction false} DecisionsKeepItUp(r: Run, a: nat, k: nat)
    requires r.Valid() && a <= k <= |r.events| && forall i :: a <= i < k ==> !r.events[i].op.Adopt?
    requires r.monitors[a].state.carrying.Some? ==> CarryingNow(r.monitors[a]).Some?
    ensures r.monitors[k].state.carrying.Some? && !Pending(r, a, k) ==> CarryingNow(r.monitors[k]).Some?
    decreases k
  {
    if k > a && !Pending(r, a, k) {
      DecisionsKeepItUp(r, a, k - 1);
      if r.events[k - 1].op.Evaluate? {
        var now := CarryingNow(r.monitors[k - 1]);
        DecisionStep(r, k - 1, if now.Some? then Some(now.value.gateway) else None);
      } else {
        OtherStep(r, k - 1, None);
        ListedCarrying(r, k - 1);
        ListedCarrying(r, k);
      }
    }
  }

  /** With a decision between any two refreshes the client's route is right at every moment. */
  lemma RouteIsTrackedWithDecisions(r: Run, a: nat, k: nat, first: Route)
    requires r.Valid() && a <= k <= |r.events| && OnRoute(first, r.monitors[a])
    requires r.monitors[a].state.carrying.Some? ==> CarryingNow(r.monitors[a]).Some?
    requires forall i :: a <= i < k ==> !r.events[i].op.Adopt?
    requires forall i :: a <= i < k && r.events[i].op.Refresh? ==> !Pending(r, a, i)
    ensures Tracked(r, a, k, first)
  {
    forall i | a <= i < k && r.events[i].op.Refresh? && r.monitors[i].state.carrying.Some?
      ensures CarryingNow(r.monitors[i]).Some?
    {
      DecisionsKeepItUp(r, a, i);
    }
    RouteIsTracked(r, a, k, first);
  }

  lemma OnlyPathIsKept(s: State, paths: seq<NetworkPath>, now: Time, cfg: Config)
    requires |paths| == 1 && CarryingPath(s, paths).Some?
    ensures Evaluated(s, paths, now, cfg).1 == Stay
  {
    var current := paths[0];
    var next := WithCarryingClocks(Forgotten(s, paths, now, cfg), current, now, cfg);
    FilterNone(paths, ReadyTest(next, current, now, cfg));
    FilterNone(paths, PreferredTest(next, current, now, cfg));
  }

  lemma StaysOnTheOnlyPath(m: Monitor, now: Time)
    requires |m.paths| == 1 && CarryingNow(m).Some?
    ensures Decided(m, now).1 == Stay
  {
    assert SameLinks(Evidence(m, now), m.paths);
    SameLinksSameCarrying(m.state, Evidence(m, now), m.paths);
    OnlyPathIsKept(m.state, Evidence(m, now), now, m.cfg);
  }

  /** The miss happens: the carrying Wi-Fi vanishes from one list and returns in the next behind a
      different router, no decision is made in between, and the client keeps the old gateway while the
      machine stays on the path. */
  lemma MissedGateway(cfg: Config, cadence: Cadence, now: Time) returns (r: Run)
    ensures r.Valid() && r.cfg == cfg && r.cadence == cadence && |r.events| == 5
    ensures r.events[1].op.Adopt? && forall i :: 2 <= i < 5 ==> !r.events[i].op.Adopt?
    ensures CarryingNow(r.monitors[2]).Some? && CarryingNow(r.monitors[2]).value.gateway == Some(10)
    ensures Missed(r, 2, 3, Some(Some(10))) && r.answers[4] == Verdict(Stay)
    ensures CarryingNow(r.monitors[5]).Some? && CarryingNow(r.monitors[5]).value.gateway == Some(20)
    ensures RouteAt(r, 2, 5, Some(Some(10))) == Some(Some(10))
  {
    var wifi := NetworkPath(1, Wifi, Some(10), UNMEASURED, Standby, 0);
    var back := [wifi.(gateway := Some(20))];
    r := RunExists(cfg, cadence, [Event(now, Refresh([wifi])), Event(now, Adopt(1)), Event(now, Refresh([])),
                                  Event(now, Refresh(back)), Event(now, Evaluate)]);
    AdoptStep(r, 1);
    RefreshStep(r, 2, Some(Some(10)));
    RefreshStep(r, 3, Some(Some(10)));
    assert Listed(r, 2) == Listed(r, 1) == [wifi] && Listed(r, 3) == [] && Listed(r, 4) == back;
    assert CarryingListed(r, 2) == Some(wifi) && CarryingListed(r, 3) == None && CarryingListed(r, 4) == Some(back[0]);
    ListedCarrying(r, 2);
    StaysAfterReturn(r, 4);
    assert RouteAt(r, 2, 2, Some(Some(10))) == Some(Some(10));
    assert RouteAt(r, 2, 3, Some(Some(10))) == Some(Some(10));
    assert RouteAt(r, 2, 4, Some(Some(10))) == Some(Some(10));
  }

  lemma AdoptStep(r: Run, k: nat)
    requires r.Valid() && k < |r.events| && r.events[k].op.Adopt?
    ensures r.monitors[k + 1].state == CarryingOn(r.events[k].op.path)
  {
    assert r.Follows(k);
  }

  lemma StaysAfterReturn(r: Run, k: nat)
    requires r.Valid() && k < |r.events| && r.events[k].op.Evaluate?
    requires |Listed(r, k)| == 1 && CarryingListed(r, k).Some?
    ensures r.answers[k] == Verdict(Stay)
    ensures CarryingNow(r.monitors[k + 1]).Some?
    ensures CarryingNow(r.monitors[k + 1]).value.gateway == CarryingListed(r, k).value.gateway
  {
    ListedIsShown(r, k);
    ListedCarrying(r, k);
    ListedCarrying(r, k + 1);
    StaysOnTheOnlyPath(r.monitors[k], r.events[k].now);
    EvaluatedCarriesOnAUsablePath(r.monitors[k].state, Evidence(r.monitors[k], r.events[k].now), r.events[k].now,
        r.monitors[k].cfg);
    assert r.Follows(k);
  }
}
