/** What the user is told agrees with what the machine did on the same tick. */
module MonitorReports {
  import opened Common
  import opened Quality
  import opened DegradationReporting
  import opened Failover
  import opened PathMonitoring
  import opened MonitorRuns
  import FailoverProgress

  // ------------------------------------------------------------------ roles are always right

  predicate RolesRight(m: Monitor) {
    forall i :: 0 <= i < |m.paths| ==> m.paths[i].role == RoleOf(m.paths[i], m.state.carrying)
  }

  lemma AppliedRolesAreRight(m: Monitor)
    ensures RolesRight(WithRoles(m))
  {
  }

  lemma SampleKeepsRoles(m: Monitor, id: InterfaceId, sample: Sample, now: Time)
    requires RolesRight(m)
    ensures RolesRight(Sampled(m, id, sample, now))
  {
  }

  lemma DecidedRolesAreRight(m: Monitor, now: Time)
    ensures RolesRight(Decided(m, now).0)
  {
    AppliedRolesAreRight(m.(state := Evaluated(m.state, Evidence(m, now), now, m.cfg).0));
  }

  lemma RefreshedRolesAreRight(m: Monitor, observed: seq<NetworkPath>)
    ensures RolesRight(Refreshed(m, observed).0)
  {
    var kept := Map(observed, QualityKeeper(m.paths));
    AppliedRolesAreRight(m.(paths := kept, probedAt := Remembered(m.probedAt, kept, true),
        sampledAt := Remembered(m.sampledAt, kept, false)));
  }

  /** After every event each path has the role its link and the carrying path give it. */
  lemma {:induction false} RolesAreAlwaysRight(r: Run, k: nat)
    requires r.Valid() && k <= |r.events|
    ensures RolesRight(r.monitors[k])
  {
    if k > 0 {
      RolesAreAlwaysRight(r, k - 1);
      RolesStep(r, k - 1);
    }
  }

  lemma RolesStep(r: Run, k: nat)
    requires r.Valid() && k < |r.events| && RolesRight(r.monitors[k])
    ensures RolesRight(r.monitors[k + 1])
  {
    var m, now := r.monitors[k], r.events[k].now;
    assert r.Follows(k);
    match r.events[k].op {
      case Refresh(observed) => RefreshedRolesAreRight(m, observed);
      case TakeSample(path, sample) => SampleKeepsRoles(m, path, sample, now);
      case Evaluate => DecidedRolesAreRight(m, now);
      case Adopt(path) => AppliedRolesAreRight(m.(state := CarryingOn(path)));
      case Report =>
      case HandOut =>
    }
  }

  // ------------------------------------------------------------------ the reason is the reason

  ghost predicate Better(current: NetworkPath, evidence: seq<NetworkPath>, p: NetworkPath, cfg: Config) {
    p in evidence && Usable(p) && p.id != current.id && IsBetter(current, p, cfg)
  }

  /** What each reason for staying claims, of the state and evidence the decision was made on. */
  ghost predicate Claims(reason: NoMove, s: State, current: NetworkPath, evidence: seq<NetworkPath>, now: Time,
                         cfg: Config)
  {
    match reason
    case OnlyPath => forall p :: p in evidence && Usable(p) ==> p.id == current.id
    case NoBetterPath => forall p :: !Better(current, evidence, p, cfg)
    case Dwell => (exists p :: Better(current, evidence, p, cfg)) && !Dwelled(s, now, cfg)
    case Budget =>
      (exists p :: Better(current, evidence, p, cfg)) && |Filter(s.moves, InWindow(now, cfg.window))| >= cfg.maxMoves
    case Proving =>
      && (exists p :: Better(current, evidence, p, cfg))
      && var next := Evaluated(s, evidence, now, cfg).0;
         || !Sustained(next, current, now, cfg)
         || forall p :: Better(current, evidence, p, cfg) ==> !Proven(next, p, now, cfg)
  }

  /** The answer is the first reason, in order, whose claim is true. */
  lemma ExplanationClaims(s: State, evidence: seq<NetworkPath>, now: Time, cfg: Config)
    requires CarryingPath(s, evidence).Some? && BandIn(CarryingPath(s, evidence).value, cfg) != Good
    requires Evaluated(s, evidence, now, cfg).1 == Stay
    ensures Claims(ExplainStaying(s, evidence, now, cfg), s, CarryingPath(s, evidence).value, evidence, now, cfg)
    ensures ExplainStaying(Evaluated(s, evidence, now, cfg).0, evidence, now, cfg)
            == ExplainStaying(s, evidence, now, cfg)
  {
    FailoverProgress.ExplanationIsTrue(s, evidence, now, cfg);
    ReasonInOrder(s, evidence, now, cfg);
  }

  lemma ReasonInOrder(s: State, evidence: seq<NetworkPath>, now: Time, cfg: Config)
    requires CarryingPath(s, evidence).Some?
    ensures var (current, why) := (CarryingPath(s, evidence).value, ExplainStaying(s, evidence, now, cfg));
            && (why == OnlyPath ==> forall p :: p in evidence && Usable(p) ==> p.id == current.id)
            && (why == NoBetterPath ==> forall p :: !Better(current, evidence, p, cfg))
            && (why != OnlyPath && why != NoBetterPath ==> exists p :: Better(current, evidence, p, cfg))
            && (why == Dwell ==> !Dwelled(s, now, cfg))
            && (why == Budget ==> |Filter(s.moves, InWindow(now, cfg.window))| >= cfg.maxMoves)
  {
    var current := CarryingPath(s, evidence).value;
    var others := Filter(evidence, OtherTest(current));
    assert forall p :: p in others <==> p in evidence && Usable(p) && p.id != current.id;
    assert forall p :: Better(current, evidence, p, cfg) <==> p in others && IsBetter(current, p, cfg);
  }

  /** A decision to stay leaves what is seen as it was. */
  lemma StayingChangesNothingSeen(m: Monitor, now: Time)
    requires RolesRight(m) && Decided(m, now).1 == Stay
    ensures var next := Decided(m, now).0;
            && Evidence(next, now) == Evidence(m, now) && next.cfg == m.cfg
            && next.state == Evaluated(m.state, Evidence(m, now), now, m.cfg).0
            && next.state.carrying == m.state.carrying
  {
    var state := Evaluated(m.state, Evidence(m, now), now, m.cfg).0;
    EvaluatedCarriesOnAUsablePath(m.state, Evidence(m, now), now, m.cfg);
    SameRolesSameView(m, m.(state := state), now);
  }

  lemma SameRolesSameView(m: Monitor, after: Monitor, now: Time)
    requires RolesRight(m) && after == m.(state := after.state) && after.state.carrying == m.state.carrying
    ensures WithRoles(after).paths == m.paths && Evidence(WithRoles(after), now) == Evidence(m, now)
  {
    var next := WithRoles(after);
    assert next.paths == m.paths;
    assert forall i :: 0 <= i < |m.paths| ==> FreshView(next, now)(m.paths[i]) == FreshView(m, now)(m.paths[i]);
  }

  lemma LookAfterStaying(m: Monitor, now: Time)
    requires RolesRight(m) && Decided(m, now).1 == Stay
    ensures var (look, evidence) := (LookAt(Decided(m, now).0, now), Evidence(m, now));
            && look.carrying == m.state.carrying
            && look.staying == ExplainStaying(Evaluated(m.state, evidence, now, m.cfg).0, evidence, now, m.cfg)
            && (look.band.Some? && CarryingPath(m.state, evidence).Some? ==>
                  look.band.value == BandIn(CarryingPath(m.state, evidence).value, m.cfg))
  {
    StayingChangesNothingSeen(m, now);
  }

  lemma AnnouncedIsSeen(memory: Memory, look: Look, now: Time, degradeFor: Time, recoverFor: Time)
    requires Observed(memory, look, now, degradeFor, recoverFor).1.Some?
    requires Observed(memory, look, now, degradeFor, recoverFor).1.value.BecameDegraded?
    ensures var d := Observed(memory, look, now, degradeFor, recoverFor).1.value.what;
            look.carrying == Some(d.path) && look.band == Some(d.band) && d.band != Good && d.staying == look.staying
  {
  }

  /** When the machine decides to stay and the user is then told, on the same tick, that the connection is
      degraded, what is said is so: the path is the one that carries, the band is the one the decision saw,
      and the reason is the first whose claim holds of the very evidence the decision was made on. */
  lemma ToldReasonIsTrue(r: Run, k: nat)
    requires r.Valid() && k + 1 < |r.events|
    requires r.events[k].op.Evaluate? && r.answers[k] == Verdict(Stay)
    requires r.events[k + 1].op.Report? && r.events[k + 1].now == r.events[k].now
    requires r.answers[k + 1].Said? && r.answers[k + 1].change.Some? && r.answers[k + 1].change.value.BecameDegraded?
    ensures var (d, s, now) := (r.answers[k + 1].change.value.what, r.monitors[k].state, r.events[k].now);
            var evidence := Evidence(r.monitors[k], now);
            && CarryingPath(s, evidence).Some? && d.path == CarryingPath(s, evidence).value.id
            && d.band == BandIn(CarryingPath(s, evidence).value, r.cfg) && d.band != Good
            && Claims(d.staying, s, CarryingPath(s, evidence).value, evidence, now, r.cfg)
  {
    var m, now := r.monitors[k], r.events[k].now;
    RolesAreAlwaysRight(r, k);
    MonitorBasics(r, k);
    EvaluateStepIs(r, k);
    ReportStepIs(r, k + 1);
    AnnouncedIsSeen(r.monitors[k + 1].memory, LookAt(r.monitors[k + 1], now), now, r.cfg.degradeFor, r.cfg.recoverFor);
    LookAfterStaying(m, now);
    StayedOnAPath(m, now);
    ExplanationClaims(m.state, Evidence(m, now), now, r.cfg);
  }

  lemma StayedOnAPath(m: Monitor, now: Time)
    requires Decided(m, now).1 == Stay
    ensures CarryingPath(m.state, Evidence(m, now)).Some?
    ensures Evaluated(m.state, Evidence(m, now), now, m.cfg).1 == Stay
  {
    EvaluatedCarriesOnAUsablePath(m.state, Evidence(m, now), now, m.cfg);
  }

  lemma EvaluateStepIs(r: Run, k: nat)
    requires r.Valid() && k < |r.events| && r.events[k].op.Evaluate? && r.answers[k].Verdict?
    ensures Decided(r.monitors[k], r.events[k].now) == (r.monitors[k + 1], r.answers[k].decision)
  {
    assert r.Follows(k);
  }

  lemma ReportStepIs(r: Run, k: nat)
    requires r.Valid() && k < |r.events| && r.events[k].op.Report? && r.answers[k].Said?
    ensures Observed(r.monitors[k].memory, LookAt(r.monitors[k], r.events[k].now), r.events[k].now,
                     r.cfg.degradeFor, r.cfg.recoverFor).1 == r.answers[k].change
  {
    MonitorBasics(r, k);
    assert r.Follows(k);
  }

  // ------------------------------------------------------------------ what a refresh says changed

  lemma ShapesAreDistinct(paths: seq<NetworkPath>)
    requires UniqueIds(paths)
    ensures forall x, y :: x in Shapes(paths) && y in Shapes(paths) && x.id == y.id ==> x == y
  {
    var shapes := Map(paths, ShapeOf());
    SameElements(Shapes(paths), shapes);
    forall x, y | x in Shapes(paths) && y in Shapes(paths) && x.id == y.id ensures x == y {
      var i :| 0 <= i < |shapes| && shapes[i] == x;
      var j :| 0 <= j < |shapes| && shapes[j] == y;
      assert paths[i].id == paths[j].id;
    }
  }

  /** "Nothing changed" means the two lists hold the same interfaces, each of the same kind, behind the same
      gateway and in the same link state, in whatever order the system lists them. */
  lemma ShapesCompareContents(before: seq<NetworkPath>, after: seq<NetworkPath>)
    requires UniqueIds(before) && UniqueIds(after)
    ensures Shapes(before) == Shapes(after) <==> multiset(Map(before, ShapeOf())) == multiset(Map(after, ShapeOf()))
  {
    if multiset(Map(before, ShapeOf())) == multiset(Map(after, ShapeOf())) {
      StableSortSorted(Map(before, ShapeOf()), ById());
      StableSortSorted(Map(after, ShapeOf()), ById());
      ShapesAreDistinct(before);
      KeysFixTheOrder(Shapes(before), Shapes(after), ById());
    }
  }
}
