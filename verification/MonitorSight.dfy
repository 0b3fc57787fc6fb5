/** What the monitor sees: the evidence of its decisions, the looks of its reports and the changes it notices, all
    from what was listed, sampled and decided. */
module MonitorSight {
  import opened Common
  import opened Quality
  import opened DegradationReporting
  import opened Failover
  import opened PathMonitoring
  import opened MonitorRuns
  import MonitorReports
  import MonitorReporting
  import opened MonitorRoutes
  import opened MonitorEvidence

  /** How often the path at place `i` of the list is probed: more often while it carries and is up. */
  function Interval(r: Run, k: nat, i: nat): Time
    requires r.Shaped() && k <= |r.events| && i < |Listed(r, k)|
  {
    var p := Listed(r, k)[i];
    if r.monitors[k].state.carrying == Some(p.id) && Usable(p) then r.cadence.carryingEvery else r.cadence.standbyEvery
  }

  /** The last sample accepted of this path is no more than three probe intervals old. */
  ghost predicate Fresh(r: Run, k: nat, i: nat)
    requires r.Shaped() && k < |r.events| && i < |Listed(r, k)|
  {
    var h := Accepted(r, k, Listed(r, k)[i].id);
    && h.Some? && h.value.times != []
    && r.events[k].now <= h.value.times[|h.value.times| - 1] + 3 * Interval(r, k, i)
  }

  lemma StoredPath(r: Run, k: nat, i: nat)
    requires r.Valid() && k <= |r.events| && i < |Listed(r, k)|
    ensures var (p, m) := (Listed(r, k)[i], r.monitors[k]);
            && |m.paths| == |Listed(r, k)| && SameLink(m.paths[i], p) && m.cadence == r.cadence
            && Accepted(r, k, p.id).Some? && m.paths[i].quality == Accepted(r, k, p.id).value.Quality()
            && Every(m.paths[i], r.cadence) == Interval(r, k, i)
  {
    MonitorBasics(r, k);
    ListedIsShown(r, k);
    FindInPlace(r.monitors[k].paths, i);
    QualityIsReplay(r, k, Listed(r, k)[i].id);
    MonitorReports.RolesAreAlwaysRight(r, k);
    assert r.monitors[k].paths[i].role == RoleOf(r.monitors[k].paths[i], r.monitors[k].state.carrying);
  }

  lemma FreshMeans(r: Run, k: nat, i: nat)
    requires r.Valid() && k < |r.events| && i < |Listed(r, k)| && i < |r.monitors[k].paths|
    ensures IsFresh(r.monitors[k], r.monitors[k].paths[i], r.events[k].now) <==> Fresh(r, k, i)
  {
    StoredPath(r, k, i);
    QualityIsReplay(r, k, Listed(r, k)[i].id);
  }

  /** What a decision sees, exactly: the paths as the system last listed them, each with the quality that the
      samples accepted since it appeared smooth to, or with none if the last of them is too old. */
  lemma EvidenceExactly(r: Run, k: nat, i: nat)
    requires r.Valid() && k < |r.events| && i < |Listed(r, k)|
    ensures var (seen, p) := (LookOf(r, k).paths, Listed(r, k)[i]);
            && |seen| == |Listed(r, k)| && SameLink(seen[i], p) && Accepted(r, k, p.id).Some?
            && seen[i].quality == if Fresh(r, k, i) then Accepted(r, k, p.id).value.Quality() else UNMEASURED
    ensures LookOf(r, k).now == r.events[k].now
  {
    StoredPath(r, k, i);
    FreshMeans(r, k, i);
  }

  /** The band that a report sees of the path at place `i`: that of the accepted samples, if they are measured and
      not too old. */
  ghost function BandSeen(r: Run, k: nat, i: nat): Option<Band>
    requires r.Shaped() && k < |r.events| && i < |Listed(r, k)| && Accepted(r, k, Listed(r, k)[i].id).Some?
  {
    var q := Accepted(r, k, Listed(r, k)[i].id).value.Quality();
    if Fresh(r, k, i) && q.IsMeasured() then Some(q.BandOf(r.cfg.thresholds)) else None
  }

  lemma BandInPlace(r: Run, k: nat, i: nat)
    requires r.Valid() && k < |r.events| && i < |Listed(r, k)|
    requires r.monitors[k].state.carrying == Some(Listed(r, k)[i].id)
    ensures Accepted(r, k, Listed(r, k)[i].id).Some?
    ensures MonitorReporting.LookOf(r, k).look.band == BandSeen(r, k, i)
  {
    var seen := LookOf(r, k).paths;
    EvidenceExactly(r, k, i);
    MonitorBasics(r, k);
    SameIdsSameUniqueness(seen, r.monitors[k].paths);
    FindInPlace(seen, i);
  }

  lemma UnlistedHasNoBand(r: Run, k: nat)
    requires r.Valid() && k < |r.events|
    requires forall i :: 0 <= i < |Listed(r, k)| ==> Some(Listed(r, k)[i].id) != r.monitors[k].state.carrying
    ensures MonitorReporting.LookOf(r, k).look.band == None
  {
    ListedIsShown(r, k);
    var seen := LookOf(r, k).paths;
    forall i | 0 <= i < |seen| ensures Some(seen[i].id) != r.monitors[k].state.carrying {
      assert SameLink(r.monitors[k].paths[i], Listed(r, k)[i]);
    }
  }

  /** What a report looks at, exactly: the path that carries; its band if it is listed with evidence that is not
      too old, and none otherwise; and the reason for staying on the evidence that a decision would see. */
  lemma LookExactly(r: Run, k: nat)
    requires r.Valid() && k < |r.events|
    ensures var (look, m) := (MonitorReporting.LookOf(r, k).look, r.monitors[k]);
            && look.carrying == m.state.carrying
            && look.staying == ExplainStaying(m.state, LookOf(r, k).paths, r.events[k].now, r.cfg)
            && (look.band.Some? ==>
                  exists i :: && 0 <= i < |Listed(r, k)| && Some(Listed(r, k)[i].id) == m.state.carrying
                              && Accepted(r, k, Listed(r, k)[i].id).Some? && look.band == BandSeen(r, k, i))
    ensures forall i :: 0 <= i < |Listed(r, k)| && Some(Listed(r, k)[i].id) == r.monitors[k].state.carrying ==>
              Accepted(r, k, Listed(r, k)[i].id).Some? && MonitorReporting.LookOf(r, k).look.band == BandSeen(r, k, i)
  {
    MonitorBasics(r, k);
    forall i | 0 <= i < |Listed(r, k)| && Some(Listed(r, k)[i].id) == r.monitors[k].state.carrying
      ensures Accepted(r, k, Listed(r, k)[i].id).Some? && MonitorReporting.LookOf(r, k).look.band == BandSeen(r, k, i)
    {
      BandInPlace(r, k, i);
    }
    if forall i :: 0 <= i < |Listed(r, k)| ==> Some(Listed(r, k)[i].id) != r.monitors[k].state.carrying {
      UnlistedHasNoBand(r, k);
    }
  }

  // ------------------------------------------------------------------ what a refresh says has changed

  /** `p` is in the list as it was: same kind, same gateway, same link state. */
  predicate AsListed(p: NetworkPath, list: seq<NetworkPath>) {
    exists q :: q in list && q.id == p.id && q.kind == p.kind && q.gateway == p.gateway && (Usable(q) <==> Usable(p))
  }

  lemma ShapesAreLinks(a: seq<NetworkPath>, b: seq<NetworkPath>)
    requires SameLinks(a, b)
    ensures Map(a, ShapeOf()) == Map(b, ShapeOf())
  {
  }

  ghost predicate SameLists(a: seq<NetworkPath>, b: seq<NetworkPath>) {
    (forall p :: p in a ==> AsListed(p, b)) && (forall p :: p in b ==> AsListed(p, a))
  }

  lemma SameShapesSameLists(a: seq<NetworkPath>, b: seq<NetworkPath>)
    requires UniqueIds(a) && UniqueIds(b) && multiset(Map(a, ShapeOf())) == multiset(Map(b, ShapeOf()))
    ensures SameLists(a, b)
  {
    ShapesIn(a);
    ShapesIn(b);
    SameElements(Map(a, ShapeOf()), Map(b, ShapeOf()));
    ShapesGiveLinks(a, b);
    ShapesGiveLinks(b, a);
  }

  lemma SameListsSameShapes(a: seq<NetworkPath>, b: seq<NetworkPath>)
    requires UniqueIds(a) && UniqueIds(b) && SameLists(a, b)
    ensures multiset(Map(a, ShapeOf())) == multiset(Map(b, ShapeOf()))
  {
    ShapesIn(a);
    ShapesIn(b);
    LinksGiveShapes(a, b);
    LinksGiveShapes(b, a);
    DistinctSameMultiset(Map(a, ShapeOf()), Map(b, ShapeOf()));
  }

  predicate Distinct(s: seq<Shape>) { forall i, j :: 0 <= i < j < |s| ==> s[i] != s[j] }

  lemma ShapesIn(a: seq<NetworkPath>)
    requires UniqueIds(a)
    ensures Distinct(Map(a, ShapeOf()))
    ensures forall s :: s in Map(a, ShapeOf()) <==> exists p :: p in a && ShapeOf()(p) == s
  {
    var x := Map(a, ShapeOf());
    forall p | p in a ensures ShapeOf()(p) in x {
      var i :| 0 <= i < |a| && a[i] == p;
      assert x[i] in x;
    }
    forall s | s in x ensures exists p :: p in a && ShapeOf()(p) == s {
      var i :| 0 <= i < |x| && x[i] == s;
      assert a[i] in a;
    }
  }

  lemma ShapesGiveLinks(a: seq<NetworkPath>, b: seq<NetworkPath>)
    requires forall p :: p in a ==> ShapeOf()(p) in Map(a, ShapeOf())
    requires forall s :: s in Map(a, ShapeOf()) ==> s in Map(b, ShapeOf())
    requires forall s :: s in Map(b, ShapeOf()) ==> exists p :: p in b && ShapeOf()(p) == s
    ensures forall p :: p in a ==> AsListed(p, b)
  {
    forall p | p in a ensures AsListed(p, b) {
      assert ShapeOf()(p) in Map(b, ShapeOf());
      var q :| q in b && ShapeOf()(q) == ShapeOf()(p);
    }
  }

  lemma LinksGiveShapes(a: seq<NetworkPath>, b: seq<NetworkPath>)
    requires forall p :: p in a ==> AsListed(p, b)
    requires forall s :: s in Map(a, ShapeOf()) ==> exists p :: p in a && ShapeOf()(p) == s
    requires forall p :: p in b ==> ShapeOf()(p) in Map(b, ShapeOf())
    ensures forall s :: s in Map(a, ShapeOf()) ==> s in Map(b, ShapeOf())
  {
    forall s | s in Map(a, ShapeOf()) ensures s in Map(b, ShapeOf()) {
      var p :| p in a && ShapeOf()(p) == s;
      assert AsListed(p, b);
      var q :| q in b && q.id == p.id && q.kind == p.kind && q.gateway == p.gateway && (Usable(q) <==> Usable(p));
      assert ShapeOf()(q) == s;
    }
  }

  lemma DistinctSameMultiset(x: seq<Shape>, y: seq<Shape>)
    requires Distinct(x) && Distinct(y) && forall s :: s in x <==> s in y
    ensures multiset(x) == multiset(y)
  {
    forall s ensures multiset(x)[s] == multiset(y)[s] {
      OccursOnce(x, s);
      OccursOnce(y, s);
    }
  }

  lemma {:induction false} OccursOnce(x: seq<Shape>, s: Shape)
    requires Distinct(x)
    ensures multiset(x)[s] == if s in x then 1 else 0
  {
    if x != [] {
      OccursOnce(x[1..], s);
      assert x == [x[0]] + x[1..];
    }
  }

  /** Over every run: a refresh says that something changed exactly when some path listed before is not listed
      now as it was, or some path listed now was not listed before as it is: by kind, gateway and link state,
      whatever the order. */
  lemma ChangedExactly(r: Run, k: nat)
    requires r.Valid() && k < |r.events| && r.events[k].op.Refresh?
    ensures r.answers[k].Delta?
    ensures !r.answers[k].delta.changed <==>
              SameLists(Listed(r, k), r.events[k].op.observed)
  {
    var before, observed := r.monitors[k].paths, r.events[k].op.observed;
    ChangedStep(r, k);
    KeptShapes(before, observed, r, k);
    SameListsMeans(Listed(r, k), observed);
  }

  lemma KeptShapes(before: seq<NetworkPath>, observed: seq<NetworkPath>, r: Run, k: nat)
    requires r.Valid() && k < |r.events| && before == r.monitors[k].paths && UniqueIds(observed)
    ensures UniqueIds(Listed(r, k))
    ensures Shapes(before) == Shapes(Map(observed, QualityKeeper(before))) <==>
              multiset(Map(Listed(r, k), ShapeOf())) == multiset(Map(observed, ShapeOf()))
  {
    MonitorBasics(r, k);
    ListedIsShown(r, k);
    SameIdsSameUniqueness(before, Listed(r, k));
    ShapesAreLinks(before, Listed(r, k));
    KeeperKeepsShapes(before, observed);
    MonitorReports.ShapesCompareContents(before, Map(observed, QualityKeeper(before)));
  }

  lemma KeeperKeepsShapes(before: seq<NetworkPath>, observed: seq<NetworkPath>)
    requires UniqueIds(observed)
    ensures UniqueIds(Map(observed, QualityKeeper(before)))
    ensures Map(Map(observed, QualityKeeper(before)), ShapeOf()) == Map(observed, ShapeOf())
  {
    var kept := Map(observed, QualityKeeper(before));
    SameIdsSameUniqueness(kept, observed);
    ShapesAreLinks(kept, observed);
  }

  lemma SameListsMeans(a: seq<NetworkPath>, b: seq<NetworkPath>)
    requires UniqueIds(a) && UniqueIds(b)
    ensures multiset(Map(a, ShapeOf())) == multiset(Map(b, ShapeOf())) <==> SameLists(a, b)
  {
    if SameLists(a, b) {
      SameListsSameShapes(a, b);
    } else if multiset(Map(a, ShapeOf())) == multiset(Map(b, ShapeOf())) {
      SameShapesSameLists(a, b);
    }
  }

  lemma ChangedStep(r: Run, k: nat)
    requires r.Valid() && k < |r.events| && r.events[k].op.Refresh?
    ensures r.answers[k].Delta?
    ensures r.answers[k].delta.changed <==>
              Shapes(r.monitors[k].paths) != Shapes(Map(r.events[k].op.observed, QualityKeeper(r.monitors[k].paths)))
  {
    assert r.Follows(k);
  }
}
