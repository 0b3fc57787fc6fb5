/** Whole runs of the path monitor, over any interleaving of refreshes, samples, decisions, reports,
    probe hand-outs and adoptions. */
module MonitorRuns {
  import opened Common
  import opened Quality
  import opened DegradationReporting
  import opened Failover
  import opened PathMonitoring

  datatype Op = Refresh(observed: seq<NetworkPath>) | TakeSample(path: InterfaceId, sample: Sample)
              | Evaluate | Report | HandOut | Adopt(path: InterfaceId)

  datatype Answer = Delta(delta: PathsDelta) | Verdict(decision: Decision) | Said(change: Option<Change>)
                  | Due(due: seq<InterfaceId>) | Nothing

  function Applied(m: Monitor, op: Op, now: Time): (Monitor, Answer) {
    match op
    case Refresh(observed) => var (next, delta) := Refreshed(m, observed); (next, Delta(delta))
    case TakeSample(path, sample) => (Sampled(m, path, sample, now), Nothing)
    case Evaluate => var (next, decision) := Decided(m, now); (next, Verdict(decision))
    case Report => var (next, change) := Reported(m, now); (next, Said(change))
    case HandOut => var (next, due) := HandedOut(m, now); (next, Due(due))
    case Adopt(path) => (Adopted(m, path), Nothing)
  }

  datatype Event = Event(now: Time, op: Op)

  /** A run of a new monitor: what happened, the monitor before each event and after the last, and the answers. */
  datatype Run = Run(cfg: Config, cadence: Cadence, events: seq<Event>, monitors: seq<Monitor>, answers: seq<Answer>) {

    predicate Shaped() { |answers| == |events| && |monitors| == |events| + 1 }

    predicate Follows(k: nat)
      requires Shaped() && k < |events|
    {
      Applied(monitors[k], events[k].op, events[k].now) == (monitors[k + 1], answers[k])
    }

    /** The system lists each interface once; time does not go back. */
    ghost predicate Valid() {
      && Shaped() && monitors[0] == NewMonitor(cfg, cadence)
      && (forall k :: 0 <= k < |events| ==> Follows(k))
      && (forall k :: 0 <= k < |events| && events[k].op.Refresh? ==> UniqueIds(events[k].op.observed))
      && (forall i, j :: 0 <= i <= j < |events| ==> events[i].now <= events[j].now)
    }
  }

  /** Every sequence of events has its run. */
  lemma {:induction false} RunExists(cfg: Config, cadence: Cadence, events: seq<Event>) returns (r: Run)
    requires forall k :: 0 <= k < |events| && events[k].op.Refresh? ==> UniqueIds(events[k].op.observed)
    requires forall i, j :: 0 <= i <= j < |events| ==> events[i].now <= events[j].now
    ensures r.Valid() && r.cfg == cfg && r.cadence == cadence && r.events == events
  {
    if events == [] {
      r := Run(cfg, cadence, [], [NewMonitor(cfg, cadence)], []);
    } else {
      var n := |events| - 1;
      var before := RunExists(cfg, cadence, events[..n]);
      var step := Applied(before.monitors[n], events[n].op, events[n].now);
      r := Run(cfg, cadence, events, before.monitors + [step.0], before.answers + [step.1]);
      forall k | 0 <= k < |events| ensures r.Follows(k) {
        if k < n { assert before.Follows(k); }
      }
    }
  }

  // ------------------------------------------------------------------ lists and links

  lemma SameIdsSameUniqueness(a: seq<NetworkPath>, b: seq<NetworkPath>)
    requires |a| == |b| && forall j :: 0 <= j < |a| ==> a[j].id == b[j].id
    ensures UniqueIds(a) <==> UniqueIds(b)
  {
  }

  /** The same in all that the system says of a path: interface, kind, gateway, preference, link state. */
  predicate SameLink(a: NetworkPath, b: NetworkPath) {
    && a.id == b.id && a.kind == b.kind && a.gateway == b.gateway && a.preference == b.preference
    && (Usable(a) <==> Usable(b))
  }

  predicate SameLinks(a: seq<NetworkPath>, b: seq<NetworkPath>) {
    |a| == |b| && forall i :: 0 <= i < |a| ==> SameLink(a[i], b[i])
  }

  lemma RefreshedList(m: Monitor, observed: seq<NetworkPath>)
    ensures var next := Refreshed(m, observed).0;
            && SameLinks(next.paths, observed)
            && (forall i :: 0 <= i < |observed| ==>
                 next.paths[i].quality == QualityKeeper(m.paths)(observed[i]).quality)
            && next.cfg == m.cfg && next.cadence == m.cadence
  {
  }

  lemma DecidedList(m: Monitor, now: Time)
    ensures var next := Decided(m, now).0;
            && SameLinks(next.paths, m.paths)
            && (forall i :: 0 <= i < |m.paths| ==> next.paths[i].quality == m.paths[i].quality)
            && next.cfg == m.cfg && next.cadence == m.cadence && next.sampledAt == m.sampledAt
  {
  }

  lemma SampledList(m: Monitor, id: InterfaceId, sample: Sample, now: Time)
    ensures var next := Sampled(m, id, sample, now);
            SameLinks(next.paths, m.paths) && next.cfg == m.cfg && next.cadence == m.cadence
  {
  }

  lemma AdoptedList(m: Monitor, id: InterfaceId)
    ensures var next := Adopted(m, id);
            SameLinks(next.paths, m.paths) && next.cfg == m.cfg && next.cadence == m.cadence
  {
  }

  /** The list an event leaves: what it observed, or the list as it was. */
  function ListAfter(r: Run, k: nat): seq<NetworkPath>
    requires r.Shaped() && k < |r.events|
  {
    if r.events[k].op.Refresh? then r.events[k].op.observed else r.monitors[k].paths
  }

  /** Only a refresh changes what is listed, and it lists exactly what was observed. */
  lemma LinksStep(r: Run, k: nat)
    requires r.Valid() && k < |r.events|
    ensures SameLinks(r.monitors[k + 1].paths, ListAfter(r, k))
    ensures r.monitors[k + 1].cfg == r.monitors[k].cfg && r.monitors[k + 1].cadence == r.monitors[k].cadence
  {
    assert r.Follows(k);
    match r.events[k].op {
      case Refresh(observed) => RefreshedList(r.monitors[k], observed);
      case TakeSample(path, sample) => SampledList(r.monitors[k], path, sample, r.events[k].now);
      case Evaluate => DecidedList(r.monitors[k], r.events[k].now);
      case Adopt(path) => AdoptedList(r.monitors[k], path);
      case Report =>
      case HandOut =>
    }
  }

  lemma {:induction false} MonitorBasics(r: Run, k: nat)
    requires r.Valid() && k <= |r.events|
    ensures UniqueIds(r.monitors[k].paths)
    ensures r.monitors[k].cfg == r.cfg && r.monitors[k].cadence == r.cadence
  {
    if k > 0 {
      MonitorBasics(r, k - 1);
      LinksStep(r, k - 1);
      SameIdsSameUniqueness(r.monitors[k].paths, ListAfter(r, k - 1));
    }
  }

  // ------------------------------------------------------------------ the stored quality is a replay

  /** What a path's quality was when it was first listed, and the samples accepted since, with their times. */
  datatype History = History(start: PathQuality, samples: seq<Sample>, times: seq<Time>) {
    function Quality(): PathQuality { Fold(start, samples) }
  }

  /** The history of `id` since it last appeared in the system's list, if it is listed. */
  function Accepted(r: Run, k: nat, id: InterfaceId): (h: Option<History>)
    requires r.Shaped() && k <= |r.events|
    ensures h.Some? ==> |h.value.samples| == |h.value.times|
  {
    if k == 0 then None
    else
      var before := Accepted(r, k - 1, id);
      match r.events[k - 1].op
      case Refresh(observed) =>
        var seen := Find(observed, id);
        if seen.None? then None else if before.Some? then before else Some(History(seen.value.quality, [], []))
      case TakeSample(path, sample) =>
        if path == id && before.Some?
        then
          var h := before.value;
          Some(History(h.start, h.samples + [sample], h.times + [r.events[k - 1].now]))
        else before
      case _ => before
  }

  /** How one event changes the stored quality of the path in one place of the list. */
  lemma QualityInPlace(r: Run, k: nat, i: nat)
    requires r.Valid() && k < |r.events| && i < |r.monitors[k + 1].paths| == |ListAfter(r, k)|
    ensures var (op, p, was) := (r.events[k].op, r.monitors[k + 1].paths[i], ListAfter(r, k)[i]);
            p.quality == if op.Refresh? then QualityKeeper(r.monitors[k].paths)(was).quality
                         else if op.TakeSample? && IndexOf(r.monitors[k].paths, op.path) == Some(i)
                         then was.quality.Observe(op.sample)
                         else was.quality
  {
    assert r.Follows(k);
    match r.events[k].op {
      case Refresh(observed) => RefreshedList(r.monitors[k], observed);
      case Evaluate => DecidedList(r.monitors[k], r.events[k].now);
      case _ =>
    }
  }

  lemma QualityStep(r: Run, k: nat, id: InterfaceId)
    requires r.Valid() && k < |r.events|
    ensures var (before, after, op) :=
            (Find(r.monitors[k].paths, id), Find(r.monitors[k + 1].paths, id), r.events[k].op);
            && (after.Some? <==> Find(ListAfter(r, k), id).Some?)
            && (after.Some? ==>
                  after.value.quality
                  == if op.Refresh? && before.None? then Find(op.observed, id).value.quality
                     else if op.TakeSample? && op.path == id then before.value.quality.Observe(op.sample)
                     else before.value.quality)
  {
    LinksStep(r, k);
    var i := FindSamePlace(r.monitors[k + 1].paths, ListAfter(r, k), id);
    if Find(r.monitors[k + 1].paths, id).Some? {
      MonitorBasics(r, k);
      QualityInPlace(r, k, i);
    }
  }

  lemma RefreshedTimes(m: Monitor, observed: seq<NetworkPath>, id: InterfaceId)
    ensures var after := Refreshed(m, observed).0.sampledAt;
            && (id in after <==> id in m.sampledAt && Find(observed, id).Some?)
            && (id in after ==> after[id] == m.sampledAt[id])
  {
    var kept := Map(observed, QualityKeeper(m.paths));
    var i := FindSamePlace(kept, observed, id);
    assert (exists p :: p in kept && p.id == id) <==> Find(kept, id).Some?;
    assert Refreshed(m, observed).0.sampledAt == Remembered(m.sampledAt, kept, false);
  }

  /** Only a refresh and an accepted sample touch the times of the last samples. */
  lemma OtherTimes(r: Run, k: nat)
    requires r.Valid() && k < |r.events|
    ensures !r.events[k].op.Refresh? && !r.events[k].op.TakeSample? ==>
            r.monitors[k + 1].sampledAt == r.monitors[k].sampledAt
    ensures r.events[k].op.Refresh? ==> r.monitors[k + 1] == Refreshed(r.monitors[k], r.events[k].op.observed).0
    ensures r.events[k].op.TakeSample? ==>
              r.monitors[k + 1] == Sampled(r.monitors[k], r.events[k].op.path, r.events[k].op.sample, r.events[k].now)
  {
    assert r.Follows(k);
    if r.events[k].op.Evaluate? {
      DecidedList(r.monitors[k], r.events[k].now);
    }
  }

  lemma SampledAtStep(r: Run, k: nat, id: InterfaceId)
    requires r.Valid() && k < |r.events|
    ensures var (before, after, op) := (r.monitors[k].sampledAt, r.monitors[k + 1].sampledAt, r.events[k].op);
            var sampled := op.TakeSample? && op.path == id && Find(r.monitors[k].paths, id).Some?;
            && (id in after <==> sampled || (id in before && (op.Refresh? ==> Find(op.observed, id).Some?)))
            && (id in after ==> after[id] == if sampled then r.events[k].now else before[id])
  {
    OtherTimes(r, k);
    if r.events[k].op.Refresh? {
      RefreshedTimes(r.monitors[k], r.events[k].op.observed, id);
    }
  }

  /** Each listed path's stored quality is the fold of exactly the samples accepted since its interface
      last appeared, whatever else happened in between; and the recorded sample time is the last of them. */
  lemma {:induction false} QualityIsReplay(r: Run, k: nat, id: InterfaceId)
    requires r.Valid() && k <= |r.events|
    ensures Accepted(r, k, id).Some? <==> Find(r.monitors[k].paths, id).Some?
    ensures Accepted(r, k, id).Some? ==>
            Find(r.monitors[k].paths, id).value.quality == Accepted(r, k, id).value.Quality()
    ensures id in r.monitors[k].sampledAt <==> Accepted(r, k, id).Some? && Accepted(r, k, id).value.times != []
    ensures id in r.monitors[k].sampledAt ==>
              var times := Accepted(r, k, id).value.times; r.monitors[k].sampledAt[id] == times[|times| - 1]
  {
    if k > 0 {
      QualityIsReplay(r, k - 1, id);
      QualityStep(r, k - 1, id);
      SampledAtStep(r, k - 1, id);
      var op := r.events[k - 1].op;
      if op.TakeSample? && op.path == id && Accepted(r, k - 1, id).Some? {
        var before, after := Accepted(r, k - 1, id).value, Accepted(r, k, id).value;
        assert after.samples[..|after.samples| - 1] == before.samples;
      }
    }
  }
}
