/** When probes are handed out, over whole runs of the path monitor. */
module MonitorProbes {
  import opened Common
  import opened Failover
  import opened PathMonitoring
  import opened MonitorRuns
  import opened MonitorReports

  /** Listed, and its link is up. */
  predicate Up(paths: seq<NetworkPath>, id: InterfaceId) {
    exists p :: p in paths && p.id == id && Usable(p)
  }

  /** When a probe of `id` was last handed out, since the link was last missing or down in the system's list. */
  function LastProbe(r: Run, k: nat, id: InterfaceId): Option<Time>
    requires r.Shaped() && k <= |r.events|
  {
    if k == 0 then None
    else if r.events[k - 1].op.Refresh? && !Up(r.events[k - 1].op.observed, id) then None
    else if r.answers[k - 1].Due? && id in r.answers[k - 1].due then Some(r.events[k - 1].now)
    else LastProbe(r, k - 1, id)
  }

  lemma RefreshedProbes(m: Monitor, observed: seq<NetworkPath>, id: InterfaceId)
    ensures var after := Refreshed(m, observed).0.probedAt;
            && (id in after <==> id in m.probedAt && Up(observed, id))
            && (id in after ==> after[id] == m.probedAt[id])
  {
    var kept := Map(observed, QualityKeeper(m.paths));
    assert Refreshed(m, observed).0.probedAt == Remembered(m.probedAt, kept, true);
    if i :| 0 <= i < |observed| && observed[i].id == id && Usable(observed[i]) {
      assert kept[i] in kept;
    }
    if i :| 0 <= i < |kept| && kept[i].id == id && Usable(kept[i]) {
      assert observed[i] in observed;
    }
  }

  lemma StampedTimes(times: map<InterfaceId, Time>, ids: seq<InterfaceId>, now: Time, id: InterfaceId)
    ensures var after := Stamped(times, ids, now);
            && (id in after <==> id in ids || id in times)
            && (id in after ==> after[id] == if id in ids then now else times[id])
  {
  }

  /** Only a hand-out and a refresh touch the times of the last probes. */
  lemma ProbeTimesStep(r: Run, k: nat)
    requires r.Valid() && k < |r.events|
    ensures r.answers[k].Due? <==> r.events[k].op.HandOut?
    ensures r.events[k].op.HandOut? ==>
            (r.monitors[k + 1], r.answers[k].due) == HandedOut(r.monitors[k], r.events[k].now)
    ensures r.events[k].op.Refresh? ==> r.monitors[k + 1] == Refreshed(r.monitors[k], r.events[k].op.observed).0
    ensures !r.events[k].op.HandOut? && !r.events[k].op.Refresh? ==>
            r.monitors[k + 1].probedAt == r.monitors[k].probedAt
  {
    assert r.Follows(k);
  }

  /** The stored times are those of the last hand-outs. */
  lemma {:induction false} ProbeTimesAreExact(r: Run, k: nat, id: InterfaceId)
    requires r.Valid() && k <= |r.events|
    ensures id in r.monitors[k].probedAt <==> LastProbe(r, k, id).Some?
    ensures id in r.monitors[k].probedAt ==> LastProbe(r, k, id) == Some(r.monitors[k].probedAt[id])
  {
    if k > 0 {
      ProbeTimesAreExact(r, k - 1, id);
      ProbeTimesStep(r, k - 1);
      if r.events[k - 1].op.Refresh? {
        RefreshedProbes(r.monitors[k - 1], r.events[k - 1].op.observed, id);
      } else if r.events[k - 1].op.HandOut? {
        StampedTimes(r.monitors[k - 1].probedAt, r.answers[k - 1].due, r.events[k - 1].now, id);
      }
    }
  }

  lemma DueMeans(m: Monitor, now: Time, id: InterfaceId)
    ensures id in DueAmong(m.paths, DueTest(m, now)) <==> exists p :: p in m.paths && p.id == id && IsDue(m, p, now)
  {
    var due := Filter(m.paths, DueTest(m, now));
    if i :| 0 <= i < |due| && due[i].id == id {
      assert due[i] in due;
    }
    if p :| p in m.paths && p.id == id && IsDue(m, p, now) {
      var i :| 0 <= i < |due| && due[i] == p;
      assert DueAmong(m.paths, DueTest(m, now))[i] == id;
    }
  }

  function EveryNow(r: Run, k: nat, id: InterfaceId): Time
    requires r.Shaped() && k <= |r.events|
  {
    if r.monitors[k].state.carrying == Some(id) then r.cadence.carryingEvery else r.cadence.standbyEvery
  }

  /** A probe is handed out for a path exactly when its link is up and none was handed out since the link
      last came up, or the last one is as long ago as the carrying (or standby) interval. */
  lemma ProbesArePacedExactly(r: Run, k: nat, id: InterfaceId)
    requires r.Valid() && k < |r.events| && r.events[k].op.HandOut?
    ensures r.answers[k].Due?
    ensures id in r.answers[k].due <==>
              && Up(r.monitors[k].paths, id)
              && (LastProbe(r, k, id).None?
                   || Elapsed(r.events[k].now, LastProbe(r, k, id).value) >= EveryNow(r, k, id))
  {
    var m, now := r.monitors[k], r.events[k].now;
    ProbeTimesStep(r, k);
    ProbeTimesAreExact(r, k, id);
    RolesAreAlwaysRight(r, k);
    MonitorBasics(r, k);
    DueMeans(m, now, id);
    forall p | p in m.paths && p.id == id && Usable(p) ensures Every(p, m.cadence) == EveryNow(r, k, id) {
      var i :| 0 <= i < |m.paths| && m.paths[i] == p;
    }
  }

  lemma {:induction false} LastProbeIsLater(r: Run, j: nat, k: nat, id: InterfaceId)
    requires r.Valid() && j < k <= |r.events| && r.answers[j].Due? && id in r.answers[j].due
    requires forall i :: j < i < k && r.events[i].op.Refresh? ==> Up(r.events[i].op.observed, id)
    ensures LastProbe(r, k, id).Some? && r.events[j].now <= LastProbe(r, k, id).value <= r.events[k - 1].now
  {
    ProbeTimesStep(r, j);
    if j < k - 1 {
      LastProbeIsLater(r, j, k - 1, id);
    }
  }

  /** While its link stays up a path is never probed more often than its interval, whatever else happens. */
  lemma ProbesAreSpaced(r: Run, j: nat, k: nat, id: InterfaceId)
    requires r.Valid() && j < k < |r.events|
    requires r.answers[j].Due? && id in r.answers[j].due && r.answers[k].Due? && id in r.answers[k].due
    requires forall i :: j < i < k && r.events[i].op.Refresh? ==> Up(r.events[i].op.observed, id)
    ensures r.events[k].now - r.events[j].now >= EveryNow(r, k, id)
  {
    ProbeTimesStep(r, k);
    ProbesArePacedExactly(r, k, id);
    LastProbeIsLater(r, j, k, id);
  }
}
