/** The monitor's reports are a run of the degradation reporter over its looks, across adoptions too, so every
    theorem about such runs holds of the monitor. */
module MonitorReporting {
  import opened Common
  import opened Quality
  import opened DegradationReporting
  import opened PathMonitoring
  import opened MonitorRuns
  import R = ReportingRuns

  /** The events among the first `k` that were reports. */
  function Reports(r: Run, k: nat): (d: seq<nat>)
    requires r.Shaped() && k <= |r.events|
    ensures forall j :: 0 <= j < |d| ==> d[j] < k && r.events[d[j]].op.Report?
  {
    if k == 0 then [] else Reports(r, k - 1) + if r.events[k - 1].op.Report? then [k - 1] else []
  }

  lemma {:induction false} ReportsAreAll(r: Run, k: nat)
    requires r.Shaped() && k <= |r.events|
    ensures forall i, j :: 0 <= i < j < |Reports(r, k)| ==> Reports(r, k)[i] < Reports(r, k)[j]
    ensures forall e :: 0 <= e < k && r.events[e].op.Report? ==> e in Reports(r, k)
  {
    if k > 0 {
      ReportsAreAll(r, k - 1);
    }
  }

  function LookOf(r: Run, e: nat): R.TimedLook
    requires r.Shaped() && e < |r.events|
  {
    R.TimedLook(r.events[e].now, LookAt(r.monitors[e], r.events[e].now))
  }

  /** Look `j` of the reporter's run is report `e` of the monitor's. */
  predicate MirrorsAt(g: R.Run, j: nat, r: Run, e: nat)
    requires g.Shaped() && r.Shaped() && j < |g.looks| && e < |r.events|
  {
    g.looks[j] == LookOf(r, e) && r.answers[e] == Said(g.changes[j])
  }

  /** `g` is the reporter's run that the first `k` events amount to. */
  ghost predicate Mirrors(g: R.Run, r: Run, k: nat)
    requires r.Shaped() && k <= |r.events|
  {
    && g.Valid() && g.degradeFor == r.cfg.degradeFor && g.recoverFor == r.cfg.recoverFor
    && |g.looks| == |Reports(r, k)| && g.memories[|g.looks|] == r.monitors[k].memory
    && (forall j :: 0 <= j < |g.looks| ==> MirrorsAt(g, j, r, Reports(r, k)[j]))
  }

  /** Only a report changes what the reporter remembers. */
  lemma MemoryStep(r: Run, k: nat)
    requires r.Valid() && k < |r.events|
    ensures !r.events[k].op.Report? ==> r.monitors[k + 1].memory == r.monitors[k].memory
    ensures r.events[k].op.Report? ==>
              && r.answers[k].Said?
              && Observed(r.monitors[k].memory, LookOf(r, k).look, r.events[k].now, r.cfg.degradeFor, r.cfg.recoverFor)
                 == (r.monitors[k + 1].memory, r.answers[k].change)
  {
    MonitorBasics(r, k);
    assert r.Follows(k);
  }

  lemma OtherEventKeepsMirror(g: R.Run, r: Run, k: nat)
    requires r.Valid() && k < |r.events| && !r.events[k].op.Report? && Mirrors(g, r, k)
    ensures Mirrors(g, r, k + 1)
  {
    MemoryStep(r, k);
    var d := Reports(r, k + 1);
    forall j | 0 <= j < |g.looks| ensures MirrorsAt(g, j, r, d[j]) {
      assert MirrorsAt(g, j, r, Reports(r, k)[j]);
    }
  }

  lemma Extended(before: R.Run, r: Run, k: nat) returns (g: R.Run)
    requires r.Valid() && k < |r.events| && r.events[k].op.Report? && Mirrors(before, r, k)
    ensures Mirrors(g, r, k + 1)
  {
    var n, d := |before.looks|, Reports(r, k + 1);
    if n > 0 {
      assert MirrorsAt(before, n - 1, r, Reports(r, k)[n - 1]);
    }
    MemoryStep(r, k);
    g := R.RunExtends(before, LookOf(r, k));
    forall j | 0 <= j < |g.looks| ensures MirrorsAt(g, j, r, d[j]) {
      if j < n { assert MirrorsAt(before, j, r, Reports(r, k)[j]); }
    }
  }

  /** The monitor runs the reporter on its looks, report for report. */
  lemma {:induction false} MonitorIsAReporterRun(r: Run, k: nat) returns (g: R.Run)
    requires r.Valid() && k <= |r.events|
    ensures Mirrors(g, r, k)
  {
    if k == 0 {
      g := R.Run(r.cfg.degradeFor, r.cfg.recoverFor, [], [BLANK], []);
    } else {
      g := MonitorIsAReporterRun(r, k - 1);
      if r.events[k - 1].op.Report? {
        g := Extended(g, r, k - 1);
      } else {
        OtherEventKeepsMirror(g, r, k - 1);
      }
    }
  }

  // ------------------------------------------------------------------ what is said was the case

  /** The report at event `e` looked at a measured path that was `Good` (or, for `good == false`, below). */
  predicate Side(r: Run, e: nat, good: bool)
    requires r.Shaped() && e < |r.events|
  {
    LookOf(r, e).look.band.Some? && (LookOf(r, e).look.band.value == Good <==> good)
  }

  /** From a report at least `long` ago that was on the given side, up to the one at `k`, one path carried and
      no report was on the other side. */
  ghost predicate ThroughFor(r: Run, k: nat, good: bool, long: Time)
    requires r.Shaped() && k < |r.events|
  {
    exists i: nat ::
      && i <= k && r.events[i].op.Report? && Side(r, i, good) && r.events[k].now - r.events[i].now >= long
      && forall e :: i <= e <= k && r.events[e].op.Report? ==>
           LookOf(r, e).look.carrying == LookOf(r, k).look.carrying && !Side(r, e, !good)
  }

  lemma WhichReport(g: R.Run, r: Run, k: nat, j: nat, e: nat) returns (x: nat)
    requires r.Shaped() && k <= |r.events| && Mirrors(g, r, k) && j < |g.looks|
    requires Reports(r, k)[j] <= e < k && r.events[e].op.Report?
    ensures j <= x < |g.looks| && MirrorsAt(g, x, r, e)
  {
    ReportsAreAll(r, k);
    x :| 0 <= x < |Reports(r, k)| && Reports(r, k)[x] == e;
  }

  lemma SeenThrough(g: R.Run, r: Run, k: nat, n: nat, good: bool, j: nat, e: nat)
    requires r.Shaped() && k < |r.events| && Mirrors(g, r, k + 1) && |g.looks| == n + 1 && MirrorsAt(g, n, r, k)
    requires j <= n && g.Through(j, n, good) && Reports(r, k + 1)[j] <= e <= k && r.events[e].op.Report?
    ensures LookOf(r, e).look.carrying == LookOf(r, k).look.carrying && !Side(r, e, !good)
  {
    var x := WhichReport(g, r, k + 1, j, e);
    assert !g.Opposite(x, good);
  }

  lemma ThroughMeans(g: R.Run, r: Run, k: nat, n: nat, good: bool, long: Time)
    requires r.Valid() && k < |r.events| && Mirrors(g, r, k + 1) && |g.looks| == n + 1 && MirrorsAt(g, n, r, k)
    requires g.ThroughFor(n, good, long)
    ensures ThroughFor(r, k, good, long)
  {
    var j: nat :| g.Through(j, n, good) && g.looks[n].now - g.looks[j].now >= long;
    var i := Reports(r, k + 1)[j];
    assert MirrorsAt(g, j, r, i);
    forall e | i <= e <= k && r.events[e].op.Report?
      ensures LookOf(r, e).look.carrying == LookOf(r, k).look.carrying && !Side(r, e, !good)
    {
      SeenThrough(g, r, k, n, good, j, e);
    }
  }

  /** Over every run, whatever is refreshed, sampled, decided and adopted meanwhile: "degraded" and "recovered"
      are said only after the reports of `degrade_for` (`recover_for`) saw one path carry, on that side from the
      first to the last and never on the other, and are about that path. */
  lemma WhatIsSaidWasSo(r: Run, k: nat)
    requires r.Valid() && k < |r.events| && r.events[k].op.Report?
    ensures r.answers[k].Said?
    ensures var change := r.answers[k].change;
            change.Some? ==>
              match change.value
              case BecameDegraded(d) =>
                && LookOf(r, k).look.carrying == Some(d.path) && LookOf(r, k).look.band == Some(d.band)
                     && d.band != Good
                && ThroughFor(r, k, false, r.cfg.degradeFor)
              case Recovered(path) =>
                LookOf(r, k).look.carrying == Some(path) && Side(r, k, true) && ThroughFor(r, k, true, r.cfg.recoverFor)
  {
    var g := MonitorIsAReporterRun(r, k + 1);
    var n := |g.looks| - 1;
    MemoryStep(r, k);
    assert MirrorsAt(g, n, r, Reports(r, k + 1)[n]);
    R.DegradedExactly(g, n);
    R.RecoveredExactly(g, n);
    if r.answers[k].change.Some? {
      match r.answers[k].change.value {
        case BecameDegraded(_) => ThroughMeans(g, r, k, n, false, r.cfg.degradeFor);
        case Recovered(_) => ThroughMeans(g, r, k, n, true, r.cfg.recoverFor);
      }
    }
  }
}
