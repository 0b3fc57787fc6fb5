/** The path monitor: what the machine's paths are, how good each is, and which carries. */
module PathMonitoring {
  import opened Common
  import opened Quality
  import opened DegradationReporting
  import opened Failover

  datatype GatewayChange = GatewayChange(id: InterfaceId, from: Option<Address>, to: Option<Address>)

  datatype PathsDelta = PathsDelta(changed: bool, carryingGateway: Option<GatewayChange>)

  datatype Cadence = Cadence(carryingEvery: Time, standbyEvery: Time)

  const DEFAULT_CADENCE := Cadence(10 * SECOND, 30 * SECOND)

  /** A sample older than this many probe intervals is no longer evidence. */
  const STALE_AFTER_INTERVALS := 3

  datatype Monitor = Monitor(
    cfg: Config, cadence: Cadence, paths: seq<NetworkPath>, state: State, memory: Memory,
    probedAt: map<InterfaceId, Time>, sampledAt: map<InterfaceId, Time>)

  function NewMonitor(cfg: Config, cadence: Cadence): Monitor {
    Monitor(cfg, cadence, [], NEW, BLANK, map[], map[])
  }

  // ------------------------------------------------------------------ pieces of a step

  function RoleOf(p: NetworkPath, carrying: Option<InterfaceId>): Role {
    if p.role == Down then Down else if Some(p.id) == carrying then Carrying else Standby
  }

  function RoleSetter(carrying: Option<InterfaceId>): NetworkPath -> NetworkPath {
    (p: NetworkPath) => p.(role := RoleOf(p, carrying))
  }

  function WithRoles(m: Monitor): Monitor {
    m.(paths := Map(m.paths, RoleSetter(m.state.carrying)))
  }

  /** What identifies a path for the purpose of "did anything change". */
  datatype Shape = Shape(id: InterfaceId, kind: Kind, gateway: Option<Address>, up: bool)

  function ShapeOf(): NetworkPath -> Shape {
    (p: NetworkPath) => Shape(p.id, p.kind, p.gateway, Usable(p))
  }

  function ById(): (Shape, Shape) -> bool { (a: Shape, b: Shape) => a.id <= b.id }

  function Shapes(paths: seq<NetworkPath>): seq<Shape> {
    StableSort(Map(paths, ShapeOf()), ById())
  }

  function QualityKeeper(known: seq<NetworkPath>): NetworkPath -> NetworkPath {
    (p: NetworkPath) =>
      var before := Find(known, p.id);
      if before.Some? then p.(quality := before.value.quality) else p
  }

  function GatewayNews(m: Monitor, observed: seq<NetworkPath>): Option<GatewayChange> {
    if m.state.carrying.None? then None
    else
      var before := Find(m.paths, m.state.carrying.value);
      var after := Find(observed, m.state.carrying.value);
      if before.Some? && after.Some? && Usable(after.value) && after.value.gateway != before.value.gateway
      then Some(GatewayChange(before.value.id, before.value.gateway, after.value.gateway))
      else None
  }

  /** What is remembered about paths still up (`up`), or still listed. */
  function Remembered(times: map<InterfaceId, Time>, paths: seq<NetworkPath>, up: bool): map<InterfaceId, Time> {
    map id | id in times && (exists p :: p in paths && p.id == id && (up ==> Usable(p))) :: times[id]
  }

  /** A new list from the system. */
  function Refreshed(m: Monitor, observed: seq<NetworkPath>): (Monitor, PathsDelta) {
    var kept := Map(observed, QualityKeeper(m.paths));
    var next := m.(
      paths := kept,
      probedAt := Remembered(m.probedAt, kept, true),
      sampledAt := Remembered(m.sampledAt, kept, false));
    (WithRoles(next), PathsDelta(Shapes(m.paths) != Shapes(kept), GatewayNews(m, kept)))
  }

  function IndexOf(paths: seq<NetworkPath>, id: InterfaceId): (r: Option<nat>)
    ensures r.Some? ==> r.value < |paths| && paths[r.value].id == id && Find(paths, id) == Some(paths[r.value])
    ensures r.None? ==> forall i :: 0 <= i < |paths| ==> paths[i].id != id
    ensures r.Some? ==> forall i :: 0 <= i < r.value ==> paths[i].id != id
  {
    if paths == [] then None
    else if paths[0].id == id then Some(0)
    else
      var rest := IndexOf(paths[1..], id);
      if rest.None? then None else Some(rest.value + 1)
  }

  /** One probe result. A sample for a path not in the list is dropped. */
  function Sampled(m: Monitor, id: InterfaceId, sample: Sample, now: Time): Monitor {
    var at := IndexOf(m.paths, id);
    if at.None? then m
    else
      var p := m.paths[at.value];
      m.(paths := m.paths[at.value := p.(quality := p.quality.Observe(sample))], sampledAt := m.sampledAt[id := now])
  }

  function Every(p: NetworkPath, cadence: Cadence): Time {
    if p.role == Carrying then cadence.carryingEvery else cadence.standbyEvery
  }

  predicate IsFresh(m: Monitor, p: NetworkPath, now: Time) {
    p.id in m.sampledAt && Elapsed(now, m.sampledAt[p.id]) <= Every(p, m.cadence) * STALE_AFTER_INTERVALS
  }

  function FreshView(m: Monitor, now: Time): NetworkPath -> NetworkPath {
    (p: NetworkPath) => if IsFresh(m, p, now) then p else p.(quality := UNMEASURED)
  }

  /** The paths as the decision sees them: stale ones read as unmeasured. */
  function Evidence(m: Monitor, now: Time): seq<NetworkPath> {
    Map(m.paths, FreshView(m, now))
  }

  function Decided(m: Monitor, now: Time): (Monitor, Decision) {
    var (next, decision) := Evaluated(m.state, Evidence(m, now), now, m.cfg);
    (WithRoles(m.(state := next)), decision)
  }

  function LookAt(m: Monitor, now: Time): Look {
    var evidence := Evidence(m, now);
    var seen := if m.state.carrying.None? then None else Find(evidence, m.state.carrying.value);
    Look(m.state.carrying,
         if seen.Some? && seen.value.quality.IsMeasured() then Some(BandIn(seen.value, m.cfg)) else None,
         ExplainStaying(m.state, evidence, now, m.cfg))
  }

  function Reported(m: Monitor, now: Time): (Monitor, Option<Change>) {
    var (memory, change) := Observed(m.memory, LookAt(m, now), now, m.cfg.degradeFor, m.cfg.recoverFor);
    (m.(memory := memory), change)
  }

  predicate IsDue(m: Monitor, p: NetworkPath, now: Time) {
    Usable(p) && (p.id !in m.probedAt || Elapsed(now, m.probedAt[p.id]) >= Every(p, m.cadence))
  }

  function DueTest(m: Monitor, now: Time): NetworkPath -> bool { (p: NetworkPath) => IsDue(m, p, now) }

  function IdOf(): NetworkPath -> InterfaceId { (p: NetworkPath) => p.id }

  function DueAmong(paths: seq<NetworkPath>, test: NetworkPath -> bool): seq<InterfaceId> {
    Map(Filter(paths, test), IdOf())
  }

  lemma DueWithOneMore(paths: seq<NetworkPath>, p: NetworkPath, test: NetworkPath -> bool)
    ensures DueAmong(paths + [p], test) == DueAmong(paths, test) + if test(p) then [p.id] else []
  {
    FilterConcat(paths, [p], test);
  }

  function Stamped(times: map<InterfaceId, Time>, ids: seq<InterfaceId>, now: Time): map<InterfaceId, Time> {
    times + map id | id in ids :: now
  }

  lemma StampedOneMore(times: map<InterfaceId, Time>, ids: seq<InterfaceId>, id: InterfaceId, now: Time)
    ensures Stamped(times, ids + [id], now) == Stamped(times, ids, now)[id := now]
  {
  }

  /** The paths to probe now, marked as handed out. */
  function HandedOut(m: Monitor, now: Time): (Monitor, seq<InterfaceId>) {
    var due := DueAmong(m.paths, DueTest(m, now));
    (m.(probedAt := Stamped(m.probedAt, due, now)), due)
  }

  function Adopted(m: Monitor, path: InterfaceId): Monitor {
    WithRoles(m.(state := CarryingOn(path)))
  }

  // ------------------------------------------------------------------ the monitor

  class PathMonitor {
    const cfg: Config
    const cadence: Cadence
    var paths: seq<NetworkPath>
    var state: State
    const reporter: DegradationReporter
    var probedAt: map<InterfaceId, Time>
    var sampledAt: map<InterfaceId, Time>

    function View(): Monitor
      reads this, reporter
    {
      Monitor(cfg, cadence, paths, state, reporter.Contents(), probedAt, sampledAt)
    }

    constructor (cfg: Config, cadence: Cadence)
      ensures View() == NewMonitor(cfg, cadence)
      ensures fresh(reporter)
    {
      this.cfg, this.cadence := cfg, cadence;
      paths, state, probedAt, sampledAt := [], NEW, map[], map[];
      reporter := new DegradationReporter();
    }

    method ApplyRoles()
      modifies this`paths
      ensures View() == WithRoles(old(View()))
    {
      var carrying, done := state.carrying, [];
      for i := 0 to |paths|
        invariant paths == old(paths) && |done| == i
        invariant forall j :: 0 <= j < i ==> done[j] == RoleSetter(carrying)(paths[j])
      {
        var p := paths[i];
        var role := if p.role == Down then Down else if Some(p.id) == carrying then Carrying else Standby;
        done := done + [p.(role := role)];
      }
      assert done == Map(paths, RoleSetter(carrying));
      paths := done;
    }

    method SetCarrying(path: InterfaceId)
      modifies this`state, this`paths
      ensures View() == Adopted(old(View()), path)
    {
      state := CarryingOn(path);
      ApplyRoles();
    }

    method KeepQualities(observed: seq<NetworkPath>) returns (kept: seq<NetworkPath>)
      ensures kept == Map(observed, QualityKeeper(paths))
    {
      kept := [];
      for i := 0 to |observed|
        invariant |kept| == i
        invariant forall j :: 0 <= j < i ==> kept[j] == QualityKeeper(paths)(observed[j])
      {
        var path := observed[i];
        var known := Find(paths, path.id);
        if known.Some? {
          path := path.(quality := known.value.quality);
        }
        kept := kept + [path];
      }
    }

    method PathsChanged(observed: seq<NetworkPath>) returns (delta: PathsDelta)
      modifies this`paths, this`probedAt, this`sampledAt
      ensures (View(), delta) == Refreshed(old(View()), observed)
    {
      var before := Shapes(paths);
      var kept := KeepQualities(observed);
      delta := PathsDelta(before != Shapes(kept), GatewayNews(View(), kept));
      probedAt := Remembered(probedAt, kept, true);
      sampledAt := Remembered(sampledAt, kept, false);
      paths := kept;
      ApplyRoles();
    }

    method Observe(path: InterfaceId, sample: Sample, now: Time)
      modifies this`paths, this`sampledAt
      ensures View() == Sampled(old(View()), path, sample, now)
    {
      var at := IndexOf(paths, path);
      if at.Some? {
        var p := paths[at.value];
        paths := paths[at.value := p.(quality := p.quality.Observe(sample))];
        sampledAt := sampledAt[path := now];
      }
    }

    method Evaluate(now: Time) returns (decision: Decision)
      modifies this`state, this`paths
      ensures (View(), decision) == Decided(old(View()), now)
    {
      var evidence := Evidence(View(), now);
      var next;
      next, decision := Failover.Evaluate(state, evidence, now, cfg);
      state := next;
      ApplyRoles();
    }

    method Report(now: Time) returns (change: Option<Change>)
      modifies reporter
      ensures (View(), change) == Reported(old(View()), now)
    {
      change := reporter.Observe(LookAt(View(), now), now, cfg.degradeFor, cfg.recoverFor);
    }

    method FindDue(now: Time) returns (due: seq<InterfaceId>)
      ensures due == DueAmong(paths, DueTest(View(), now))
    {
      due := [];
      ghost var test := DueTest(View(), now);
      for i := 0 to |paths|
        invariant due == DueAmong(paths[..i], test)
      {
        var path := paths[i];
        DueWithOneMore(paths[..i], path, test);
        assert paths[..i + 1] == paths[..i] + [path];
        if path.role != Down {
          var every := if path.role == Carrying then cadence.carryingEvery else cadence.standbyEvery;
          if path.id !in probedAt || Elapsed(now, probedAt[path.id]) >= every {
            due := due + [path.id];
          }
        }
      }
      assert paths[..|paths|] == paths;
    }

    method DueProbes(now: Time) returns (due: seq<InterfaceId>)
      modifies this`probedAt
      ensures (View(), due) == HandedOut(old(View()), now)
    {
      due := FindDue(now);
      assert probedAt == Stamped(probedAt, due[..0], now);
      for i := 0 to |due|
        invariant probedAt == Stamped(old(probedAt), due[..i], now)
      {
        StampedOneMore(old(probedAt), due[..i], due[i], now);
        assert due[..i + 1] == due[..i] + [due[i]];
        probedAt := probedAt[due[i] := now];
      }
      assert due[..|due|] == due;
    }
  }
}
