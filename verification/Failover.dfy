/** Which path carries traffic, and when that changes. */
module Failover {
  import opened Common
  import opened Quality
  import opened DegradationReporting

  datatype Kind = Wifi | Cellular | Ethernet | OtherKind

  /** `Down` is the source's `PathRole::Unusable`: the system says the link cannot be used. */
  datatype Role = Carrying | Standby | Down

  datatype NetworkPath = NetworkPath(
    id: InterfaceId, kind: Kind, gateway: Option<Address>,
    quality: PathQuality, role: Role, preference: int)

  type Address = nat

  datatype Config = Config(
    thresholds: Thresholds, degradeFor: Time, unusableFor: Time, stableFor: Time, minDwell: Time,
    recoverFor: Time, maxMoves: nat, window: Time)

  const SECOND: Time := 1_000_000_000

  datatype Reason = Acquired | LinkLost | Degraded | Preferred

  datatype Decision = Stay | Move(from: Option<InterfaceId>, to: InterfaceId, reason: Reason) | NoPath

  datatype State = State(
    carrying: Option<InterfaceId>, movedAt: Option<Time>, belowGoodSince: Option<Time>,
    unusableSince: Option<Time>, goodSince: map<InterfaceId, Time>, moves: seq<Time>)

  const NEW := State(None, None, None, None, map[], [])

  /** Adopting a running tunnel is not a move: no dwell, an empty budget. */
  function CarryingOn(path: InterfaceId): State { NEW.(carrying := Some(path)) }

  // ------------------------------------------------------------------ reading paths

  predicate Usable(p: NetworkPath) { p.role != Down }

  function BandIn(p: NetworkPath, cfg: Config): Band { p.quality.BandOf(cfg.thresholds) }

  /** Usable, `Good`, and measured: what runs a path's stability clock. */
  predicate ProvingGood(p: NetworkPath, cfg: Config) {
    Usable(p) && BandIn(p, cfg) == Good && p.quality.IsMeasured()
  }

  function Find(paths: seq<NetworkPath>, id: InterfaceId): (r: Option<NetworkPath>)
    ensures r.Some? ==> r.value in paths && r.value.id == id
    ensures r.None? ==> forall p :: p in paths ==> p.id != id
  {
    if paths == [] then None
    else if paths[0].id == id then Some(paths[0])
    else Find(paths[1..], id)
  }

  predicate UniqueIds(paths: seq<NetworkPath>) {
    forall i, j :: 0 <= i < j < |paths| ==> paths[i].id != paths[j].id
  }

  lemma FindInPlace(paths: seq<NetworkPath>, i: nat)
    requires UniqueIds(paths) && i < |paths|
    ensures Find(paths, paths[i].id) == Some(paths[i])
  {
  }

  lemma FindUnique(paths: seq<NetworkPath>, p: NetworkPath)
    requires UniqueIds(paths) && p in paths
    ensures Find(paths, p.id) == Some(p)
  {
  }

  lemma {:induction false} FindSamePlace(a: seq<NetworkPath>, b: seq<NetworkPath>, id: InterfaceId) returns (i: nat)
    requires |a| == |b| && forall j :: 0 <= j < |a| ==> a[j].id == b[j].id
    ensures (Find(a, id).None? && Find(b, id).None?)
            || (i < |a| && Find(a, id) == Some(a[i]) && Find(b, id) == Some(b[i]))
  {
    i := 0;
    if a != [] && a[0].id != id {
      i := FindSamePlace(a[1..], b[1..], id);
      i := i + 1;
    }
  }

  /** The carrying path, if it is listed and its link is up. */
  function CarryingPath(s: State, paths: seq<NetworkPath>): (r: Option<NetworkPath>)
    ensures r.Some? ==> r.value in paths && s.carrying == Some(r.value.id) && Usable(r.value)
  {
    if s.carrying.None? then None
    else
      var found := Find(paths, s.carrying.value);
      if found.Some? && Usable(found.value) then found else None
  }

  // ------------------------------------------------------------------ choosing

  /** How much less loss a poor path must show over a poor carrying one to be worth a move. */
  const SAME_BAND_MARGIN := 0.15

  predicate IsBetter(current: NetworkPath, p: NetworkPath, cfg: Config) {
    || BandIn(current, cfg).Below(BandIn(p, cfg))
    || (&& BandIn(current, cfg) == Poor && BandIn(p, cfg) == Poor && p.quality.IsMeasured()
        && p.quality.loss + SAME_BAND_MARGIN <= current.quality.loss)
  }

  /** An unmeasured round trip compares as the longest. */
  predicate Faster(a: NetworkPath, b: NetworkPath) {
    a.quality.rtt.Some? && (b.quality.rtt.None? || a.quality.rtt.value < b.quality.rtt.value)
  }

  /** Strictly preferable: band, then the user's preference, then round trip, then loss. */
  predicate Beats(a: NetworkPath, b: NetworkPath, cfg: Config) {
    var (bandA, bandB) := (BandIn(a, cfg), BandIn(b, cfg));
    || bandB.Below(bandA)
    || (&& bandA == bandB
        && (|| a.preference > b.preference
            || (&& a.preference == b.preference
                && (|| Faster(a, b)
                    || (!Faster(b, a) && a.quality.loss < b.quality.loss)))))
  }

  /** The best of `paths`, the first of equals. */
  function Best(paths: seq<NetworkPath>, cfg: Config): (r: Option<NetworkPath>)
    ensures r.None? <==> paths == []
    ensures r.Some? ==> r.value in paths
  {
    if paths == [] then None
    else
      var rest := Best(paths[1..], cfg);
      if rest.Some? && Beats(rest.value, paths[0], cfg) then rest else Some(paths[0])
  }

  /** Nothing listed is strictly preferable to the chosen path, and it is strictly preferable to
      everything listed before it: the choice is deterministic and depends only on the order of ties. */
  lemma {:induction false} BestIsFirstOfTheBest(paths: seq<NetworkPath>, cfg: Config) returns (k: nat)
    requires paths != []
    ensures k < |paths| && Best(paths, cfg) == Some(paths[k])
    ensures forall i :: 0 <= i < |paths| ==> !Beats(paths[i], paths[k], cfg)
    ensures forall i :: 0 <= i < k ==> Beats(paths[k], paths[i], cfg)
  {
    if |paths| == 1 {
      k := 0;
    } else {
      var j := BestIsFirstOfTheBest(paths[1..], cfg);
      if Beats(paths[1..][j], paths[0], cfg) {
        k := j + 1;
        forall i | 0 <= i < |paths| ensures !Beats(paths[i], paths[k], cfg) {
          if i > 0 { assert paths[i] == paths[1..][i - 1]; }
        }
        forall i | 0 <= i < k ensures Beats(paths[k], paths[i], cfg) {
          if i > 0 { assert paths[i] == paths[1..][i - 1]; }
        }
      } else {
        k := 0;
        forall i | 0 <= i < |paths| ensures !Beats(paths[i], paths[0], cfg) {
          if i > 0 {
            assert paths[i] == paths[1..][i - 1];
            assert !Beats(paths[i], paths[j + 1], cfg);
          }
        }
      }
    }
  }

  /** Neither is the less, an unknown round trip being longer than any. */
  predicate SameRtt(a: NetworkPath, b: NetworkPath) {
    || (a.quality.rtt.None? && b.quality.rtt.None?)
    || (a.quality.rtt.Some? && b.quality.rtt.Some? && a.quality.rtt.value == b.quality.rtt.value)
  }

  /** `q` comes no later than `p`: by the higher band, then the higher preference, then the shorter round trip
      (an unknown one last), then the lower loss. */
  predicate Leads(q: NetworkPath, p: NetworkPath, cfg: Config) {
    && BandIn(p, cfg).Rank() <= BandIn(q, cfg).Rank()
    && (BandIn(p, cfg) == BandIn(q, cfg) ==>
          && p.preference <= q.preference
          && (p.preference == q.preference ==>
                && (p.quality.rtt.Some? ==> q.quality.rtt.Some? && q.quality.rtt.value <= p.quality.rtt.value)
                && (SameRtt(p, q) ==> q.quality.loss <= p.quality.loss)))
  }

  /** Nothing tells them apart but their places. */
  predicate Tied(q: NetworkPath, p: NetworkPath, cfg: Config) {
    && BandIn(p, cfg) == BandIn(q, cfg) && p.preference == q.preference
    && SameRtt(p, q) && p.quality.loss == q.quality.loss
  }

  /** The path at place `k` is the first choice among those that are `eligible`. */
  ghost predicate FirstChoice(paths: seq<NetworkPath>, eligible: NetworkPath -> bool, cfg: Config, k: nat) {
    && k < |paths| && eligible(paths[k])
    && (forall i :: 0 <= i < |paths| && eligible(paths[i]) ==> Leads(paths[k], paths[i], cfg))
    && (forall i :: 0 <= i < k && eligible(paths[i]) ==> !Tied(paths[k], paths[i], cfg))
  }

  lemma BeatsMeans(a: NetworkPath, b: NetworkPath, cfg: Config)
    ensures Beats(a, b, cfg) <==> Leads(a, b, cfg) && !Tied(a, b, cfg)
    ensures !Beats(b, a, cfg) <==> Leads(a, b, cfg)
  {
  }

  /** The best of the eligible paths is the first choice among them. */
  lemma {:induction false} BestIsFirstChoice(paths: seq<NetworkPath>, eligible: NetworkPath -> bool, cfg: Config)
    returns (k: nat)
    requires Filter(paths, eligible) != []
    ensures FirstChoice(paths, eligible, cfg, k) && Best(Filter(paths, eligible), cfg) == Some(paths[k])
  {
    var rest := paths[1..];
    assert forall i :: 1 <= i < |paths| ==> paths[i] == rest[i - 1];
    FilterHead(paths, eligible);
    if !eligible(paths[0]) {
      var j := BestIsFirstChoice(rest, eligible, cfg);
      k := j + 1;
    } else if Filter(rest, eligible) == [] {
      k := 0;
      NothingElse(paths, eligible, cfg);
    } else {
      var j := BestIsFirstChoice(rest, eligible, cfg);
      k := FirstOfTwo(paths, eligible, cfg, j);
    }
  }

  lemma NothingElse(paths: seq<NetworkPath>, eligible: NetworkPath -> bool, cfg: Config)
    requires paths != [] && eligible(paths[0]) && Filter(paths[1..], eligible) == []
    ensures FirstChoice(paths, eligible, cfg, 0) && Best(Filter(paths, eligible), cfg) == Some(paths[0])
  {
    FilterHead(paths, eligible);
    assert forall i :: 1 <= i < |paths| ==> paths[i] in paths[1..];
    assert forall p :: p in paths[1..] ==> !eligible(p);
  }

  lemma FirstOfTwo(paths: seq<NetworkPath>, eligible: NetworkPath -> bool, cfg: Config, j: nat) returns (k: nat)
    requires paths != [] && eligible(paths[0]) && FirstChoice(paths[1..], eligible, cfg, j)
    requires Filter(paths[1..], eligible) != [] && Best(Filter(paths[1..], eligible), cfg) == Some(paths[1..][j])
    ensures FirstChoice(paths, eligible, cfg, k) && Best(Filter(paths, eligible), cfg) == Some(paths[k])
  {
    var rest, head, best := paths[1..], paths[0], paths[1..][j];
    assert forall i :: 1 <= i < |paths| ==> paths[i] == rest[i - 1];
    FilterHead(paths, eligible);
    assert Filter(paths, eligible)[1..] == Filter(rest, eligible);
    BeatsMeans(best, head, cfg);
    BeatsMeans(head, best, cfg);
    if Beats(best, head, cfg) {
      k := j + 1;
    } else {
      k := 0;
      forall i | 0 <= i < |rest| && eligible(rest[i]) ensures Leads(head, rest[i], cfg) {
        LeadsTransitive(head, best, rest[i], cfg);
      }
    }
  }

  lemma LeadsTransitive(a: NetworkPath, b: NetworkPath, c: NetworkPath, cfg: Config)
    requires Leads(a, b, cfg) && Leads(b, c, cfg)
    ensures Leads(a, c, cfg)
  {
  }

  // ------------------------------------------------------------------ one evaluation

  function KeepUsable(clocks: map<InterfaceId, Time>, paths: seq<NetworkPath>): map<InterfaceId, Time> {
    map id | id in clocks && (exists p :: p in paths && p.id == id && Usable(p)) :: clocks[id]
  }

  function TickOne(clocks: map<InterfaceId, Time>, p: NetworkPath, now: Time, cfg: Config): map<InterfaceId, Time> {
    if !ProvingGood(p, cfg) then clocks - {p.id}
    else if p.id in clocks then clocks
    else clocks[p.id := now]
  }

  /** The stability clocks after one pass over the paths, in order. */
  function Tick(clocks: map<InterfaceId, Time>, paths: seq<NetworkPath>, now: Time, cfg: Config)
    : map<InterfaceId, Time>
  {
    if paths == [] then clocks
    else TickOne(Tick(clocks, paths[..|paths| - 1], now, cfg), paths[|paths| - 1], now, cfg)
  }

  function InWindow(now: Time, window: Time): Time -> bool { (at: Time) => Elapsed(now, at) < window }

  function Forgotten(s: State, paths: seq<NetworkPath>, now: Time, cfg: Config): State {
    s.(goodSince := Tick(KeepUsable(s.goodSince, paths), paths, now, cfg),
       moves := Filter(s.moves, InWindow(now, cfg.window)))
  }

  /** The clocks on the carrying path: how long it has been below `Good`, and how long `Unusable`. */
  function WithCarryingClocks(s: State, current: NetworkPath, now: Time, cfg: Config): State {
    var band := BandIn(current, cfg);
    s.(belowGoodSince := if band.Below(Good) then Since(s.belowGoodSince, now) else None,
       unusableSince := if band == Unusable then Since(s.unusableSince, now) else None)
  }

  predicate Dwelled(s: State, now: Time, cfg: Config) {
    s.movedAt.None? || Elapsed(now, s.movedAt.value) >= cfg.minDwell
  }

  predicate Stable(s: State, p: NetworkPath, now: Time, cfg: Config) {
    BandIn(p, cfg) == Good && p.id in s.goodSince && Elapsed(now, s.goodSince[p.id]) >= cfg.stableFor
  }

  predicate Proven(s: State, p: NetworkPath, now: Time, cfg: Config) {
    if BandIn(p, cfg) == Good then Stable(s, p, now, cfg) else p.quality.IsMeasured()
  }

  predicate Urgent(s: State, current: NetworkPath, now: Time, cfg: Config) {
    BandIn(current, cfg) == Unusable && Held(now, s.unusableSince, cfg.unusableFor)
  }

  predicate Sustained(s: State, current: NetworkPath, now: Time, cfg: Config) {
    Urgent(s, current, now, cfg) || Held(now, s.belowGoodSince, cfg.degradeFor)
  }

  /** A usable, clearly better path to leave a bad carrying path for. */
  function ReadyTest(s: State, current: NetworkPath, now: Time, cfg: Config): NetworkPath -> bool {
    (p: NetworkPath) =>
      && Usable(p) && p.id != current.id && IsBetter(current, p, cfg)
      && (Urgent(s, current, now, cfg) || Proven(s, p, now, cfg))
  }

  /** A usable, stable path the user likes better than the carrying one. */
  function PreferredTest(s: State, current: NetworkPath, now: Time, cfg: Config): NetworkPath -> bool {
    (p: NetworkPath) =>
      Usable(p) && p.id != current.id && p.preference > current.preference && Stable(s, p, now, cfg)
  }

  function UsableTest(): NetworkPath -> bool { (p: NetworkPath) => Usable(p) }

  function MovedTo(s: State, to: InterfaceId, now: Time, counts: bool): State {
    var moved := s.(carrying := Some(to), belowGoodSince := None, unusableSince := None);
    if counts then moved.(movedAt := Some(now), moves := s.moves + [now]) else moved
  }

  /** What a look at `paths` decides and leaves behind: the specification of `Evaluate`. */
  function Evaluated(s: State, paths: seq<NetworkPath>, now: Time, cfg: Config): (State, Decision) {
    var next := Forgotten(s, paths, now, cfg);
    match CarryingPath(s, paths)
    case None =>
      var to := Best(Filter(paths, UsableTest()), cfg);
      if to.None? then
        (next.(carrying := None, movedAt := None, belowGoodSince := None, unusableSince := None), NoPath)
      else
        (MovedTo(next, to.value.id, now, s.carrying.Some?),
         Move(s.carrying, to.value.id, if s.carrying.Some? then LinkLost else Acquired))
    case Some(current) =>
      var next := WithCarryingClocks(next, current, now, cfg);
      var target := Target(next, paths, current, now, cfg);
      if target.None? then (next, Stay)
      else (MovedTo(next, target.value.0, now, true), Move(Some(current.id), target.value.0, target.value.1))
  }

  /** Where a voluntary move would go, if one is due. `s` carries this look's clocks and budget. */
  function Target(s: State, paths: seq<NetworkPath>, current: NetworkPath, now: Time, cfg: Config)
    : Option<(InterfaceId, Reason)>
  {
    if !Dwelled(s, now, cfg) || |s.moves| >= cfg.maxMoves then None
    else if BandIn(current, cfg).Below(Good) then
      var to := Best(Filter(paths, ReadyTest(s, current, now, cfg)), cfg);
      if Sustained(s, current, now, cfg) && to.Some? then Some((to.value.id, Degraded)) else None
    else
      var to := Best(Filter(paths, PreferredTest(s, current, now, cfg)), cfg);
      if to.Some? then Some((to.value.id, Preferred)) else None
  }

  /** After an evaluation the carrying path is listed and up, or there is none and none could be found. */
  lemma EvaluatedCarriesOnAUsablePath(s: State, paths: seq<NetworkPath>, now: Time, cfg: Config)
    ensures var (next, decision) := Evaluated(s, paths, now, cfg);
            && (decision == Stay ==> CarryingPath(s, paths).Some? && next.carrying == s.carrying)
            && (decision.Move? ==> next.carrying == Some(decision.to))
            && (decision == NoPath <==> forall p :: p in paths ==> !Usable(p))
            && (decision == NoPath <==> next.carrying.None?)
            && (next.carrying.Some? ==> exists p :: p in paths && Usable(p) && next.carrying == Some(p.id))
  {
    var seen := Forgotten(s, paths, now, cfg);
    match CarryingPath(s, paths) {
      case None =>
        var up := Filter(paths, UsableTest());
        assert forall p :: p in up <==> p in paths && Usable(p);
        assert up != [] ==> up[0] in up;
      case Some(current) =>
        var next := WithCarryingClocks(seen, current, now, cfg);
        var ready := Filter(paths, ReadyTest(next, current, now, cfg));
        var liked := Filter(paths, PreferredTest(next, current, now, cfg));
        assert ready != [] ==> Best(ready, cfg).value in ready;
        assert liked != [] ==> Best(liked, cfg).value in liked;
    }
  }

  /** The evaluation as the program runs it: a copy of the state edited step by step. */
  method Evaluate(s: State, paths: seq<NetworkPath>, now: Time, cfg: Config)
    returns (next: State, decision: Decision)
    ensures (next, decision) == Evaluated(s, paths, now, cfg)
  {
    next := s;
    var clocks := KeepUsable(next.goodSince, paths);
    for i := 0 to |paths|
      invariant clocks == Tick(KeepUsable(s.goodSince, paths), paths[..i], now, cfg)
    {
      var p := paths[i];
      assert paths[..i + 1][..i] == paths[..i];
      if ProvingGood(p, cfg) {
        if p.id !in clocks {
          clocks := clocks[p.id := now];
        }
      } else {
        clocks := clocks - {p.id};
      }
    }
    assert paths[..|paths|] == paths;
    next := next.(goodSince := clocks);
    next := next.(moves := Filter(next.moves, InWindow(now, cfg.window)));

    var carrying := CarryingPath(s, paths);
    if carrying.None? {
      var lost := s.carrying.Some?;
      var best := Best(Filter(paths, UsableTest()), cfg);
      if best.None? {
        next := next.(carrying := None);
        next := next.(movedAt := None, belowGoodSince := None, unusableSince := None);
        return next, NoPath;
      }
      next := MovedTo(next, best.value.id, now, lost);
      return next, Move(s.carrying, best.value.id, if lost then LinkLost else Acquired);
    }

    var current := carrying.value;
    var band := BandIn(current, cfg);
    next := next.(belowGoodSince := if band.Below(Good) then Since(s.belowGoodSince, now) else None);
    next := next.(unusableSince := if band == Unusable then Since(s.unusableSince, now) else None);
    var dwelled := Dwelled(s, now, cfg);
    var inBudget := |next.moves| < cfg.maxMoves;
    if !(dwelled && inBudget) {
      return next, Stay;
    }
    if band.Below(Good) && Sustained(next, current, now, cfg) {
      var to := Best(Filter(paths, ReadyTest(next, current, now, cfg)), cfg);
      if to.Some? {
        next := MovedTo(next, to.value.id, now, true);
        return next, Move(Some(current.id), to.value.id, Degraded);
      }
    }
    if band == Good {
      var to := Best(Filter(paths, PreferredTest(next, current, now, cfg)), cfg);
      if to.Some? {
        next := MovedTo(next, to.value.id, now, true);
        return next, Move(Some(current.id), to.value.id, Preferred);
      }
    }
    decision := Stay;
  }

  // ------------------------------------------------------------------ why it stays

  function OtherTest(current: NetworkPath): NetworkPath -> bool {
    (p: NetworkPath) => Usable(p) && p.id != current.id
  }

  /** The reason the machine gives for staying on the carrying path. */
  function ExplainStaying(s: State, paths: seq<NetworkPath>, now: Time, cfg: Config): NoMove {
    match CarryingPath(s, paths)
    case None => OnlyPath
    case Some(current) =>
      var others := Filter(paths, OtherTest(current));
      if others == [] then OnlyPath
      else if !exists p :: p in others && IsBetter(current, p, cfg) then NoBetterPath
      else if !Dwelled(s, now, cfg) then Dwell
      else if |Filter(s.moves, InWindow(now, cfg.window))| >= cfg.maxMoves then Budget
      else Proving
  }
}
