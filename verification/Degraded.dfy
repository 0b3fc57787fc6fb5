/** Telling the user that the carrying path is poor and why the connection stays on it. */
module DegradationReporting {
  import opened Common
  import opened Quality

  /** Why the connection is staying on a poor carrying path. */
  datatype NoMove = OnlyPath | NoBetterPath | Proving | Dwell | Budget

  datatype Degradation = Degradation(path: InterfaceId, band: Band, staying: NoMove)

  datatype Change = BecameDegraded(what: Degradation) | Recovered(path: InterfaceId)

  /** One look at the carrying path. `band` is `None` when nothing recent enough was measured. */
  datatype Look = Look(carrying: Option<InterfaceId>, band: Option<Band>, staying: NoMove)

  /** What the reporter remembers. */
  datatype Memory = Memory(
    carrying: Option<InterfaceId>, poorSince: Option<Time>, goodSince: Option<Time>, reported: Option<Degradation>)

  const BLANK := Memory(None, None, None, None)

  predicate IsNews(before: Option<Degradation>, now: Degradation) {
    || before.None?
    || before.value.path != now.path || before.value.staying != now.staying
    || (now.band == Unusable && before.value.band != Unusable)
  }

  /** What a look leaves behind and what it says: the specification of `Observe`. */
  function Observed(m: Memory, look: Look, now: Time, degradeFor: Time, recoverFor: Time): (Memory, Option<Change>) {
    var m := if look.carrying != m.carrying then Memory(look.carrying, None, None, m.reported) else m;
    if look.carrying.None? then (m.(reported := None), None)
    else if look.band.None? then (m, None)
    else if look.band.value == Good then
      var m := m.(poorSince := None, goodSince := Since(m.goodSince, now));
      if m.reported.Some? && Held(now, m.goodSince, recoverFor)
      then (m.(reported := None), Some(Recovered(look.carrying.value)))
      else (m, None)
    else
      var m := m.(goodSince := None, poorSince := Since(m.poorSince, now));
      var degraded := Degradation(look.carrying.value, look.band.value, look.staying);
      if !Held(now, m.poorSince, degradeFor) then (m, None)
      else
        (m.(reported := Some(degraded)),
         if IsNews(m.reported, degraded) then Some(BecameDegraded(degraded)) else None)
  }

  class DegradationReporter {
    var carrying: Option<InterfaceId>
    var poorSince: Option<Time>
    var goodSince: Option<Time>
    var reported: Option<Degradation>

    function Contents(): Memory
      reads this
    {
      Memory(carrying, poorSince, goodSince, reported)
    }

    constructor ()
      ensures Contents() == BLANK
    {
      carrying, poorSince, goodSince, reported := None, None, None, None;
    }

    method Observe(look: Look, now: Time, degradeFor: Time, recoverFor: Time) returns (change: Option<Change>)
      modifies this
      ensures (Contents(), change) == Observed(old(Contents()), look, now, degradeFor, recoverFor)
    {
      if look.carrying != carrying {
        carrying := look.carrying;
        poorSince := None;
        goodSince := None;
      }
      if look.carrying.None? {
        reported := None;
        return None;
      }
      var path := look.carrying.value;
      if look.band.None? {
        return None;
      }
      var band := look.band.value;
      if band == Good {
        poorSince := None;
        if goodSince.None? {
          goodSince := Some(now);
        }
        if reported.Some? && Elapsed(now, goodSince.value) >= recoverFor {
          reported := None;
          return Some(Recovered(path));
        }
        return None;
      }
      goodSince := None;
      if poorSince.None? {
        poorSince := Some(now);
      }
      if Elapsed(now, poorSince.value) < degradeFor {
        return None;
      }
      var degraded := Degradation(path, band, look.staying);
      var news := IsNews(reported, degraded);
      reported := Some(degraded);
      change := if news then Some(BecameDegraded(degraded)) else None;
    }
  }
}
