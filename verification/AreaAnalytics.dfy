/**
  Area rules over tracked people (controller/veilsight_controller/analytics_engine.py): enter, exit
  and dwell events per rule and track. Whether a point lies in a rule's polygon is a parameter, and
  so are the rules in force at each frame.
*/
module AreaAnalytics {
  import opened Numbers
  import opened Types
  import C = Coordinator

  // ---------------------------------------------------------------- data

  datatype Rule = Rule(id: string, enabled: bool, isArea: bool, contains: Point -> bool, threshold: Option<real>)
  {
    predicate Applies() { enabled && isArea }
  }

  datatype Key = Key(rule: string, track: int)

  datatype AreaState = AreaState(inside: bool, enteredAt: Option<int>, totalDwell: real, thresholdEmitted: bool)

  const NEW_AREA := AreaState(false, None, 0.0, false)

  datatype Event =
    | AreaEnter(key: Key, ts: int, foot: Point)
    | AreaExit(key: Key, ts: int, foot: Point, dwell: real, total: real)
    | AreaDwellThreshold(key: Key, ts: int, foot: Point, dwell: real, threshold: real)

  type Areas = map<Key, AreaState>

  datatype State = State(feet: map<int, Point>, active: set<int>, areas: Areas)

  const INITIAL := State(map[], {}, map[])

  /** A track as a frame reports it; a missing id is taken as 0. */
  datatype Seen = Seen(id: Option<int>, foot: Point)
  {
    function Id(): int { if id.Some? then id.value else 0 }
  }

  datatype Frame = Frame(tracks: seq<Seen>, ts: int)

  /** The ids the frame reports. */
  function ReportedIds(f: Frame): set<int>
  {
    set t | t in f.tracks && t.id.Some? :: t.id.value
  }

  // ---------------------------------------------------------------- one rule and track

  function DwellBetween(since: int, ts: int): real { Max(0.0, (ts - since) as real / 1000.0) }

  function CurrentDwell(a: AreaState, ts: int): real
  {
    if a.enteredAt.None? then 0.0 else DwellBetween(a.enteredAt.value, ts)
  }

  function Left(a: AreaState, k: Key, foot: Point, ts: int): (AreaState, Event)
  {
    var dwell := CurrentDwell(a, ts);
    (AreaState(false, None, a.totalDwell + dwell, false), AreaExit(k, ts, foot, dwell, a.totalDwell + dwell))
  }

  function Visited(r: Rule, a: AreaState, k: Key, foot: Point, ts: int): (AreaState, seq<Event>)
  {
    var inside := r.contains(foot);
    if inside && !a.inside then
      (a.(inside := true, enteredAt := Some(ts), thresholdEmitted := false), [AreaEnter(k, ts, foot)])
    else if !inside && a.inside then
      var (b, e) := Left(a, k, foot, ts);
      (b, [e])
    else if inside && a.inside && r.threshold.Some? && !a.thresholdEmitted && CurrentDwell(a, ts) >= r.threshold.value then
      (a.(thresholdEmitted := true), [AreaDwellThreshold(k, ts, foot, CurrentDwell(a, ts), r.threshold.value)])
    else (a, [])
  }

  function AreaOf(areas: Areas, k: Key): AreaState { if k in areas then areas[k] else NEW_AREA }

  // ---------------------------------------------------------------- a frame

  /** A track's area events under the first n rules. */
  function VisitedAll(rules: seq<Rule>, areas: Areas, n: nat, track: int, foot: Point, ts: int): (Areas, seq<Event>)
    requires n <= |rules|
  {
    if n == 0 then (areas, [])
    else
      var (m, events) := VisitedAll(rules, areas, n - 1, track, foot, ts);
      var r := rules[n - 1];
      if !r.Applies() then (m, events)
      else
        var k := Key(r.id, track);
        var (a, more) := Visited(r, AreaOf(m, k), k, foot, ts);
        (m[k := a], events + more)
  }

  /** A vanished track leaves the areas of the first n rules. */
  function FinalizedUnder(rules: seq<Rule>, s: State, n: nat, track: int, ts: int): (Areas, seq<Event>)
    requires n <= |rules|
  {
    if n == 0 then (s.areas, [])
    else
      var (m, events) := FinalizedUnder(rules, s, n - 1, track, ts);
      var k := Key(rules[n - 1].id, track);
      if !rules[n - 1].Applies() || k !in m || !m[k].inside || track !in s.feet then (m, events)
      else
        var (a, e) := Left(m[k], k, s.feet[track], ts);
        (m[k := a], events + [e])
  }

  function FinalizedAll(rules: seq<Rule>, s: State, missing: set<int>, ts: int): (State, seq<Event>)
    decreases |missing|
  {
    if missing == {} then (s, [])
    else
      var track := C.Least(missing);
      var (m, events) := FinalizedUnder(rules, s, |rules|, track, ts);
      var (r, more) := FinalizedAll(rules, s.(areas := m), missing - {track}, ts);
      (r, events + more)
  }

  function Tracked(rules: seq<Rule>, s: State, tracks: seq<Seen>, n: nat, ts: int): (State, seq<Event>)
    requires n <= |tracks|
  {
    if n == 0 then (s, [])
    else
      var (before, events) := Tracked(rules, s, tracks, n - 1, ts);
      var t := tracks[n - 1];
      var (m, more) := VisitedAll(rules, before.areas, |rules|, t.Id(), t.foot, ts);
      (before.(feet := before.feet[t.Id() := t.foot], areas := m), events + more)
  }

  function Processed(rules: seq<Rule>, s: State, f: Frame): (State, seq<Event>)
  {
    var (s1, events) := FinalizedAll(rules, s, s.active - ReportedIds(f), f.ts);
    var (s2, more) := Tracked(rules, s1, f.tracks, |f.tracks|, f.ts);
    (s2.(active := ReportedIds(f)), events + more)
  }

  class StreamState {
    var feet: map<int, Point>
    var active: set<int>
    var areas: Areas

    constructor ()
      ensures Now() == INITIAL
    {
      feet, active, areas := map[], {}, map[];
    }

    ghost function Now(): State
      reads this
    {
      State(feet, active, areas)
    }

    method AreaEvents(rules: seq<Rule>, track: int, foot: Point, ts: int) returns (events: seq<Event>)
      modifies this`areas
      ensures (areas, events) == VisitedAll(rules, old(areas), |rules|, track, foot, ts)
    {
      events := [];
      hide DwellBetween;
      for i := 0 to |rules|
        invariant (areas, events) == VisitedAll(rules, old(areas), i, track, foot, ts)
      {
        var r := rules[i];
        if !r.Applies() {
          continue;
        }
        assert events + [] == events;
        var inside, k := r.contains(foot), Key(r.id, track);
        var a := if k in areas then areas[k] else NEW_AREA;
        if inside && !a.inside {
          a := a.(inside := true, enteredAt := Some(ts), thresholdEmitted := false);
          events := events + [AreaEnter(k, ts, foot)];
        } else if !inside && a.inside {
          var dwell := CurrentDwell(a, ts);
          a := AreaState(false, None, a.totalDwell + dwell, false);
          events := events + [AreaExit(k, ts, foot, dwell, a.totalDwell)];
        } else if inside && a.inside && r.threshold.Some? && !a.thresholdEmitted {
          var dwell := CurrentDwell(a, ts);
          if dwell >= r.threshold.value {
            a := a.(thresholdEmitted := true);
            events := events + [AreaDwellThreshold(k, ts, foot, dwell, r.threshold.value)];
          }
        }
        areas := areas[k := a];
      }
    }

    method FinalizeMissingTrack(rules: seq<Rule>, track: int, ts: int) returns (events: seq<Event>)
      modifies this`areas
      ensures (areas, events) == FinalizedUnder(rules, old(Now()), |rules|, track, ts)
    {
      events := [];
      hide DwellBetween;
      for i := 0 to |rules|
        invariant (areas, events) == FinalizedUnder(rules, old(Now()), i, track, ts)
      {
        var k := Key(rules[i].id, track);
        if !rules[i].Applies() || k !in areas || !areas[k].inside || track !in feet {
          continue;
        }
        var a := areas[k];
        var dwell := CurrentDwell(a, ts);
        areas := areas[k := AreaState(false, None, a.totalDwell + dwell, false)];
        events := events + [AreaExit(k, ts, feet[track], dwell, a.totalDwell + dwell)];
      }
    }

    /** The area part of processing a frame; the vanished tracks are taken in the order of their ids. */
    method ProcessFrame(rules: seq<Rule>, f: Frame) returns (events: seq<Event>)
      modifies this
      ensures (Now(), events) == Processed(rules, old(Now()), f)
    {
      var ids := ReportedIds(f);
      var missing := active - ids;
      hide ReportedIds, FinalizedUnder, VisitedAll;
      events := [];
      ghost var all := FinalizedAll(rules, Now(), missing, f.ts).1;
      assert [] + all == all;
      while missing != {}
        invariant feet == old(feet) && active == old(active)
        invariant var (r, more) := FinalizedAll(rules, Now(), missing, f.ts);
          (r, events + more) == FinalizedAll(rules, old(Now()), old(active) - ids, f.ts)
        decreases |missing|
      {
        var track := C.Least(missing);
        var more := FinalizeMissingTrack(rules, track, f.ts);
        ghost var (r, rest) := FinalizedAll(rules, Now(), missing - {track}, f.ts);
        assert (events + more) + rest == events + (more + rest);
        events := events + more;
        missing := missing - {track};
      }
      ghost var first, s1 := events, Now();
      ghost var later := [];
      assert events + [] == events;
      for i := 0 to |f.tracks|
        invariant (Now(), later) == Tracked(rules, s1, f.tracks, i, f.ts)
        invariant events == first + later && active == old(active)
      {
        var t := f.tracks[i];
        var more := AreaEvents(rules, t.Id(), t.foot, f.ts);
        feet := feet[t.Id() := t.foot];
        events := events + more;
        later := later + more;
      }
      active := ids;
    }
  }
}
