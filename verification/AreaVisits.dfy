/**
  What a reader of the event log can rely on: for every rule and track the events describe a
  well-formed succession of visits, and nobody who has vanished is left inside.
*/
module AreaVisits {
  import opened Numbers
  import opened Types
  import opened AreaAnalytics
  import C = Coordinator

  // ---------------------------------------------------------------- well-formed visits

  /** Where the log of one rule and track stands: outside, or inside since a time, warned or not. */
  datatype Visit =
    | Outside(total: real)
    | Inside(total: real, since: int, warned: bool)

  /** The visit after one more event; None if the event does not fit. */
  function Next(v: Visit, e: Event): Option<Visit>
  {
    match (v, e)
    case (Outside(total), AreaEnter(_, ts, _)) => Some(Inside(total, ts, false))
    case (Inside(total, since, _), AreaExit(_, ts, _, dwell, sum)) =>
      if dwell == DwellBetween(since, ts) && sum == total + dwell then Some(Outside(sum)) else None
    case (Inside(total, since, false), AreaDwellThreshold(_, ts, _, dwell, threshold)) =>
      if dwell == DwellBetween(since, ts) && dwell >= threshold then Some(Inside(total, since, true)) else None
    case _ => None
  }

  function Replay(events: seq<Event>): Option<Visit>
  {
    if events == [] then Some(Outside(0.0))
    else
      var v := Replay(events[..|events| - 1]);
      if v.None? then None else Next(v.value, events[|events| - 1])
  }

  /** The events of one rule and track. */
  function Of(k: Key, events: seq<Event>): seq<Event>
  {
    if events == [] then []
    else Of(k, events[..|events| - 1]) + (if events[|events| - 1].key == k then [events[|events| - 1]] else [])
  }

  lemma {:induction false} OfAppended(k: Key, events: seq<Event>, more: seq<Event>)
    ensures Of(k, events + more) == Of(k, events) + Of(k, more)
  {
    if more == [] {
      assert events + more == events;
    } else {
      assert (events + more)[..|events + more| - 1] == events + more[..|more| - 1];
      OfAppended(k, events, more[..|more| - 1]);
    }
  }

  lemma ReplayOne(events: seq<Event>, e: Event)
    ensures Replay(events + [e]) == if Replay(events).None? then None else Next(Replay(events).value, e)
  {
    assert (events + [e])[..|events|] == events;
  }

  /** The state the engine keeps for a rule and track, as a visit. */
  function VisitOf(areas: Areas, k: Key): Visit
  {
    var a := AreaOf(areas, k);
    if a.inside && a.enteredAt.Some? then Inside(a.totalDwell, a.enteredAt.value, a.thresholdEmitted) else Outside(a.totalDwell)
  }

  /** The log replays, for every rule and track, to exactly the state kept. */
  ghost predicate Faithful(areas: Areas, log: seq<Event>)
  {
    && (forall k :: k in areas && areas[k].inside ==> areas[k].enteredAt.Some?)
    && (forall k :: Replay(Of(k, log)) == Some(VisitOf(areas, k)))
  }

  lemma OneEventKeeps(areas: Areas, log: seq<Event>, k: Key, a: AreaState, events: seq<Event>)
    requires Faithful(areas, log) && |events| <= 1 && (forall i :: 0 <= i < |events| ==> events[i].key == k)
    requires a.inside ==> a.enteredAt.Some?
    requires if events == [] then VisitOf(areas[k := a], k) == VisitOf(areas, k)
             else Next(VisitOf(areas, k), events[0]) == Some(VisitOf(areas[k := a], k))
    ensures Faithful(areas[k := a], log + events)
  {
    forall other
      ensures Replay(Of(other, log + events)) == Some(VisitOf(areas[k := a], other))
    {
      OfAppended(other, log, events);
      if events != [] {
        assert events == [events[0]] && Of(other, events) == if other == k then events else [];
        ReplayOne(Of(other, log), events[0]);
      }
      assert Of(other, log) + [] == Of(other, log);
      hide Next, Of, Replay;
    }
  }

  lemma VisitedKeeps(r: Rule, areas: Areas, log: seq<Event>, k: Key, foot: Point, ts: int)
    requires Faithful(areas, log)
    ensures var (a, events) := Visited(r, AreaOf(areas, k), k, foot, ts);
      Faithful(areas[k := a], log + events)
  {
    var (a, events) := Visited(r, AreaOf(areas, k), k, foot, ts);
    hide Replay, Of, DwellBetween;
    assert AreaOf(areas, k).inside ==> AreaOf(areas, k).enteredAt.Some?;
    OneEventKeeps(areas, log, k, a, events);
  }

  lemma LeftKeeps(areas: Areas, log: seq<Event>, k: Key, foot: Point, ts: int)
    requires Faithful(areas, log) && k in areas && areas[k].inside
    ensures var (a, e) := Left(areas[k], k, foot, ts);
      Faithful(areas[k := a], log + [e])
  {
    var (a, e) := Left(areas[k], k, foot, ts);
    hide Replay, Of, DwellBetween;
    OneEventKeeps(areas, log, k, a, [e]);
  }

  lemma {:induction false} VisitedAllKeeps(rules: seq<Rule>, areas: Areas, log: seq<Event>, n: nat, track: int, foot: Point, ts: int)
    requires n <= |rules| && Faithful(areas, log)
    ensures var (m, events) := VisitedAll(rules, areas, n, track, foot, ts);
      Faithful(m, log + events)
  {
    assert log + [] == log;
    if n > 0 {
      VisitedAllKeeps(rules, areas, log, n - 1, track, foot, ts);
      hide Faithful, Visited;
      var (m, events) := VisitedAll(rules, areas, n - 1, track, foot, ts);
      var k := Key(rules[n - 1].id, track);
      VisitedKeeps(rules[n - 1], m, log + events, k, foot, ts);
      var more := Visited(rules[n - 1], AreaOf(m, k), k, foot, ts).1;
      assert (log + events) + more == log + (events + more);
    }
  }

  lemma {:induction false} FinalizedUnderKeeps(rules: seq<Rule>, s: State, log: seq<Event>, n: nat, track: int, ts: int)
    requires n <= |rules| && Faithful(s.areas, log)
    ensures var (m, events) := FinalizedUnder(rules, s, n, track, ts);
      Faithful(m, log + events)
  {
    assert log + [] == log;
    if n > 0 {
      FinalizedUnderKeeps(rules, s, log, n - 1, track, ts);
      hide Faithful, Left;
      var (m, events) := FinalizedUnder(rules, s, n - 1, track, ts);
      var k := Key(rules[n - 1].id, track);
      if k in m && m[k].inside && track in s.feet {
        LeftKeeps(m, log + events, k, s.feet[track], ts);
        var e := Left(m[k], k, s.feet[track], ts).1;
        assert (log + events) + [e] == log + (events + [e]);
      }
    }
  }

  lemma {:induction false} FinalizedAllKeeps(rules: seq<Rule>, s: State, log: seq<Event>, missing: set<int>, ts: int)
    requires Faithful(s.areas, log)
    ensures var (r, events) := FinalizedAll(rules, s, missing, ts);
      Faithful(r.areas, log + events)
    decreases |missing|
  {
    assert log + [] == log;
    if missing != {} {
      hide Faithful, FinalizedUnder;
      var track := C.Least(missing);
      FinalizedUnderKeeps(rules, s, log, |rules|, track, ts);
      var (m, events) := FinalizedUnder(rules, s, |rules|, track, ts);
      FinalizedAllKeeps(rules, s.(areas := m), log + events, missing - {track}, ts);
      var more := FinalizedAll(rules, s.(areas := m), missing - {track}, ts).1;
      assert (log + events) + more == log + (events + more);
    }
  }

  lemma {:induction false} TrackedKeeps(rules: seq<Rule>, s: State, log: seq<Event>, tracks: seq<Seen>, n: nat, ts: int)
    requires n <= |tracks| && Faithful(s.areas, log)
    ensures var (r, events) := Tracked(rules, s, tracks, n, ts);
      Faithful(r.areas, log + events)
  {
    assert log + [] == log;
    if n > 0 {
      TrackedKeeps(rules, s, log, tracks, n - 1, ts);
      hide Faithful, VisitedAll;
      var (before, events) := Tracked(rules, s, tracks, n - 1, ts);
      var t := tracks[n - 1];
      VisitedAllKeeps(rules, before.areas, log + events, |rules|, t.Id(), t.foot, ts);
      var more := VisitedAll(rules, before.areas, |rules|, t.Id(), t.foot, ts).1;
      assert (log + events) + more == log + (events + more);
    }
  }

  // ---------------------------------------------------------------- runs

  /** A frame and the rules in force when it is processed. */
  datatype Input = Input(rules: seq<Rule>, frame: Frame)

  /** The state and the whole log after a run. */
  function After(run: seq<Input>): (State, seq<Event>)
  {
    if run == [] then (INITIAL, [])
    else
      var (s, log) := After(run[..|run| - 1]);
      var (r, events) := Processed(run[|run| - 1].rules, s, run[|run| - 1].frame);
      (r, log + events)
  }

  /**
    On every run, even while rules come and go, the events of each rule and track form well-formed
    visits, and replaying them gives exactly the state and the accumulated dwell the engine keeps.
  */
  lemma {:induction false} EveryLogReplays(run: seq<Input>)
    ensures Faithful(After(run).0.areas, After(run).1)
  {
    if run != [] {
      var (s, log) := After(run[..|run| - 1]);
      EveryLogReplays(run[..|run| - 1]);
      hide Faithful, FinalizedAll, Tracked, ReportedIds;
      var x := run[|run| - 1];
      var missing := s.active - ReportedIds(x.frame);
      FinalizedAllKeeps(x.rules, s, log, missing, x.frame.ts);
      var (s1, events) := FinalizedAll(x.rules, s, missing, x.frame.ts);
      TrackedKeeps(x.rules, s1, log + events, x.frame.tracks, |x.frame.tracks|, x.frame.ts);
      var more := Tracked(x.rules, s1, x.frame.tracks, |x.frame.tracks|, x.frame.ts).1;
      assert (log + events) + more == log + (events + more);
    } else {
      assert forall k :: Of(k, []) == [];
    }
  }

  // ---------------------------------------------------------------- what replaying means

  /** The enter and exit events, without the dwell warnings. */
  function Crossings(events: seq<Event>): seq<Event>
  {
    if events == [] then []
    else Crossings(events[..|events| - 1]) + (if events[|events| - 1].AreaDwellThreshold? then [] else [events[|events| - 1]])
  }

  /** Enter and exit alternate, starting with enter. */
  lemma {:induction false} CrossingsAlternate(events: seq<Event>)
    requires Replay(events).Some?
    ensures forall i :: 0 <= i < |Crossings(events)| ==> if i % 2 == 0 then Crossings(events)[i].AreaEnter? else Crossings(events)[i].AreaExit?
    ensures Replay(events).value.Inside? <==> |Crossings(events)| % 2 == 1
  {
    hide DwellBetween;
    if events != [] {
      CrossingsAlternate(events[..|events| - 1]);
    }
  }

  /** Between two dwell warnings there is an exit: at most one falls in each visit. */
  lemma {:induction false} WarnedOncePerVisit(events: seq<Event>, i: nat, j: nat) returns (k: nat)
    requires Replay(events).Some? && i < j < |events|
    requires events[i].AreaDwellThreshold? && events[j].AreaDwellThreshold?
    ensures i < k < j && events[k].AreaExit?
    decreases |events|
  {
    if j < |events| - 1 {
      k := WarnedOncePerVisit(events[..|events| - 1], i, j);
    } else {
      k := ExitSince(events[..j], i);
    }
  }

  /** After a warning, the visit is not unwarned again without an exit. */
  lemma {:induction false} ExitSince(events: seq<Event>, i: nat) returns (k: nat)
    requires Replay(events).Some? && i < |events| && events[i].AreaDwellThreshold?
    requires Replay(events).value.Outside? || !Replay(events).value.warned
    ensures i < k < |events| && events[k].AreaExit?
    decreases |events|
  {
    hide DwellBetween;
    var last := |events| - 1;
    var before := Replay(events[..last]);
    if events[last].AreaExit? {
      k := last;
    } else {
      k := ExitSince(events[..last], i);
    }
  }

  /** The dwell of the exits. */
  function DwellSum(events: seq<Event>): real
  {
    if events == [] then 0.0
    else
      var e := events[|events| - 1];
      DwellSum(events[..|events| - 1]) + (if e.AreaExit? then e.dwell else 0.0)
  }

  /** The accumulated dwell is the sum over the finished visits. */
  lemma {:induction false} TotalIsDwellSum(events: seq<Event>)
    requires Replay(events).Some?
    ensures Replay(events).value.total == DwellSum(events)
  {
    hide DwellBetween;
    if events != [] {
      TotalIsDwellSum(events[..|events| - 1]);
    }
  }

  /** Each exit's dwell is the time since the enter it closes, never negative. */
  lemma {:induction false} ExitClosesEnter(events: seq<Event>, j: nat) returns (i: nat)
    requires Replay(events).Some? && j < |events| && events[j].AreaExit?
    ensures i < j && events[i].AreaEnter?
    ensures events[j].dwell == DwellBetween(events[i].ts, events[j].ts)
    ensures events[j].dwell >= 0.0 && (events[j].ts >= events[i].ts ==> events[j].dwell * 1000.0 == (events[j].ts - events[i].ts) as real)
    ensures forall k :: i < k < j ==> events[k].AreaDwellThreshold?
    decreases |events|
  {
    if j < |events| - 1 {
      i := ExitClosesEnter(events[..|events| - 1], j);
    } else {
      i := EnterOf(events[..j]);
    }
  }

  lemma {:induction false} EnterOf(events: seq<Event>) returns (i: nat)
    requires Replay(events).Some? && Replay(events).value.Inside?
    ensures i < |events| && events[i].AreaEnter? && events[i].ts == Replay(events).value.since
    ensures forall k :: i < k < |events| ==> events[k].AreaDwellThreshold?
  {
    hide DwellBetween;
    var last := |events| - 1;
    if events[last].AreaEnter? {
      i := last;
    } else {
      i := EnterOf(events[..last]);
    }
  }

  // ---------------------------------------------------------------- vanished tracks

  predicate IsRule(rules: seq<Rule>, n: nat, id: string)
    requires n <= |rules|
  {
    exists i :: 0 <= i < n && rules[i].Applies() && rules[i].id == id
  }

  /** Whoever is marked inside a rule's area is active, and the rule is one of those in force. */
  ghost predicate Tidy(rules: seq<Rule>, s: State)
  {
    && s.active <= s.feet.Keys
    && forall k :: k in s.areas && s.areas[k].inside ==> k.track in s.active && IsRule(rules, |rules|, k.rule)
  }

  /** Every track has an id, or its stand-in 0 is reported as well. */
  ghost predicate Identified(f: Frame)
  {
    forall i :: 0 <= i < |f.tracks| ==> f.tracks[i].Id() in ReportedIds(f)
  }

  lemma RulesSplit(rules: seq<Rule>, n: nat, id: string)
    requires 0 < n <= |rules|
    ensures IsRule(rules, n, id) <==> IsRule(rules, n - 1, id) || (rules[n - 1].Applies() && rules[n - 1].id == id)
  {
  }

  lemma {:induction false} FinalizedUnderLeaves(rules: seq<Rule>, s: State, n: nat, track: int, ts: int, k: Key)
    requires n <= |rules| && track in s.feet
    ensures var m := FinalizedUnder(rules, s, n, track, ts).0;
      k in m && m[k].inside ==> k in s.areas && s.areas[k].inside && !(k.track == track && IsRule(rules, n, k.rule))
  {
    if n > 0 {
      FinalizedUnderLeaves(rules, s, n - 1, track, ts, k);
      RulesSplit(rules, n, k.rule);
      hide IsRule, CurrentDwell;
    }
  }

  lemma {:induction false} FinalizedAllLeaves(rules: seq<Rule>, s: State, missing: set<int>, ts: int, k: Key)
    requires missing <= s.feet.Keys && IsRule(rules, |rules|, k.rule)
    ensures var r := FinalizedAll(rules, s, missing, ts).0;
      && r.feet == s.feet
      && (k in r.areas && r.areas[k].inside ==> k in s.areas && s.areas[k].inside && k.track !in missing)
    decreases |missing|
  {
    if missing != {} {
      hide FinalizedUnder, IsRule;
      var track := C.Least(missing);
      FinalizedUnderLeaves(rules, s, |rules|, track, ts, k);
      FinalizedAllLeaves(rules, s.(areas := FinalizedUnder(rules, s, |rules|, track, ts).0), missing - {track}, ts, k);
    }
  }

  lemma {:induction false} FinalizedAllAdds(rules: seq<Rule>, s: State, missing: set<int>, ts: int, k: Key)
    requires missing <= s.feet.Keys
    ensures var r := FinalizedAll(rules, s, missing, ts).0;
      && r.feet == s.feet
      && (k in r.areas && r.areas[k].inside ==> k in s.areas && s.areas[k].inside)
    decreases |missing|
  {
    if missing != {} {
      hide FinalizedUnder;
      var track := C.Least(missing);
      FinalizedUnderLeaves(rules, s, |rules|, track, ts, k);
      FinalizedAllAdds(rules, s.(areas := FinalizedUnder(rules, s, |rules|, track, ts).0), missing - {track}, ts, k);
    }
  }

  lemma {:induction false} VisitedAllEnters(rules: seq<Rule>, areas: Areas, n: nat, track: int, foot: Point, ts: int, k: Key)
    requires n <= |rules|
    ensures var m := VisitedAll(rules, areas, n, track, foot, ts).0;
      k in m && m[k].inside ==> (k in areas && areas[k].inside) || (k.track == track && IsRule(rules, n, k.rule))
  {
    if n > 0 {
      VisitedAllEnters(rules, areas, n - 1, track, foot, ts, k);
      RulesSplit(rules, n, k.rule);
      hide IsRule, CurrentDwell;
    }
  }

  /** Somebody new inside is one of the tracks of the frame. */
  lemma {:induction false} TrackedEnters(rules: seq<Rule>, s: State, tracks: seq<Seen>, n: nat, ts: int, k: Key)
    requires n <= |tracks|
    ensures var r := Tracked(rules, s, tracks, n, ts).0;
      && s.feet.Keys <= r.feet.Keys
      && (forall i :: 0 <= i < n ==> tracks[i].Id() in r.feet)
      && (k in r.areas && r.areas[k].inside ==>
            (k in s.areas && s.areas[k].inside)
            || (IsRule(rules, |rules|, k.rule) && exists i :: 0 <= i < n && tracks[i].Id() == k.track))
  {
    if n > 0 {
      TrackedEnters(rules, s, tracks, n - 1, ts, k);
      var before := Tracked(rules, s, tracks, n - 1, ts).0;
      VisitedAllEnters(rules, before.areas, |rules|, tracks[n - 1].Id(), tracks[n - 1].foot, ts, k);
      hide VisitedAll, IsRule;
    }
  }

  lemma ReportedAreSeen(f: Frame, id: int) returns (i: nat)
    requires id in ReportedIds(f)
    ensures i < |f.tracks| && f.tracks[i].Id() == id
  {
    var t :| t in f.tracks && t.id.Some? && t.id.value == id;
    i :| 0 <= i < |f.tracks| && f.tracks[i] == t;
  }

  lemma IdentifiedFrameStaysTidy(rules: seq<Rule>, s: State, f: Frame)
    requires Tidy(rules, s) && Identified(f)
    ensures Tidy(rules, Processed(rules, s, f).0)
  {
    var missing := s.active - ReportedIds(f);
    var s1 := FinalizedAll(rules, s, missing, f.ts).0;
    var s2 := Tracked(rules, s1, f.tracks, |f.tracks|, f.ts).0;
    var r := Processed(rules, s, f).0;
    hide FinalizedAll, Tracked;
    assert r == s2.(active := ReportedIds(f));
    forall k | k in r.areas && r.areas[k].inside
      ensures k.track in ReportedIds(f) && IsRule(rules, |rules|, k.rule)
    {
      FinalizedAllAdds(rules, s, missing, f.ts, k);
      TrackedEnters(rules, s1, f.tracks, |f.tracks|, f.ts, k);
      if k in s1.areas && s1.areas[k].inside {
        FinalizedAllLeaves(rules, s, missing, f.ts, k);
      }
    }
    forall id | id in ReportedIds(f)
      ensures id in r.feet
    {
      var i := ReportedAreSeen(f, id);
      TrackedEnters(rules, s1, f.tracks, |f.tracks|, f.ts, Key("", 0));
    }
  }

  /** The rule is in force and contains all these foot points. */
  predicate ContainsAll(r: Rule, tracks: seq<Seen>)
  {
    r.Applies() && forall j :: 0 <= j < |tracks| ==> r.contains(tracks[j].foot)
  }

  /** Under a rule that contains all foot points, every track of the frame ends up inside. */
  lemma {:induction false} EveryoneInside(r: Rule, s: State, tracks: seq<Seen>, n: nat, ts: int, i: nat)
    requires i < n <= |tracks| && ContainsAll(r, tracks)
    ensures var m := Tracked([r], s, tracks, n, ts).0.areas;
      var k := Key(r.id, tracks[i].Id());
      k in m && m[k].inside
  {
    var before := Tracked([r], s, tracks, n - 1, ts).0;
    if i < n - 1 {
      EveryoneInside(r, s, tracks, n - 1, ts, i);
    }
    InsideStays(r, before.areas, tracks[n - 1].Id(), tracks[n - 1].foot, ts, Key(r.id, tracks[i].Id()));
    hide VisitedAll;
  }

  lemma InsideStays(r: Rule, areas: Areas, track: int, foot: Point, ts: int, k: Key)
    requires r.Applies() && r.contains(foot)
    ensures var m := VisitedAll([r], areas, 1, track, foot, ts).0;
      && (k.rule == r.id && k in areas && areas[k].inside ==> k in m && m[k].inside)
      && Key(r.id, track) in m && m[Key(r.id, track)].inside
  {
    assert VisitedAll([r], areas, 0, track, foot, ts).0 == areas;
  }

  /** A track without an id is marked inside any rule that contains the foot points of the frame, and is not active. */
  lemma UnidentifiedIsLeftInside(r: Rule, f: Frame) returns (i: nat)
    requires !Identified(f) && ContainsAll(r, f.tracks)
    ensures i < |f.tracks| && f.tracks[i].id.None?
    ensures Tidy([r], INITIAL)
    ensures var k, after := Key(r.id, f.tracks[i].Id()), Processed([r], INITIAL, f).0;
      k in after.areas && after.areas[k].inside && k.track !in after.active
  {
    i :| 0 <= i < |f.tracks| && f.tracks[i].Id() !in ReportedIds(f);
    var none: set<int> := INITIAL.active - ReportedIds(f);
    assert none == {};
    assert FinalizedAll([r], INITIAL, none, f.ts).0 == INITIAL;
    EveryoneInside(r, INITIAL, f.tracks, |f.tracks|, f.ts, i);
    hide Tracked, ReportedIds;
    var k := Key(r.id, f.tracks[i].Id());
    assert k in Processed([r], INITIAL, f).0.areas;
  }

  const EVERYWHERE := Rule("everywhere", true, true, _ => true, None)

  /**
    A frame leaves nobody inside who is not active, under any rules and from any tidy state, exactly
    when its tracks are identified: a track without an id is processed as 0 but is not counted as
    present, so it is never finalized.
  */
  lemma VanishedTracksLeaveIff(f: Frame)
    ensures (forall rules: seq<Rule>, s: State :: Tidy(rules, s) ==> Tidy(rules, Processed(rules, s, f).0)) <==> Identified(f)
  {
    if Identified(f) {
      forall rules: seq<Rule>, s: State | Tidy(rules, s)
        ensures Tidy(rules, Processed(rules, s, f).0)
      {
        IdentifiedFrameStaysTidy(rules, s, f);
      }
    } else {
      var i := UnidentifiedIsLeftInside(EVERYWHERE, f);
    }
  }

  ghost predicate FixedAndIdentified(rules: seq<Rule>, run: seq<Input>)
  {
    forall i :: 0 <= i < |run| ==> run[i].rules == rules && Identified(run[i].frame)
  }

  /** With a fixed rule set and identified tracks, whoever is marked inside at any time is active then. */
  lemma {:induction false} InsideMeansActive(rules: seq<Rule>, run: seq<Input>)
    requires FixedAndIdentified(rules, run)
    ensures Tidy(rules, After(run).0)
  {
    if run != [] {
      InsideMeansActive(rules, run[..|run| - 1]);
      IdentifiedFrameStaysTidy(rules, After(run[..|run| - 1]).0, run[|run| - 1].frame);
      hide Tidy, Processed, Identified;
    }
  }

  // ---------------------------------------------------------------- what a frame says about a present track

  /** No other rule in force has this one's id. */
  ghost predicate OwnId(rules: seq<Rule>, m: nat)
    requires m < |rules|
  {
    rules[m].Applies() && forall j :: 0 <= j < |rules| && j != m && rules[j].Applies() ==> rules[j].id != rules[m].id
  }

  /** Where the track was, by the state before, and where it is, by the rule, tell what happens to it. */
  ghost predicate Told(r: Rule, a: AreaState, b: AreaState, k: Key, foot: Point, ts: int, events: seq<Event>)
  {
    && (b.inside <==> r.contains(foot))
    && (!a.inside && b.inside ==> AreaEnter(k, ts, foot) in events && b.enteredAt == Some(ts) && !b.thresholdEmitted)
    && (a.inside && !b.inside ==> exists dwell, total :: AreaExit(k, ts, foot, dwell, total) in events)
    && (a.inside && b.inside ==> b.enteredAt == a.enteredAt)
    && (a.inside && b.inside && !a.thresholdEmitted && a.enteredAt.Some? && r.threshold.Some? ==>
          var dwell := Max(0.0, (ts - a.enteredAt.value) as real / 1000.0);
          && (b.thresholdEmitted <==> dwell >= r.threshold.value)
          && (dwell >= r.threshold.value ==> AreaDwellThreshold(k, ts, foot, dwell, r.threshold.value) in events))
  }

  lemma VisitedTells(r: Rule, a: AreaState, k: Key, foot: Point, ts: int)
    ensures var (b, events) := Visited(r, a, k, foot, ts); Told(r, a, b, k, foot, ts, events)
  {
    var (b, events) := Visited(r, a, k, foot, ts);
    if a.inside && !b.inside {
      var e := Left(a, k, foot, ts).1;
      assert events[0] == AreaExit(k, ts, foot, e.dwell, e.total);
    }
  }

  lemma ToldMore(r: Rule, a: AreaState, b: AreaState, k: Key, foot: Point, ts: int, events: seq<Event>, more: seq<Event>)
    requires Told(r, a, b, k, foot, ts, events) && forall e :: e in events ==> e in more
    ensures Told(r, a, b, k, foot, ts, more)
  {
  }

  predicate SameAt(before: Areas, after: Areas, k: Key)
  {
    (k in after <==> k in before) && AreaOf(after, k) == AreaOf(before, k)
  }

  lemma {:induction false} VisitedAllOthers(rules: seq<Rule>, areas: Areas, n: nat, track: int, foot: Point, ts: int, k: Key)
    requires n <= |rules| && (k.track != track || forall j :: 0 <= j < n && rules[j].Applies() ==> rules[j].id != k.rule)
    ensures SameAt(areas, VisitedAll(rules, areas, n, track, foot, ts).0, k)
  {
    if n > 0 {
      VisitedAllOthers(rules, areas, n - 1, track, foot, ts, k);
      hide Visited;
    }
  }

  /** The rules tell a track one by one. */
  lemma {:induction false} VisitedAllTells(rules: seq<Rule>, areas: Areas, n: nat, m: nat, track: int, foot: Point, ts: int)
    requires m < n <= |rules| && OwnId(rules, m)
    ensures var (after, events) := VisitedAll(rules, areas, n, track, foot, ts);
      var k := Key(rules[m].id, track);
      k in after && Told(rules[m], AreaOf(areas, k), after[k], k, foot, ts, events)
  {
    var k := Key(rules[m].id, track);
    var (before, events) := VisitedAll(rules, areas, n - 1, track, foot, ts);
    var (after, all) := VisitedAll(rules, areas, n, track, foot, ts);
    if m < n - 1 {
      VisitedAllTells(rules, areas, n - 1, m, track, foot, ts);
      hide Visited;
      ToldMore(rules[m], AreaOf(areas, k), before[k], k, foot, ts, events, all);
    } else {
      VisitedAllOthers(rules, areas, n - 1, track, foot, ts, k);
      VisitedTells(rules[m], AreaOf(before, k), k, foot, ts);
      var (b, more) := Visited(rules[m], AreaOf(before, k), k, foot, ts);
      hide Visited;
      ToldMore(rules[m], AreaOf(before, k), b, k, foot, ts, more, all);
    }
    hide Told;
  }

  lemma {:induction false} TrackedOthers(rules: seq<Rule>, s: State, tracks: seq<Seen>, n: nat, ts: int, k: Key)
    requires n <= |tracks| && forall j :: 0 <= j < n ==> tracks[j].Id() != k.track
    ensures SameAt(s.areas, Tracked(rules, s, tracks, n, ts).0.areas, k)
  {
    if n > 0 {
      TrackedOthers(rules, s, tracks, n - 1, ts, k);
      VisitedAllOthers(rules, Tracked(rules, s, tracks, n - 1, ts).0.areas, |rules|, tracks[n - 1].Id(), tracks[n - 1].foot, ts, k);
      hide VisitedAll;
    }
  }

  lemma {:induction false} TrackedTells(rules: seq<Rule>, s: State, tracks: seq<Seen>, n: nat, ts: int, i: nat, m: nat)
    requires i < n <= |tracks| && m < |rules| && OwnId(rules, m)
    requires forall j :: 0 <= j < |tracks| && j != i ==> tracks[j].Id() != tracks[i].Id()
    ensures var (after, events) := Tracked(rules, s, tracks, n, ts);
      var k := Key(rules[m].id, tracks[i].Id());
      k in after.areas && Told(rules[m], AreaOf(s.areas, k), after.areas[k], k, tracks[i].foot, ts, events)
  {
    var k := Key(rules[m].id, tracks[i].Id());
    var (before, events) := Tracked(rules, s, tracks, n - 1, ts);
    var (after, all) := Tracked(rules, s, tracks, n, ts);
    var t := tracks[n - 1];
    var more := VisitedAll(rules, before.areas, |rules|, t.Id(), t.foot, ts).1;
    if i < n - 1 {
      TrackedTells(rules, s, tracks, n - 1, ts, i, m);
      VisitedAllOthers(rules, before.areas, |rules|, t.Id(), t.foot, ts, k);
      hide VisitedAll, OwnId;
      ToldMore(rules[m], AreaOf(s.areas, k), before.areas[k], k, tracks[i].foot, ts, events, all);
    } else {
      TrackedOthers(rules, s, tracks, n - 1, ts, k);
      VisitedAllTells(rules, before.areas, |rules|, m, t.Id(), t.foot, ts);
      hide VisitedAll, OwnId;
      ToldMore(rules[m], AreaOf(s.areas, k), after.areas[k], k, tracks[i].foot, ts, more, all);
    }
    hide Told;
  }

  lemma {:induction false} FinalizedUnderOthers(rules: seq<Rule>, s: State, n: nat, track: int, ts: int, k: Key)
    requires n <= |rules| && k.track != track
    ensures SameAt(s.areas, FinalizedUnder(rules, s, n, track, ts).0, k)
  {
    if n > 0 {
      FinalizedUnderOthers(rules, s, n - 1, track, ts, k);
    }
  }

  lemma {:induction false} FinalizedAllOthers(rules: seq<Rule>, s: State, missing: set<int>, ts: int, k: Key)
    requires k.track !in missing
    ensures SameAt(s.areas, FinalizedAll(rules, s, missing, ts).0.areas, k)
    decreases |missing|
  {
    if missing != {} {
      var track := C.Least(missing);
      FinalizedUnderOthers(rules, s, |rules|, track, ts, k);
      hide FinalizedUnder;
      FinalizedAllOthers(rules, s.(areas := FinalizedUnder(rules, s, |rules|, track, ts).0), missing - {track}, ts, k);
    }
  }

  /**
    After a frame, a track it reports under an id of its own is inside exactly the rules that contain its
    foot point; it entered, left or was warned in this frame exactly as its state before and the time
    say.
  */
  lemma PresentTrackIsTold(rules: seq<Rule>, s: State, f: Frame, i: nat, m: nat)
    requires i < |f.tracks| && f.tracks[i].id.Some? && m < |rules| && OwnId(rules, m)
    requires forall j :: 0 <= j < |f.tracks| && j != i ==> f.tracks[j].Id() != f.tracks[i].Id()
    ensures var (after, events) := Processed(rules, s, f);
      var k := Key(rules[m].id, f.tracks[i].Id());
      k in after.areas && Told(rules[m], AreaOf(s.areas, k), after.areas[k], k, f.tracks[i].foot, f.ts, events)
  {
    var k := Key(rules[m].id, f.tracks[i].Id());
    assert f.tracks[i] in f.tracks;
    var missing := s.active - ReportedIds(f);
    var (s1, first) := FinalizedAll(rules, s, missing, f.ts);
    FinalizedAllOthers(rules, s, missing, f.ts, k);
    TrackedTells(rules, s1, f.tracks, |f.tracks|, f.ts, i, m);
    var (s2, more) := Tracked(rules, s1, f.tracks, |f.tracks|, f.ts);
    hide FinalizedAll, Tracked, OwnId, ReportedIds;
    ToldMore(rules[m], AreaOf(s.areas, k), s2.areas[k], k, f.tracks[i].foot, f.ts, more, first + more);
    hide Told;
  }
}
