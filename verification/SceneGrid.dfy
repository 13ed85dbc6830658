/**
  The occupancy and transition grid of core/src/tracking/scene_grid.cpp, which prices how unusual
  it would be for a track to continue in a detection's cell.
*/
module SceneGrids {
  import opened Numbers
  import opened Sums
  import opened Types

  datatype Config = Config(
    enabled: bool,
    rows: int,
    cols: int,
    associationWeight: real,
    cellDistanceWeight: real,
    occupancyWeight: real,
    transitionWeight: real,
    maxExtraCost: real,
    occupancyDecay: real,
    transitionDecay: real,
    warmupFrames: int)
  {
    /** The configuration as the constructor clamps it. */
    function Clamped(): (c: Config)
      ensures c.WellFormed()
      ensures WellFormed() ==> c == this
    {
      this.(rows := MaxInt(1, rows),
            cols := MaxInt(1, cols),
            associationWeight := Max(0.0, associationWeight),
            cellDistanceWeight := Max(0.0, cellDistanceWeight),
            occupancyWeight := Max(0.0, occupancyWeight),
            transitionWeight := Max(0.0, transitionWeight),
            maxExtraCost := Max(0.0, maxExtraCost),
            occupancyDecay := Clamp(occupancyDecay, 0.0, 1.0),
            transitionDecay := Clamp(transitionDecay, 0.0, 1.0),
            warmupFrames := MaxInt(0, warmupFrames))
    }

    predicate WellFormed() {
      && rows >= 1
      && cols >= 1
      && associationWeight >= 0.0
      && cellDistanceWeight >= 0.0
      && occupancyWeight >= 0.0
      && transitionWeight >= 0.0
      && maxExtraCost >= 0.0
      && 0.0 <= occupancyDecay <= 1.0
      && 0.0 <= transitionDecay <= 1.0
      && warmupFrames >= 0
    }

    function Cells(): (n: nat)
      requires WellFormed()
      ensures n >= 1
    {
      CellsPositive(rows, cols);
      rows * cols
    }
  }

  lemma CellsPositive(rows: int, cols: int)
    requires rows >= 1 && cols >= 1
    ensures rows * cols >= 1
  {
  }

  lemma CellIndexInRange(row: int, col: int, rows: int, cols: int)
    requires 0 <= row < rows && 0 <= col < cols
    ensures 0 <= row * cols + col < rows * cols
  {
    assert row * cols <= (rows - 1) * cols;
  }

  datatype StreamState = StreamState(framesSeen: nat, occupancy: seq<real>, transitions: seq<real>)

  /** A stream's state before anything was seen on it. */
  function Blank(cells: nat): StreamState
  {
    StreamState(0, seq(cells, _ => 0.0), seq(cells * cells, _ => 0.0))
  }

  function Scale(s: seq<real>, factor: real): (r: seq<real>)
    ensures |r| == |s|
    ensures forall k :: 0 <= k < |s| ==> r[k] == s[k] * factor
  {
    seq(|s|, k requires 0 <= k < |s| => s[k] * factor)
  }

  function Decayed(c: Config, st: StreamState): StreamState
  {
    StreamState(st.framesSeen + 1, Scale(st.occupancy, c.occupancyDecay), Scale(st.transitions, c.transitionDecay))
  }

  function Bump(s: seq<real>, k: int): seq<real>
    requires 0 <= k < |s|
  {
    s[k := s[k] + 1.0]
  }

  predicate Sized(st: StreamState, cells: nat)
  {
    |st.occupancy| == cells && |st.transitions| == cells * cells
  }

  predicate NonNegative(s: seq<real>)
  {
    forall k :: 0 <= k < |s| ==> s[k] >= 0.0
  }

  /** What is recorded about one frame: a box seen alone, or a track's move from one cell to another. */
  datatype Observation = Seen(cell: int) | Moved(from: int, to: int)

  predicate InGrid(o: Observation, cells: nat)
  {
    match o
    case Seen(k) => 0 <= k < cells
    case Moved(a, b) => 0 <= a < cells && 0 <= b < cells
  }

  predicate AllInGrid(os: seq<Observation>, cells: nat)
  {
    forall k :: 0 <= k < |os| ==> InGrid(os[k], cells)
  }

  function Record(st: StreamState, o: Observation, cells: nat): (r: StreamState)
    requires Sized(st, cells) && InGrid(o, cells)
    ensures Sized(r, cells)
  {
    match o
    case Seen(k) => st.(occupancy := Bump(st.occupancy, k))
    case Moved(a, b) =>
      CellIndexInRange(a, b, cells, cells);
      st.(transitions := Bump(st.transitions, a * cells + b), occupancy := Bump(st.occupancy, b))
  }

  function RecordAll(st: StreamState, os: seq<Observation>, cells: nat): (r: StreamState)
    requires Sized(st, cells) && AllInGrid(os, cells)
    ensures Sized(r, cells)
  {
    if os == [] then st else Record(RecordAll(st, os[..|os| - 1], cells), os[|os| - 1], cells)
  }

  /** What was recorded on a stream: before its first frame, and in each frame since. */
  datatype History = History(before: seq<Observation>, frames: seq<seq<Observation>>)
  {
    ghost predicate Fits(cells: nat)
    {
      AllInGrid(before, cells) && forall i :: 0 <= i < |frames| ==> AllInGrid(frames[i], cells)
    }

    /** No more than so many observations belong to any frame. */
    ghost predicate AtMost(perFrame: nat)
    {
      |before| <= perFrame && forall i :: 0 <= i < |frames| ==> |frames[i]| <= perFrame
    }

    function Begun(): History { this.(frames := frames + [[]]) }

    function Noted(o: Observation): History
    {
      if frames == [] then this.(before := before + [o])
      else this.(frames := frames[..|frames| - 1] + [frames[|frames| - 1] + [o]])
    }
  }

  const NO_HISTORY := History([], [])

  // ---------------------------------------------------------------- logs of all streams

  type Log = map<string, History>

  /** What was recorded on a stream, nothing while it is unknown. */
  function Of(log: Log, streamId: string): History
  {
    if streamId in log then log[streamId] else NO_HISTORY
  }

  /** At most n observations were added to the frame under way. */
  ghost predicate Extends(h: History, g: History, n: nat)
  {
    if h.frames == [] then g.frames == [] && |g.before| <= |h.before| + n
    else
      var last := |h.frames| - 1;
      && g.before == h.before && |g.frames| == |h.frames| && g.frames[..last] == h.frames[..last]
      && |g.frames[last]| <= |h.frames[last]| + n
  }

  /** At most n observations were added to the frame under way on one stream, and none if the grid is off. */
  ghost predicate Grew(on: bool, was: Log, now: Log, streamId: string, n: nat)
  {
    && (!on ==> now == was)
    && (now == was || (streamId in now && now == was[streamId := now[streamId]] && Extends(Of(was, streamId), now[streamId], n)))
  }

  lemma GrewByOne(was: Log, streamId: string, o: Observation)
    ensures Grew(true, was, was[streamId := Of(was, streamId).Noted(o)], streamId, 1)
  {
  }

  lemma NotGrown(on: bool, log: Log, streamId: string)
    ensures Grew(on, log, log, streamId, 0)
  {
  }

  lemma GrewAtMost(on: bool, was: Log, now: Log, streamId: string, n: nat, m: nat)
    requires Grew(on, was, now, streamId, n) && n <= m
    ensures Grew(on, was, now, streamId, m)
  {
  }

  lemma GrewMore(on: bool, was: Log, between: Log, now: Log, streamId: string, m: nat, n: nat)
    requires Grew(on, was, between, streamId, m) && Grew(on, between, now, streamId, n)
    ensures Grew(on, was, now, streamId, m + n)
  {
    if between != was && now != between {
      ExtendsMore(Of(was, streamId), Of(between, streamId), Of(now, streamId), m, n);
    }
    hide Extends;
    if between == was {
      GrewAtMost(on, was, now, streamId, n, m + n);
    } else if now == between {
      GrewAtMost(on, was, now, streamId, m, m + n);
    }
  }

  lemma ExtendsMore(h: History, g: History, f: History, m: nat, n: nat)
    requires Extends(h, g, m) && Extends(g, f, n)
    ensures Extends(h, f, m + n)
  {
  }

  /** No frame of any stream has more than so many observations. */
  ghost predicate AllAtMost(log: Log, perFrame: nat)
  {
    forall id :: id in log ==> log[id].AtMost(perFrame)
  }

  /** A frame with at most k observations: it leaves any larger bound in place. */
  ghost predicate AddsAtMost(was: Log, now: Log, k: nat)
  {
    forall n: nat :: k <= n && AllAtMost(was, n) ==> AllAtMost(now, n)
  }

  lemma FrameAddsAtMost(on: bool, was: Log, begun: Log, now: Log, streamId: string, k: nat)
    requires begun == if on then was[streamId := Of(was, streamId).Begun()] else was
    requires Grew(on, begun, now, streamId, k)
    ensures AddsAtMost(was, now, k)
  {
    forall n: nat | k <= n && AllAtMost(was, n)
      ensures AllAtMost(now, n)
    {
      BegunAtMost(was, streamId, n);
      if on && now != begun {
        ExtendsAtMost(was, begun, now, streamId, k, n);
      }
      hide History.AtMost, Extends, History.Begun;
    }
  }

  lemma BegunAtMost(was: Log, streamId: string, n: nat)
    requires AllAtMost(was, n)
    ensures AllAtMost(was[streamId := Of(was, streamId).Begun()], n)
  {
  }

  lemma ExtendsAtMost(was: Log, begun: Log, now: Log, streamId: string, k: nat, n: nat)
    requires begun == was[streamId := Of(was, streamId).Begun()] && AllAtMost(begun, n) && k <= n
    requires streamId in now && now == begun[streamId := now[streamId]] && Extends(begun[streamId], now[streamId], k)
    ensures AllAtMost(now, n)
  {
    BegunExtends(Of(was, streamId), now[streamId], k, n);
    hide Extends, History.AtMost, History.Begun;
  }

  lemma BegunExtends(h: History, g: History, k: nat, n: nat)
    requires h.Begun().AtMost(n) && Extends(h.Begun(), g, k) && k <= n
    ensures g.AtMost(n)
  {
    var begun := h.Begun().frames;
    forall i | 0 <= i < |g.frames|
      ensures |g.frames[i]| <= n
    {
      assert i < |h.frames| ==> g.frames[..|h.frames|][i] == begun[..|h.frames|][i];
    }
  }

  // ---------------------------------------------------------------- a stream and its history

  /** The stream after its history: each frame is a decay followed by its observations. */
  ghost function Run(c: Config, h: History): (r: StreamState)
    requires c.WellFormed() && h.Fits(c.Cells())
    ensures Sized(r, c.Cells())
    decreases |h.frames|
  {
    if h.frames == [] then RecordAll(Blank(c.Cells()), h.before, c.Cells())
    else RecordAll(Decayed(c, Run(c, h.(frames := h.frames[..|h.frames| - 1]))), h.frames[|h.frames| - 1], c.Cells())
  }

  lemma RunBegun(c: Config, h: History)
    requires c.WellFormed() && h.Fits(c.Cells())
    ensures h.Begun().Fits(c.Cells()) && Run(c, h.Begun()) == Decayed(c, Run(c, h))
  {
    assert h.Begun().frames[..|h.frames|] == h.frames;
    hide AllInGrid;
    assert AllInGrid([], c.Cells()) by {
      NothingInGrid(c.Cells());
    }
  }

  lemma NothingInGrid(cells: nat)
    ensures AllInGrid([], cells)
  {
  }

  lemma RecordOneMore(st: StreamState, os: seq<Observation>, o: Observation, cells: nat)
    requires Sized(st, cells) && AllInGrid(os, cells) && InGrid(o, cells)
    ensures AllInGrid(os + [o], cells) && RecordAll(st, os + [o], cells) == Record(RecordAll(st, os, cells), o, cells)
  {
    assert (os + [o])[..|os|] == os;
  }

  lemma RunNoted(c: Config, h: History, o: Observation)
    requires c.WellFormed() && h.Fits(c.Cells()) && InGrid(o, c.Cells())
    ensures h.Noted(o).Fits(c.Cells()) && Run(c, h.Noted(o)) == Record(Run(c, h), o, c.Cells())
  {
    hide Record, RecordAll, AllInGrid, InGrid;
    if h.frames == [] {
      RecordOneMore(Blank(c.Cells()), h.before, o, c.Cells());
    } else {
      var n := |h.frames| - 1;
      assert h.Noted(o).frames[..n] == h.frames[..n];
      RecordOneMore(Decayed(c, Run(c, h.(frames := h.frames[..n]))), h.frames[n], o, c.Cells());
    }
  }

  /** The stream is what its history makes it, without negative mass. */
  ghost predicate Recounts(c: Config, st: StreamState, h: History)
    requires c.WellFormed()
  {
    h.Fits(c.Cells()) && st == Run(c, h) && NonNegative(st.occupancy) && NonNegative(st.transitions)
  }

  lemma RecountsBlank(c: Config)
    requires c.WellFormed()
    ensures Recounts(c, Blank(c.Cells()), NO_HISTORY)
  {
  }

  lemma RecountsBegun(c: Config, st: StreamState, h: History)
    requires c.WellFormed() && Recounts(c, st, h)
    ensures Recounts(c, Decayed(c, st), h.Begun())
  {
    RunBegun(c, h);
    ScaleNonNegative(st.occupancy, c.occupancyDecay);
    ScaleNonNegative(st.transitions, c.transitionDecay);
    hide Run, NonNegative, Scale;
  }

  lemma ScaleNonNegative(s: seq<real>, factor: real)
    requires NonNegative(s) && factor >= 0.0
    ensures NonNegative(Scale(s, factor))
  {
    forall k | 0 <= k < |s|
      ensures s[k] * factor >= 0.0
    {
    }
  }

  lemma RecountsNoted(c: Config, st: StreamState, h: History, o: Observation)
    requires c.WellFormed() && Recounts(c, st, h) && InGrid(o, c.Cells())
    ensures Sized(st, c.Cells()) && Recounts(c, Record(st, o, c.Cells()), h.Noted(o))
  {
    RunNoted(c, h, o);
    hide Run, History.Noted;
  }

  // ---------------------------------------------------------------- what the masses are

  predicate Reaches(o: Observation, k: int) { if o.Seen? then o.cell == k else o.to == k }

  predicate Takes(o: Observation, from: int, to: int) { o.Moved? && o.from == from && o.to == to }

  /** How often a cell was reached. */
  function Visits(os: seq<Observation>, k: int): nat
  {
    if os == [] then 0 else Visits(os[..|os| - 1], k) + (if Reaches(os[|os| - 1], k) then 1 else 0)
  }

  /** How often somebody went from one cell to another. */
  function Moves(os: seq<Observation>, from: int, to: int): nat
  {
    if os == [] then 0 else Moves(os[..|os| - 1], from, to) + (if Takes(os[|os| - 1], from, to) then 1 else 0)
  }

  /** What is left of a mass after so many frames. */
  function Faded(decay: real, x: real, frames: nat): real
  {
    if frames == 0 then x else decay * Faded(decay, x, frames - 1)
  }

  /** The visits of a cell in the first n frames, each faded once for every frame since. */
  function FadedVisits(decay: real, frames: seq<seq<Observation>>, k: int, n: nat): real
    requires n <= |frames|
  {
    if n == 0 then 0.0 else FadedVisits(decay, frames, k, n - 1) + Faded(decay, Visits(frames[n - 1], k) as real, |frames| - n)
  }

  function FadedMoves(decay: real, frames: seq<seq<Observation>>, from: int, to: int, n: nat): real
    requires n <= |frames|
  {
    if n == 0 then 0.0
    else FadedMoves(decay, frames, from, to, n - 1) + Faded(decay, Moves(frames[n - 1], from, to) as real, |frames| - n)
  }

  /** Where the grid counts the moves from one cell to another. */
  predicate CountsMoves(j: int, from: int, to: int, cells: int)
  {
    0 <= from < cells && 0 <= to < cells && j == from * cells + to
  }

  lemma RecordAdds(st: StreamState, o: Observation, cells: nat, k: int, j: int, from: int, to: int)
    requires Sized(st, cells) && InGrid(o, cells) && 0 <= k < cells && CountsMoves(j, from, to, cells) && 0 <= j < |st.transitions|
    ensures var r := Record(st, o, cells);
      && |r.occupancy| == |st.occupancy| && |r.transitions| == |st.transitions| && r.framesSeen == st.framesSeen
      && r.occupancy[k] == st.occupancy[k] + (if Reaches(o, k) then 1.0 else 0.0)
      && r.transitions[j] == st.transitions[j] + (if Takes(o, from, to) then 1.0 else 0.0)
  {
    if o.Moved? {
      CellIndexInRange(o.from, o.to, cells, cells);
      SameCellIndex(o.from, o.to, from, to, cells);
    }
  }

  lemma {:induction false} RecordAllAdds(st: StreamState, os: seq<Observation>, cells: nat, k: int, j: int, from: int, to: int)
    requires Sized(st, cells) && AllInGrid(os, cells) && 0 <= k < |st.occupancy| && CountsMoves(j, from, to, cells) && 0 <= j < |st.transitions|
    ensures var r := RecordAll(st, os, cells);
      && |r.occupancy| == |st.occupancy| && |r.transitions| == |st.transitions| && r.framesSeen == st.framesSeen
      && r.occupancy[k] == st.occupancy[k] + Visits(os, k) as real
      && r.transitions[j] == st.transitions[j] + Moves(os, from, to) as real
  {
    if os != [] {
      var earlier, o := os[..|os| - 1], os[|os| - 1];
      RecordAllAdds(st, earlier, cells, k, j, from, to);
      RecordAdds(RecordAll(st, earlier, cells), o, cells, k, j, from, to);
    }
    hide Record, CountsMoves, Reaches, Takes;
  }

  lemma RowsApart(a: int, b: int, cells: int)
    requires a < b && cells >= 0
    ensures a * cells + cells <= b * cells
  {
    assert (a + 1) * cells <= b * cells;
  }

  /** A pair of cells has an index of its own. */
  lemma SameCellIndex(a: int, b: int, from: int, to: int, cells: int)
    requires 0 <= a < cells && 0 <= b < cells && 0 <= from < cells && 0 <= to < cells
    ensures a * cells + b == from * cells + to <==> a == from && b == to
  {
    if a < from {
      RowsApart(a, from, cells);
    } else if from < a {
      RowsApart(from, a, cells);
    }
  }

  lemma Distribute(d: real, x: real, y: real)
    ensures d * (x + y) == d * x + d * y
  {
  }

  lemma {:induction false} VisitsLater(decay: real, frames: seq<seq<Observation>>, last: seq<Observation>, k: int, n: nat)
    requires n <= |frames|
    ensures FadedVisits(decay, frames + [last], k, n) == decay * FadedVisits(decay, frames, k, n)
  {
    if n > 0 {
      VisitsLater(decay, frames, last, k, n - 1);
      Distribute(decay, FadedVisits(decay, frames, k, n - 1), Faded(decay, Visits(frames[n - 1], k) as real, |frames| - n));
      hide Visits;
    }
  }

  lemma {:induction false} MovesLater(decay: real, frames: seq<seq<Observation>>, last: seq<Observation>, from: int, to: int, n: nat)
    requires n <= |frames|
    ensures FadedMoves(decay, frames + [last], from, to, n) == decay * FadedMoves(decay, frames, from, to, n)
  {
    if n > 0 {
      MovesLater(decay, frames, last, from, to, n - 1);
      Distribute(decay, FadedMoves(decay, frames, from, to, n - 1), Faded(decay, Moves(frames[n - 1], from, to) as real, |frames| - n));
      hide Moves;
    }
  }

  /** All visits of a cell in a history, faded. */
  function AllVisits(decay: real, h: History, k: int): real
  {
    Faded(decay, Visits(h.before, k) as real, |h.frames|) + FadedVisits(decay, h.frames, k, |h.frames|)
  }

  function AllMoves(decay: real, h: History, from: int, to: int): real
  {
    Faded(decay, Moves(h.before, from, to) as real, |h.frames|) + FadedMoves(decay, h.frames, from, to, |h.frames|)
  }

  lemma LastVisits(decay: real, frames: seq<seq<Observation>>, last: seq<Observation>, k: int, from: int, to: int)
    ensures FadedVisits(decay, frames + [last], k, |frames| + 1)
         == FadedVisits(decay, frames + [last], k, |frames|) + Visits(last, k) as real
    ensures FadedMoves(decay, frames + [last], from, to, |frames| + 1)
         == FadedMoves(decay, frames + [last], from, to, |frames|) + Moves(last, from, to) as real
  {
    assert (frames + [last])[|frames|] == last;
    hide Visits, Moves;
  }

  lemma FadedOnce(decay: real, x: real, n: nat)
    ensures Faded(decay, x, n + 1) == decay * Faded(decay, x, n)
  {
  }

  /** A further frame fades what was, and adds its own. */
  lemma OneFrameMore(decay: real, h: History, last: seq<Observation>, k: int, from: int, to: int)
    ensures var more := h.(frames := h.frames + [last]);
      && AllVisits(decay, more, k) == decay * AllVisits(decay, h, k) + Visits(last, k) as real
      && AllMoves(decay, more, from, to) == decay * AllMoves(decay, h, from, to) + Moves(last, from, to) as real
  {
    var n, v, m := |h.frames|, Visits(h.before, k) as real, Moves(h.before, from, to) as real;
    hide Faded, FadedVisits, FadedMoves, Visits, Moves;
    VisitsLater(decay, h.frames, last, k, n);
    MovesLater(decay, h.frames, last, from, to, n);
    LastVisits(decay, h.frames, last, k, from, to);
    FadedOnce(decay, v, n);
    FadedOnce(decay, m, n);
    Distribute(decay, Faded(decay, v, n), FadedVisits(decay, h.frames, k, n));
    Distribute(decay, Faded(decay, m, n), FadedMoves(decay, h.frames, from, to, n));
  }

  lemma RunOneFrameMore(c: Config, h: History, last: seq<Observation>)
    requires c.WellFormed() && h.Fits(c.Cells()) && AllInGrid(last, c.Cells())
    ensures h.(frames := h.frames + [last]).Fits(c.Cells())
    ensures Run(c, h.(frames := h.frames + [last])) == RecordAll(Decayed(c, Run(c, h)), last, c.Cells())
  {
    assert (h.frames + [last])[..|h.frames|] == h.frames;
    hide AllInGrid, RecordAll, Decayed;
  }

  /** What the grid keeps of the visits to a cell, and of the moves it counts at a place. */
  ghost predicate KeepsFaded(c: Config, h: History, st: StreamState, k: int, j: int, from: int, to: int)
  {
    && st.framesSeen == |h.frames|
    && 0 <= k < |st.occupancy| && 0 <= j < |st.transitions|
    && st.occupancy[k] == AllVisits(c.occupancyDecay, h, k)
    && st.transitions[j] == AllMoves(c.transitionDecay, h, from, to)
  }

  lemma {:induction false} RunKeepsFaded(c: Config, h: History, k: int, j: int, from: int, to: int)
    requires c.WellFormed() && h.Fits(c.Cells()) && 0 <= k < c.Cells() && CountsMoves(j, from, to, c.Cells())
    ensures KeepsFaded(c, h, Run(c, h), k, j, from, to)
    decreases |h.frames|
  {
    hide *;
    if h.frames == [] {
      NothingFaded(c, h, k, j, from, to);
    } else {
      var n := |h.frames| - 1;
      var earlier, last := h.(frames := h.frames[..n]), h.frames[n];
      assert h == earlier.(frames := earlier.frames + [last]);
      EarlierFits(h, c.Cells());
      RunKeepsFaded(c, earlier, k, j, from, to);
      RunOneFrameMore(c, earlier, last);
      FrameAdds(c, earlier, Run(c, earlier), last, k, j, from, to);
    }
  }

  lemma EarlierFits(h: History, cells: nat)
    requires h.Fits(cells) && h.frames != []
    ensures h.(frames := h.frames[..|h.frames| - 1]).Fits(cells) && AllInGrid(h.frames[|h.frames| - 1], cells)
  {
    hide AllInGrid;
  }

  lemma NothingFaded(c: Config, h: History, k: int, j: int, from: int, to: int)
    requires c.WellFormed() && h.Fits(c.Cells()) && 0 <= k < c.Cells() && CountsMoves(j, from, to, c.Cells()) && h.frames == []
    ensures KeepsFaded(c, h, Run(c, h), k, j, from, to)
  {
    CellIndexInRange(from, to, c.Cells(), c.Cells());
    hide RecordAll, Visits, Moves, Config.Cells, Config.WellFormed, CountsMoves;
    RecordAllAdds(Blank(c.Cells()), h.before, c.Cells(), k, j, from, to);
  }

  lemma FrameAdds(c: Config, h: History, st: StreamState, last: seq<Observation>, k: int, j: int, from: int, to: int)
    requires c.WellFormed() && Sized(st, c.Cells()) && AllInGrid(last, c.Cells()) && CountsMoves(j, from, to, c.Cells())
    requires KeepsFaded(c, h, st, k, j, from, to)
    ensures KeepsFaded(c, h.(frames := h.frames + [last]), RecordAll(Decayed(c, st), last, c.Cells()), k, j, from, to)
  {
    hide Decayed, RecordAll, Visits, Moves, Config.Cells, Config.WellFormed, CountsMoves, AllVisits, AllMoves, Sized, AllInGrid;
    DecayedAt(c, st, k, j);
    DecayedSized(c, st);
    RecordAllAdds(Decayed(c, st), last, c.Cells(), k, j, from, to);
    OneFrameMore(c.occupancyDecay, h, last, k, from, to);
    OneFrameMore(c.transitionDecay, h, last, k, from, to);
  }

  lemma DecayedSized(c: Config, st: StreamState)
    requires c.WellFormed() && Sized(st, c.Cells())
    ensures Sized(Decayed(c, st), c.Cells())
  {
    hide Config.Cells, Config.WellFormed;
  }

  /**
    What the grid keeps is exactly the history, faded: a visit or a move counts one, times the decay for
    every frame that began since.
  */
  lemma MassIsFadedHistory(c: Config, h: History, k: int, from: int, to: int)
    requires c.WellFormed() && h.Fits(c.Cells()) && 0 <= k < c.Cells() && 0 <= from < c.Cells() && 0 <= to < c.Cells()
    ensures KeepsFaded(c, h, Run(c, h), k, from * c.Cells() + to, from, to)
  {
    RunKeepsFaded(c, h, k, from * c.Cells() + to, from, to);
    hide KeepsFaded, Run;
  }

  lemma DecayedAt(c: Config, st: StreamState, k: int, j: int)
    requires 0 <= k < |st.occupancy| && 0 <= j < |st.transitions|
    ensures var r := Decayed(c, st);
      && r.framesSeen == st.framesSeen + 1 && |r.occupancy| == |st.occupancy| && |r.transitions| == |st.transitions|
      && r.occupancy[k] == c.occupancyDecay * st.occupancy[k] && r.transitions[j] == c.transitionDecay * st.transitions[j]
  {
  }

  ghost predicate Bounded(s: seq<real>, top: real)
  {
    forall k :: 0 <= k < |s| ==> 0.0 <= s[k] <= top
  }

  lemma {:induction false} RecordAllBounded(st: StreamState, os: seq<Observation>, cells: nat, top: real)
    requires Sized(st, cells) && AllInGrid(os, cells)
    requires Bounded(st.occupancy, top) && Bounded(st.transitions, top)
    ensures Bounded(RecordAll(st, os, cells).occupancy, top + |os| as real)
    ensures Bounded(RecordAll(st, os, cells).transitions, top + |os| as real)
  {
    if os != [] {
      RecordAllBounded(st, os[..|os| - 1], cells, top);
    }
  }

  lemma ScaleBounded(s: seq<real>, factor: real, decay: real, top: real)
    requires Bounded(s, top) && 0.0 <= factor <= decay && top >= 0.0
    ensures Bounded(Scale(s, factor), decay * top)
  {
    forall k | 0 <= k < |s|
      ensures 0.0 <= s[k] * factor <= decay * top
    {
      MulMonotone(s[k], top, factor, decay);
    }
  }

  lemma MulMonotone(a: real, b: real, f: real, g: real)
    requires 0.0 <= a <= b && 0.0 <= f <= g
    ensures 0.0 <= a * f <= g * b
  {
    assert a * f <= b * f;
    assert b * f <= b * g;
  }

  /**
    However long the history, no cell ever holds more than the mass k/(1 - decay) of a full history of
    k observations per frame, and none is negative.
  */
  lemma {:induction false} MassStaysBounded(c: Config, h: History, perFrame: nat, decay: real, top: real)
    requires c.WellFormed() && h.Fits(c.Cells()) && h.AtMost(perFrame)
    requires c.occupancyDecay <= decay && c.transitionDecay <= decay < 1.0
    requires top == perFrame as real / (1.0 - decay)
    ensures Bounded(Run(c, h).occupancy, top)
    ensures Bounded(Run(c, h).transitions, top)
    decreases |h.frames|
  {
    TopIsFixedPoint(perFrame, decay, top);
    if h.frames == [] {
      RecordAllBounded(Blank(c.Cells()), h.before, c.Cells(), 0.0);
      MulMonotone(0.0, top, 0.0, decay);
    } else {
      var earlier := h.(frames := h.frames[..|h.frames| - 1]);
      MassStaysBounded(c, earlier, perFrame, decay, top);
      var st := Run(c, earlier);
      ScaleBounded(st.occupancy, c.occupancyDecay, decay, top);
      ScaleBounded(st.transitions, c.transitionDecay, decay, top);
      RecordAllBounded(Decayed(c, st), h.frames[|h.frames| - 1], c.Cells(), decay * top);
    }
  }

  lemma TopIsFixedPoint(perFrame: nat, decay: real, top: real)
    requires decay < 1.0 && top == perFrame as real / (1.0 - decay)
    ensures top >= 0.0 && decay * top + perFrame as real == top
  {
    var rest := 1.0 - decay;
    QuotientTimes(perFrame as real, rest);
    assert top * rest == top - decay * top;
  }

  lemma QuotientTimes(x: real, y: real)
    requires x >= 0.0 && y > 0.0
    ensures x / y * y == x && x / y >= 0.0
  {
  }

  function MaxOf(s: seq<real>): real
    requires s != []
  {
    if |s| == 1 then s[0] else Max(MaxOf(s[..|s| - 1]), s[|s| - 1])
  }

  datatype AssociationCost = AssociationCost(rawCost: real, extraCost: real)

  function Share(part: real, whole: real): (r: real)
    ensures 0.0 <= r <= 1.0
  {
    if whole > 0.0 then Clamp(part / whole, 0.0, 1.0) else 0.0
  }

  /** The part of the moves out of one cell that led to another. */
  function TransitionShare(transitions: seq<real>, cells: nat, from: int, to: int): (r: real)
    requires |transitions| == cells * cells
    requires 0 <= from < cells && 0 <= to < cells
    ensures 0.0 <= r <= 1.0
  {
    CellIndexInRange(from, 0, cells, cells);
    CellIndexInRange(from, cells - 1, cells, cells);
    CellIndexInRange(from, to, cells, cells);
    Share(transitions[from * cells + to], Sum(transitions[from * cells..from * cells + cells]))
  }

  lemma {:induction false} MaxOfIsMax(s: seq<real>)
    requires s != []
    ensures MaxOf(s) in s && forall k :: 0 <= k < |s| ==> s[k] <= MaxOf(s)
  {
    if |s| > 1 {
      MaxOfIsMax(s[..|s| - 1]);
      assert s[..|s| - 1][0] == s[0];
    }
  }

  lemma {:induction false} PartOfSum(s: seq<real>, k: nat)
    requires k < |s| && NonNegative(s)
    ensures 0.0 <= s[k] <= Sum(s)
  {
    var last := |s| - 1;
    if k < last {
      PartOfSum(s[..last], k);
    } else if last > 0 {
      PartOfSum(s[..last], 0);
    }
  }

  lemma ByItself(x: real)
    requires x > 0.0
    ensures x / x == 1.0
  {
    QuotientTimes(x, x);
    TimesOne(x / x, x);
  }

  lemma TimesOne(q: real, x: real)
    requires q * x == x && x > 0.0
    ensures q == 1.0
  {
    assert (q - 1.0) * x == 0.0;
  }

  /** This much of the whole is the part. */
  predicate IsPart(share: real, whole: real, part: real)
  {
    share * whole == part
  }

  lemma ShareTimes(part: real, whole: real)
    requires 0.0 <= part <= whole
    ensures IsPart(Share(part, whole), whole, part)
  {
    if whole > 0.0 {
      QuotientTimes(part, whole);
      LargerQuotient(part, whole, whole);
      ByItself(whole);
    }
  }

  /** A cell's share is what was seen in it as a part of what was seen in the busiest one. */
  lemma OccupancyIsPart(occupancy: seq<real>, k: nat)
    requires k < |occupancy| && NonNegative(occupancy)
    ensures IsPart(Share(occupancy[k], MaxOf(occupancy)), MaxOf(occupancy), occupancy[k])
    ensures MaxOf(occupancy) in occupancy && forall j :: 0 <= j < |occupancy| ==> occupancy[j] <= MaxOf(occupancy)
  {
    MaxOfIsMax(occupancy);
    hide MaxOf, Share, IsPart;
    ShareTimes(occupancy[k], MaxOf(occupancy));
  }

  /** A move's share is how often it was made as a part of all moves out of its cell. */
  lemma TransitionIsPart(transitions: seq<real>, cells: nat, from: int, to: int)
    requires |transitions| == cells * cells && NonNegative(transitions) && 0 <= from < cells && 0 <= to < cells
    requires 0 <= from * cells + to < |transitions| && 0 <= from * cells <= from * cells + cells <= |transitions|
    ensures IsPart(TransitionShare(transitions, cells, from, to), Sum(transitions[from * cells..from * cells + cells]),
                   transitions[from * cells + to])
  {
    var start := from * cells;
    var row := transitions[start..start + cells];
    assert row[to] == transitions[start + to];
    assert TransitionShare(transitions, cells, from, to) == Share(row[to], Sum(row));
    hide *;
    IsNonNegativeRow(transitions, start, cells);
    PartOfSum(row, to);
    ShareTimes(row[to], Sum(row));
  }

  lemma IsNonNegativeRow(s: seq<real>, start: nat, n: nat)
    requires NonNegative(s) && start + n <= |s|
    ensures NonNegative(s[start..start + n])
  {
  }

  function Weighted(weight: real, x: real): (r: real)
    requires weight >= 0.0 && 0.0 <= x <= 1.0
    ensures 0.0 <= r <= weight
  {
    weight * x
  }

  /** The second cell was seen at least as often as the first, and reached as often from this one. */
  predicate AsBusy(st: StreamState, cells: nat, from: int, i: int, j: int)
    requires Sized(st, cells) && 0 <= from < cells && 0 <= i < cells && 0 <= j < cells
  {
    CellIndexInRange(from, i, cells, cells);
    CellIndexInRange(from, j, cells, cells);
    st.occupancy[i] <= st.occupancy[j] && st.transitions[from * cells + i] <= st.transitions[from * cells + j]
  }

  lemma LargerQuotient(x: real, y: real, whole: real)
    requires x <= y && whole > 0.0
    ensures x / whole <= y / whole
  {
  }

  lemma ShareGrows(x: real, y: real, whole: real)
    requires x <= y
    ensures Share(x, whole) <= Share(y, whole)
  {
    if whole > 0.0 {
      LargerQuotient(x, y, whole);
    }
  }

  lemma BusierShares(st: StreamState, cells: nat, from: int, i: int, j: int)
    requires Sized(st, cells) && 0 <= from < cells && 0 <= i < cells && 0 <= j < cells && AsBusy(st, cells, from, i, j)
    ensures Share(st.occupancy[i], MaxOf(st.occupancy)) <= Share(st.occupancy[j], MaxOf(st.occupancy))
    ensures TransitionShare(st.transitions, cells, from, i) <= TransitionShare(st.transitions, cells, from, j)
  {
    CellIndexInRange(from, 0, cells, cells);
    CellIndexInRange(from, cells - 1, cells, cells);
    CellIndexInRange(from, i, cells, cells);
    CellIndexInRange(from, j, cells, cells);
    hide Share, MaxOf;
    ShareGrows(st.occupancy[i], st.occupancy[j], MaxOf(st.occupancy));
    ShareGrows(st.transitions[from * cells + i], st.transitions[from * cells + j],
               Sum(st.transitions[from * cells..from * cells + cells]));
  }

  function Times(x: real, y: real): real { x * y }

  lemma TimesZero(x: real)
    ensures Times(x, 0.0) == 0.0 == Times(0.0, x)
  {
  }

  lemma TimesSwap(x: real, y: real)
    ensures Times(x, y) == Times(y, x)
  {
  }

  lemma SquareGrows(x: real, y: real)
    requires 0.0 <= x <= y
    ensures 0.0 <= Times(x, x) <= Times(y, y)
  {
    hide Times;
    TimesGrows(x, x, y);
    TimesGrows(y, x, y);
    TimesSwap(x, y);
    TimesGrows(x, 0.0, x);
    TimesZero(x);
  }

  function SumOfSquares(x: int, y: int): real
  {
    Times(x as real, x as real) + Times(y as real, y as real)
  }

  lemma SumOfSquaresGrows(x: nat, y: nat, farX: nat, farY: nat)
    requires x <= farX && y <= farY
    ensures 0.0 == SumOfSquares(0, 0) <= SumOfSquares(x, y) <= SumOfSquares(farX, farY)
  {
    hide Times;
    TimesZero(0.0);
    SquareGrows(x as real, farX as real);
    SquareGrows(y as real, farY as real);
  }

  lemma SumOfSquaresIsEven(x: int, y: int)
    ensures SumOfSquares(-x, y) == SumOfSquares(x, -y) == SumOfSquares(x, y)
  {
    var a, b := x as real, y as real;
    assert (-x) as real == -a && (-y) as real == -b;
  }

  lemma WeightedGrows(weight: real, x: real, y: real)
    requires weight >= 0.0 && 0.0 <= x <= y <= 1.0
    ensures Weighted(weight, x) <= Weighted(weight, y)
  {
  }

  lemma ClampedGrows(x: real, y: real, top: real)
    requires x <= y && top >= 0.0
    ensures Clamp(x, 0.0, top) <= Clamp(y, 0.0, top)
  {
  }

  lemma TimesGrows(weight: real, x: real, y: real)
    requires weight >= 0.0 && x <= y
    ensures Times(weight, x) <= Times(weight, y)
  {
  }

  /** The k-th of so many equal parts of a length holds the point. */
  predicate HoldsPart(k: int, x: real, length: int, parts: int)
  {
    Between(k as real, (k + 1) as real, x, length as real, parts as real)
  }

  /** Of n parts of a length l, the point lies in those from one on up to another. */
  predicate Between(from: real, to: real, x: real, l: real, n: real)
  {
    Times(from, l) <= Times(x, n) < Times(to, l)
  }

  function GridPart(x: real, length: int, parts: int): int
    requires length > 0
  {
    Times(x / length as real, parts as real).Floor
  }

  lemma PartOf(x: real, length: int, parts: int)
    requires length > 0 && parts >= 1 && 0.0 <= x <= length as real - 1.0
    ensures var k := GridPart(x, length, parts);
      0 <= k < parts && HoldsPart(k, x, length, parts) && ClampInt(k, 0, parts - 1) == k
  {
    var n, l := parts as real, length as real;
    var q := x / l;
    QuotientBelow(x, l);
    TimesBelow(q, n);
    PartProduct(q, n, l, x);
    hide Times;
    var k := GridPart(x, length, parts);
    var lo, hi := k as real, (k + 1) as real;
    assert lo <= Times(q, n) < hi;
    ScaleBounds(lo, Times(q, n), hi, l);
  }

  lemma PartProduct(q: real, n: real, l: real, x: real)
    requires Times(q, l) == x
    ensures Times(Times(q, n), l) == Times(x, n)
  {
    assert q * n * l == q * l * n;
  }

  lemma QuotientBelow(x: real, l: real)
    requires 0.0 <= x < l
    ensures 0.0 <= x / l < 1.0 && Times(x / l, l) == x
  {
    QuotientTimes(x, l);
    BelowOne(x / l, l, x);
  }

  lemma BelowOne(q: real, l: real, x: real)
    requires q * l == x && l > 0.0 && 0.0 <= x < l
    ensures 0.0 <= q < 1.0
  {
  }

  lemma TimesBelow(q: real, n: real)
    requires 0.0 <= q < 1.0 && n >= 1.0
    ensures 0.0 <= Times(q, n) < n
  {
  }

  lemma ScaleBounds(a: real, b: real, c: real, l: real)
    requires a <= b < c && l > 0.0
    ensures Times(a, l) <= Times(b, l) < Times(c, l)
  {
  }

  class SceneGrid {
    const cfg: Config
    // The square root of the host library.
    const sqrt: real -> real
    var streams: map<string, StreamState>
    ghost var log: Log

    /** Every stream that was ever touched is what its history makes it, of the grid's size and without negative mass. */
    ghost predicate Valid()
      reads this
    {
      && cfg.WellFormed()
      && log.Keys == streams.Keys
      && forall id :: id in streams ==> Recounts(cfg, streams[id], log[id])
    }

    constructor (config: Config, squareRoot: real -> real)
      ensures Valid() && cfg == config.Clamped() && streams == map[] && log == map[]
    {
      cfg := config.Clamped();
      sqrt := squareRoot;
      streams := map[];
      log := map[];
    }

    /** What was recorded on a stream so far. */
    ghost function Recorded(streamId: string): History
      reads this
    {
      Of(log, streamId)
    }

    lemma StreamIsRecorded(streamId: string)
      requires Valid()
      ensures Recounts(cfg, State(streamId), Recorded(streamId))
    {
      hide Recounts;
      RecountsBlank(cfg);
    }

    /** With at most k observations in any frame of any stream, no cell of any stream exceeds k/(1 - decay). */
    lemma MassIsBounded(perFrame: nat, decay: real, top: real)
      requires Valid() && AllAtMost(log, perFrame)
      requires cfg.occupancyDecay <= decay && cfg.transitionDecay <= decay < 1.0
      requires top == perFrame as real / (1.0 - decay)
      ensures forall id :: id in streams ==> Bounded(streams[id].occupancy, top) && Bounded(streams[id].transitions, top)
    {
      forall id | id in streams
        ensures Bounded(streams[id].occupancy, top) && Bounded(streams[id].transitions, top)
      {
        MassStaysBounded(cfg, log[id], perFrame, decay, top);
      }
    }

    /** The state of a stream, blank when it has none yet. */
    function State(streamId: string): (st: StreamState)
      requires Valid()
      reads this
      ensures Sized(st, cfg.Cells()) && NonNegative(st.occupancy) && NonNegative(st.transitions)
    {
      if streamId in streams then streams[streamId] else Blank(cfg.Cells())
    }

    method BeginFrame(streamId: string)
      requires Valid()
      modifies this
      ensures Valid()
      ensures streams == if cfg.enabled then old(streams)[streamId := Decayed(cfg, old(State(streamId)))] else old(streams)
      ensures log == if cfg.enabled then old(log)[streamId := old(Recorded(streamId)).Begun()] else old(log)
    {
      if !cfg.enabled {
        return;
      }
      hide Recounts, Decayed, History.Begun;
      var st := State(streamId);
      StreamIsRecorded(streamId);
      RecountsBegun(cfg, st, Recorded(streamId));
      streams, log := streams[streamId := Decayed(cfg, st)], log[streamId := Recorded(streamId).Begun()];
    }

    method Observe(streamId: string, width: int, height: int, box: Box)
      requires Valid()
      modifies this
      ensures Valid()
      ensures streams == if cfg.enabled && width > 0 && height > 0
                         then old(streams)[streamId := Record(old(State(streamId)), Seen(CellIndex(width, height, box)), cfg.Cells())]
                         else old(streams)
      ensures log == if cfg.enabled && width > 0 && height > 0
                     then old(log)[streamId := old(Recorded(streamId)).Noted(Seen(CellIndex(width, height, box)))]
                     else old(log)
      ensures Grew(cfg.enabled, old(log), log, streamId, 1)
    {
      hide Recounts, CellIndex, CellForBox, History.Noted, NonNegative, Run, Config.WellFormed, Config.Cells, Extends;
      if !cfg.enabled || width <= 0 || height <= 0 {
        return;
      }
      var st := State(streamId);
      ghost var seen := Seen(CellIndex(width, height, box));
      StreamIsRecorded(streamId);
      RecountsNoted(cfg, st, Recorded(streamId), seen);
      GrewByOne(log, streamId, seen);
      log := log[streamId := Recorded(streamId).Noted(seen)];
      streams := streams[streamId := st.(occupancy := Bump(st.occupancy, CellIndex(width, height, box)))];
    }

    method ObserveTransition(streamId: string, width: int, height: int, from: Box, to: Box)
      requires Valid()
      modifies this
      ensures Valid()
      ensures streams == if cfg.enabled && width > 0 && height > 0
                         then old(streams)[streamId := Record(old(State(streamId)),
                                                              Moved(CellIndex(width, height, from), CellIndex(width, height, to)),
                                                              cfg.Cells())]
                         else old(streams)
      ensures log == if cfg.enabled && width > 0 && height > 0
                     then old(log)[streamId := old(Recorded(streamId)).Noted(Moved(CellIndex(width, height, from), CellIndex(width, height, to)))]
                     else old(log)
      ensures Grew(cfg.enabled, old(log), log, streamId, 1)
    {
      hide Recounts, CellIndex, CellForBox, History.Noted, NonNegative, Run, Config.WellFormed, Config.Cells, Extends;
      if !cfg.enabled || width <= 0 || height <= 0 {
        return;
      }
      var st := State(streamId);
      ghost var before := st;
      var fromIdx := CellIndex(width, height, from);
      var toIdx := CellIndex(width, height, to);
      var cells := cfg.Cells();
      CellIndexInRange(fromIdx, toIdx, cells, cells);
      st := st.(transitions := Bump(st.transitions, fromIdx * cells + toIdx));
      st := st.(occupancy := Bump(st.occupancy, toIdx));
      ghost var moved := Moved(fromIdx, toIdx);
      StreamIsRecorded(streamId);
      RecountsNoted(cfg, before, Recorded(streamId), moved);
      GrewByOne(log, streamId, moved);
      log := log[streamId := Recorded(streamId).Noted(moved)];
      streams := streams[streamId := st];
    }

    /** The grid cell under a box's foot point; (0, 0) for a frame without area. */
    function CellForBox(width: int, height: int, box: Box): (cell: (int, int))
      requires cfg.WellFormed()
      ensures 0 <= cell.0 < cfg.rows && 0 <= cell.1 < cfg.cols
    {
      if width <= 0 || height <= 0 then (0, 0)
      else
        var maxX := Max(0.0, width as real - 1.0);
        var maxY := Max(0.0, height as real - 1.0);
        var gridX := Clamp(box.x + box.w * 0.5, 0.0, maxX);
        var gridY := Clamp(box.y + box.h * 0.95, 0.0, maxY);
        var col, row := GridPart(gridX, width, cfg.cols), GridPart(gridY, height, cfg.rows);
        (ClampInt(row, 0, cfg.rows - 1), ClampInt(col, 0, cfg.cols - 1))
    }

    /** The cell is the one of equally many parts of the frame that holds the foot point, drawn into the frame. */
    lemma CellHoldsFoot(width: int, height: int, box: Box)
      requires cfg.WellFormed() && width > 0 && height > 0
      ensures var (row, col) := CellForBox(width, height, box);
        var x := Clamp(box.x + box.w * 0.5, 0.0, width as real - 1.0);
        var y := Clamp(box.y + box.h * 0.95, 0.0, height as real - 1.0);
        HoldsPart(col, x, width, cfg.cols) && HoldsPart(row, y, height, cfg.rows)
    {
      var x := Clamp(box.x + box.w * 0.5, 0.0, width as real - 1.0);
      var y := Clamp(box.y + box.h * 0.95, 0.0, height as real - 1.0);
      PartOf(x, width, cfg.cols);
      PartOf(y, height, cfg.rows);
      assert Max(0.0, width as real - 1.0) == width as real - 1.0 && Max(0.0, height as real - 1.0) == height as real - 1.0;
      hide HoldsPart, GridPart, Clamp, ClampInt;
    }

    function CellIndex(width: int, height: int, box: Box): (k: int)
      requires cfg.WellFormed()
      ensures 0 <= k < cfg.Cells()
    {
      var cell := CellForBox(width, height, box);
      CellIndexInRange(cell.0, cell.1, cfg.rows, cfg.cols);
      cell.0 * cfg.cols + cell.1
    }

    /** The distance between two cells as a fraction of the grid's diagonal. */
    function CellDistance(dRow: int, dCol: int): (d: real)
      ensures 0.0 <= d <= 1.0
    {
      var maxDist := Max(1.0, sqrt(SumOfSquares(cfg.rows - 1, cfg.cols - 1)));
      Clamp(sqrt(SumOfSquares(dRow, dCol)) / maxDist, 0.0, 1.0)
    }

    function RawCost(distance: real, occupancy: real, transition: real): (raw: real)
      requires cfg.WellFormed()
      requires 0.0 <= distance <= 1.0 && 0.0 <= occupancy <= 1.0 && 0.0 <= transition <= 1.0
      ensures 0.0 <= raw <= cfg.cellDistanceWeight + cfg.occupancyWeight + cfg.transitionWeight
    {
      Weighted(cfg.cellDistanceWeight, distance)
      + Weighted(cfg.occupancyWeight, 1.0 - occupancy)
      + Weighted(cfg.transitionWeight, 1.0 - transition)
    }

    /** Each weight is what its part costs at most. */
    lemma RawCostEnds()
      requires cfg.WellFormed()
      ensures RawCost(0.0, 1.0, 1.0) == 0.0 && RawCost(1.0, 1.0, 1.0) == cfg.cellDistanceWeight
      ensures RawCost(0.0, 0.0, 1.0) == cfg.occupancyWeight && RawCost(0.0, 1.0, 0.0) == cfg.transitionWeight
    {
    }

    lemma RawCostFalls(far: real, near: real, occupancy: real, busier: real, transition: real, oftener: real)
      requires cfg.WellFormed() && 0.0 <= near <= far <= 1.0
      requires 0.0 <= occupancy <= busier <= 1.0 && 0.0 <= transition <= oftener <= 1.0
      ensures RawCost(near, busier, oftener) <= RawCost(far, occupancy, transition)
    {
      WeightedGrows(cfg.cellDistanceWeight, near, far);
      WeightedGrows(cfg.occupancyWeight, 1.0 - busier, 1.0 - occupancy);
      WeightedGrows(cfg.transitionWeight, 1.0 - oftener, 1.0 - transition);
      hide Weighted;
    }

    /** How far a box's cell is from a track's. */
    function Distance(width: int, height: int, track: Box, box: Box): (d: real)
      requires cfg.WellFormed()
      ensures 0.0 <= d <= 1.0
    {
      var from, to := CellForBox(width, height, track), CellForBox(width, height, box);
      CellDistance(to.0 - from.0, to.1 - from.1)
    }

    /** With a square root that grows: no distance within a cell, more for a farther cell, one to the opposite corner. */
    lemma FartherCellsAreFarther(dRow: nat, dCol: nat, farRow: nat, farCol: nat)
      requires cfg.WellFormed() && dRow <= farRow < cfg.rows && dCol <= farCol < cfg.cols
      requires sqrt(0.0) == 0.0 && forall x, y :: 0.0 <= x <= y ==> sqrt(x) <= sqrt(y)
      ensures CellDistance(0, 0) == 0.0
      ensures CellDistance(dRow, dCol) <= CellDistance(farRow, farCol)
      ensures sqrt(SumOfSquares(cfg.rows - 1, cfg.cols - 1)) >= 1.0 ==> CellDistance(cfg.rows - 1, cfg.cols - 1) == 1.0
    {
      SumOfSquaresGrows(dRow, dCol, farRow, farCol);
      var near, far, diagonal := SumOfSquares(dRow, dCol), SumOfSquares(farRow, farCol), SumOfSquares(cfg.rows - 1, cfg.cols - 1);
      hide SumOfSquares;
      LargerQuotient(sqrt(near), sqrt(far), Max(1.0, sqrt(diagonal)));
      if sqrt(diagonal) >= 1.0 {
        ByItself(sqrt(diagonal));
      }
    }

    /** Mirrored moves are equally far. */
    lemma DistanceIsEven(dRow: int, dCol: int)
      ensures CellDistance(-dRow, dCol) == CellDistance(dRow, -dCol) == CellDistance(dRow, dCol)
    {
      SumOfSquaresIsEven(dRow, dCol);
      hide SumOfSquares;
    }

    /** The weighted raw cost is added, up to the limit. */
    lemma ExtraIsWeighed(raw: real)
      requires cfg.WellFormed() && raw >= 0.0
      ensures Extra(raw) == Min(cfg.associationWeight * raw, cfg.maxExtraCost)
    {
      TimesGrows(cfg.associationWeight, 0.0, raw);
      TimesZero(cfg.associationWeight);
    }

    /** What a raw cost adds to the association. */
    function Extra(raw: real): (extra: real)
      requires cfg.WellFormed()
      ensures 0.0 <= extra <= cfg.maxExtraCost
    {
      Clamp(Times(cfg.associationWeight, raw), 0.0, cfg.maxExtraCost)
    }

    /** The price of a detection for a track: zero while the stream is unknown or warming up. */
    function Cost(streamId: string, width: int, height: int, track: Box, detection: Box): (cost: AssociationCost)
      requires Valid()
      reads this
      ensures 0.0 <= cost.rawCost <= cfg.cellDistanceWeight + cfg.occupancyWeight + cfg.transitionWeight
      ensures 0.0 <= cost.extraCost <= cfg.maxExtraCost
    {
      if !cfg.enabled || width <= 0 || height <= 0 || streamId !in streams || streams[streamId].framesSeen < cfg.warmupFrames then
        AssociationCost(0.0, 0.0)
      else
        var st := streams[streamId];
        var (fromRow, fromCol) := CellForBox(width, height, track);
        var (toRow, toCol) := CellForBox(width, height, detection);
        var fromIdx := CellIndex(width, height, track);
        var toIdx := CellIndex(width, height, detection);
        var distance := CellDistance(toRow - fromRow, toCol - fromCol);
        var occupancy := Share(st.occupancy[toIdx], MaxOf(st.occupancy));
        var transition := TransitionShare(st.transitions, cfg.Cells(), fromIdx, toIdx);
        var raw := RawCost(distance, occupancy, transition);
        AssociationCost(raw, Extra(raw))
    }

    /** What makes up the price of a pair. */
    function RawPrice(streamId: string, width: int, height: int, track: Box, box: Box): real
      requires Valid()
      reads this
    {
      var st := State(streamId);
      RawCost(Distance(width, height, track, box),
              Share(st.occupancy[CellIndex(width, height, box)], MaxOf(st.occupancy)),
              TransitionShare(st.transitions, cfg.Cells(), CellIndex(width, height, track), CellIndex(width, height, box)))
    }

    lemma CostIsPrice(streamId: string, width: int, height: int, track: Box, box: Box)
      requires Valid()
      ensures var cost := Cost(streamId, width, height, track, box);
        cost == if cfg.enabled && width > 0 && height > 0 && streamId in streams && streams[streamId].framesSeen >= cfg.warmupFrames then
                  AssociationCost(RawPrice(streamId, width, height, track, box), Extra(RawPrice(streamId, width, height, track, box)))
                else AssociationCost(0.0, 0.0)
    {
      hide RawCost, Share, TransitionShare, CellForBox, CellDistance, CellIndex, MaxOf, Recounts, Extra;
      if cfg.enabled && width > 0 && height > 0 && streamId in streams && streams[streamId].framesSeen >= cfg.warmupFrames {
        assert State(streamId) == streams[streamId];
        assert Cost(streamId, width, height, track, box).rawCost == RawPrice(streamId, width, height, track, box);
      }
    }

    lemma PriceFalls(streamId: string, width: int, height: int, track: Box, a: Box, b: Box)
      requires Valid() && Distance(width, height, track, b) <= Distance(width, height, track, a)
      requires AsBusy(State(streamId), cfg.Cells(), CellIndex(width, height, track), CellIndex(width, height, a), CellIndex(width, height, b))
      ensures RawPrice(streamId, width, height, track, b) <= RawPrice(streamId, width, height, track, a)
    {
      hide RawCost, Share, TransitionShare, AsBusy, CellForBox, CellDistance, CellIndex, MaxOf, Recounts, State;
      var st, cells := State(streamId), cfg.Cells();
      var from, i, j := CellIndex(width, height, track), CellIndex(width, height, a), CellIndex(width, height, b);
      BusierShares(st, cells, from, i, j);
      RawCostFalls(Distance(width, height, track, a), Distance(width, height, track, b),
                   Share(st.occupancy[i], MaxOf(st.occupancy)), Share(st.occupancy[j], MaxOf(st.occupancy)),
                   TransitionShare(st.transitions, cells, from, i), TransitionShare(st.transitions, cells, from, j));
    }

    lemma ExtraGrows(x: real, y: real)
      requires cfg.WellFormed() && x <= y
      ensures Extra(x) <= Extra(y)
    {
      TimesGrows(cfg.associationWeight, x, y);
      hide Times;
      ClampedGrows(Times(cfg.associationWeight, x), Times(cfg.associationWeight, y), cfg.maxExtraCost);
    }

    /** A cell that is no farther, seen no less often and reached no less often never costs more. */
    lemma BusierNeverCostsMore(streamId: string, width: int, height: int, track: Box, a: Box, b: Box)
      requires Valid() && Distance(width, height, track, b) <= Distance(width, height, track, a)
      requires AsBusy(State(streamId), cfg.Cells(), CellIndex(width, height, track), CellIndex(width, height, a), CellIndex(width, height, b))
      ensures Cost(streamId, width, height, track, b).rawCost <= Cost(streamId, width, height, track, a).rawCost
      ensures Cost(streamId, width, height, track, b).extraCost <= Cost(streamId, width, height, track, a).extraCost
    {
      hide Cost, RawPrice, AsBusy, CellIndex, State, Distance, Recounts, Clamp;
      CostIsPrice(streamId, width, height, track, a);
      CostIsPrice(streamId, width, height, track, b);
      PriceFalls(streamId, width, height, track, a, b);
      ExtraGrows(RawPrice(streamId, width, height, track, b), RawPrice(streamId, width, height, track, a));
      hide Extra;
    }
  }
}
