/** The jet-stream catalogue of jscat.py's `do_jscat`: the period and
    bounding box, the time loop that stacks every time step's rows of
    `find_jets` into `jsidx`, the table of values looked up at each row's
    indices, and the name of the output file. */
module Catalogue {
  import opened Wrappers
  import opened Calendar
  import opened Grid
  import opened Jets

  /** A row whose four indices lie inside the grid's axes. */
  predicate InGrid(d: GridData, row: JetIndex) {
    row.t < |d.time| && row.lvl < |d.level| && row.lat < |d.lat| && row.lon < |d.lon|
  }

  /** The eastward wind at the row's own (time, level, latitude, longitude)
      is strictly positive. */
  predicate Eastward(d: GridData, row: JetIndex)
    requires WellFormed(d) && InGrid(d, row)
  {
    d.uwnd[row.t][row.lvl][row.lat][row.lon] > 0.0
  }

  /** The outcome of one `find_jets` call: its rows, or the error it raises. */
  type Step = Result<seq<JetIndex>, JetError>

  /** `find_jets(d, dtidx, p)` for every `dtidx` of `enumerate(d['dt'])`. */
  function StepResults(d: GridData, p: ParamMap, scan: Scanner): (steps: seq<Step>)
    requires WellFormed(d) && ScannerInBounds(scan)
    ensures |steps| == |d.time|
    ensures forall t :: 0 <= t < |steps| ==> steps[t] == JetsAt(d, t, p, scan)
  {
    seq(|d.time|, t requires 0 <= t < |d.time| => JetsAt(d, t, p, scan))
  }

  /** `jsidx` after the first `n` passes of the time loop: every step's rows
      stacked below those of the steps before it.  It succeeds exactly when
      every one of those steps does, and otherwise raises the error of a
      failing step. */
  function Stack(steps: seq<Step>, n: nat): (r: Step)
    requires n <= |steps|
    ensures r.Success? <==> forall t :: 0 <= t < n ==> steps[t].Success?
    ensures r.Failure? ==> exists t :: 0 <= t < n && steps[t] == Failure(r.error)
  {
    if n == 0 then Success([])
    else
      match Stack(steps, n - 1)
      case Failure(e) => Failure(e)
      case Success(acc) =>
        match steps[n - 1]
        case Failure(e) => Failure(e)
        case Success(rows) => Success(acc + rows)
  }

  /** The first failing step ends the loop: later steps change nothing. */
  lemma {:induction false} StackKeepsFailure(steps: seq<Step>, n: nat, m: nat)
    requires n <= m <= |steps| && Stack(steps, n).Failure?
    ensures Stack(steps, m) == Stack(steps, n)
  {
    if n < m {
      StackKeepsFailure(steps, n, m - 1);
    }
  }

  /** One more step either ends the loop with its error, which then is the
      loop's result, or stacks its rows. */
  lemma StackStep(steps: seq<Step>, n: nat, acc: seq<JetIndex>)
    requires n < |steps| && Stack(steps, n) == Success(acc)
    ensures steps[n].Failure? ==> Stack(steps, |steps|) == Failure(steps[n].error)
    ensures steps[n].Success? ==> Stack(steps, n + 1) == Success(acc + steps[n].value)
  {
    if steps[n].Failure? {
      StackKeepsFailure(steps, n + 1, |steps|);
    }
  }

  /** A row is stacked exactly when it is a row of one of the first `n`
      steps. */
  lemma {:induction false} StackMembers(steps: seq<Step>, n: nat, row: JetIndex)
    requires n <= |steps| && Stack(steps, n).Success?
    ensures row in Stack(steps, n).value <==> exists t :: 0 <= t < n && row in steps[t].value
  {
    if n > 0 {
      StackMembers(steps, n - 1, row);
      assert Stack(steps, n).value == Stack(steps, n - 1).value + steps[n - 1].value;
    }
  }

  /** Each step's rows carry that step's time index in column 0. */
  predicate Timed(steps: seq<Step>) {
    forall t, k :: 0 <= t < |steps| && steps[t].Success? && 0 <= k < |steps[t].value| ==> steps[t].value[k].t == t
  }

  /** Stacking in time order: column 0 of `jsidx` never decreases and stays
      below the number of steps taken. */
  lemma {:induction false} StackTimeOrdered(steps: seq<Step>, n: nat)
    requires n <= |steps| && Timed(steps) && Stack(steps, n).Success?
    ensures var rows := Stack(steps, n).value;
      (forall k :: 0 <= k < |rows| ==> rows[k].t < n) &&
      (forall i, j :: 0 <= i <= j < |rows| ==> rows[i].t <= rows[j].t)
  {
    if n > 0 {
      StackTimeOrdered(steps, n - 1);
      assert Stack(steps, n).value == Stack(steps, n - 1).value + steps[n - 1].value;
    }
  }

  /** Picking out time index `t` from the stacked rows gives exactly the
      rows of step `t`, in their order (none for a step not yet taken). */
  lemma {:induction false} RowsOfTime(steps: seq<Step>, n: nat, t: nat)
    requires n <= |steps| && Timed(steps) && Stack(steps, n).Success?
    ensures t < n ==> Having(Stack(steps, n).value, TimeOf, t) == steps[t].value
    ensures t >= n ==> Having(Stack(steps, n).value, TimeOf, t) == []
  {
    if n > 0 {
      var y := n - 1;
      var prev, here := Stack(steps, y).value, steps[y].value;
      assert Stack(steps, n).value == prev + here;
      HavingAppend(prev, here, TimeOf, t);
      RowsOfTime(steps, y, t);
      StackTimeOrdered(steps, y);
      if t == y {
        HavingAll(here, TimeOf, t);
        HavingNone(prev, TimeOf, t);
        assert Having(prev, TimeOf, t) + Having(here, TimeOf, t) == here;
      } else {
        HavingNone(here, TimeOf, t);
        assert Having(prev, TimeOf, t) + Having(here, TimeOf, t) == Having(prev, TimeOf, t);
      }
    }
  }

  /** On the grid: the time loop fails exactly when there is a time step and
      a longitude to scan but a scanner argument is missing from `p`, and it
      then raises the KeyError. */
  lemma CatalogueFailure(d: GridData, p: ParamMap, scan: Scanner)
    requires WellFormed(d) && ScannerInBounds(scan)
    ensures var r := Stack(StepResults(d, p, scan), |d.time|);
      (r.Failure? <==> |d.time| > 0 && |d.lon| > 0 && !HasScanKeys(EffectiveParams(p))) &&
      (r.Failure? ==> r.error == MissingParameter)
  {
    var steps := StepResults(d, p, scan);
    if |d.time| > 0 && |d.lon| > 0 && !HasScanKeys(EffectiveParams(p)) {
      assert steps[0].Failure?;
    }
  }

  /** On the grid: the stacked rows all index the grid, have strictly
      positive eastward wind, and come in time order. */
  lemma CatalogueRows(d: GridData, p: ParamMap, scan: Scanner)
    requires WellFormed(d) && ScannerInBounds(scan)
    requires Stack(StepResults(d, p, scan), |d.time|).Success?
    ensures var rows := Stack(StepResults(d, p, scan), |d.time|).value;
      (forall k :: 0 <= k < |rows| ==> InGrid(d, rows[k]) && Eastward(d, rows[k])) &&
      (forall i, j :: 0 <= i <= j < |rows| ==> rows[i].t <= rows[j].t)
  {
    var steps := StepResults(d, p, scan);
    var rows := Stack(steps, |d.time|).value;
    forall t, k | 0 <= t < |steps| && steps[t].Success? && 0 <= k < |steps[t].value|
      ensures steps[t].value[k].t == t
    {
      JetsAtRows(d, t, p, scan, k);
    }
    StackTimeOrdered(steps, |d.time|);
    forall k | 0 <= k < |rows|
      ensures InGrid(d, rows[k]) && Eastward(d, rows[k])
    {
      StackMembers(steps, |d.time|, rows[k]);
      var t :| 0 <= t < |d.time| && rows[k] in steps[t].value;
      var j :| 0 <= j < |steps[t].value| && steps[t].value[j] == rows[k];
      JetsAtRows(d, t, p, scan, j);
    }
  }

  /** The time loop of `do_jscat`, with each step's rows appended to
      `jsidx` (see the as-written `np.vstack` below for what the source
      does instead when a step has no row). */
  method CollectJets(d: GridData, p: ParamMap, scan: Scanner) returns (r: Step)
    requires WellFormed(d) && ScannerInBounds(scan)
    requires |d.level| >= 2 && |d.lat| >= 2
    ensures r == Stack(StepResults(d, p, scan), |d.time|)
  {
    ghost var steps := StepResults(d, p, scan);
    var jsidx: seq<JetIndex> := [];
    var dtidx := 0;
    while dtidx < |d.time|
      invariant 0 <= dtidx <= |d.time|
      invariant Stack(steps, dtidx) == Success(jsidx)
    {
      var jsi := FindJets(d, dtidx, p, scan);
      CollectStep(d, p, scan, dtidx, jsidx);
      if jsi.Failure? {
        return Failure(jsi.error);
      }
      jsidx := jsidx + jsi.value;
      dtidx := dtidx + 1;
    }
    return Success(jsidx);
  }

  /** `StackStep` for the steps of `do_jscat`'s time loop. */
  lemma CollectStep(d: GridData, p: ParamMap, scan: Scanner, n: nat, acc: seq<JetIndex>)
    requires WellFormed(d) && ScannerInBounds(scan) && n < |d.time|
    requires Stack(StepResults(d, p, scan), n) == Success(acc)
    ensures JetsAt(d, n, p, scan).Failure? ==>
              Stack(StepResults(d, p, scan), |d.time|) == Failure(JetsAt(d, n, p, scan).error)
    ensures JetsAt(d, n, p, scan).Success? ==>
              Stack(StepResults(d, p, scan), n + 1) == Success(acc + JetsAt(d, n, p, scan).value)
  {
    StackStep(StepResults(d, p, scan), n, acc);
  }

  /** The two shapes of `np.array(jsidx)` at the end of `find_jets`: a
      (k, 4) integer array when some row was kept, and the one-dimensional
      empty array of shape (0,) when none was. */
  datatype IndexArray = Matrix(rows: seq<JetIndex>) | FlatEmpty

  function ToArray(rows: seq<JetIndex>): (a: IndexArray)
    ensures a.FlatEmpty? <==> rows == []
    ensures a.Matrix? ==> a.rows == rows
  {
    if rows == [] then FlatEmpty else Matrix(rows)
  }

  /** `np.vstack((jsidx, jsi))` with `jsidx` of shape (k, 4): rows of a
      (k', 4) array go below it; the (0,) array is first promoted to shape
      (1, 0), whose column count 0 differs from 4, and the ValueError this
      raises is `None`. */
  function VStack(acc: seq<JetIndex>, a: IndexArray): (r: Option<seq<JetIndex>>)
    ensures a.FlatEmpty? ==> r.None?
    ensures a.Matrix? ==> r == Some(acc + a.rows)
  {
    match a
    case FlatEmpty => None
    case Matrix(rows) => Some(acc + rows)
  }

  datatype CatalogueError = JetFailure(e: JetError) | ShapeMismatch

  /** The time loop as written: `jsidx = np.vstack((jsidx, jsi))` after
      every `find_jets` call.  Whenever it succeeds it agrees with `Stack`. */
  function StackAsWritten(steps: seq<Step>, n: nat): (r: Result<seq<JetIndex>, CatalogueError>)
    requires n <= |steps|
    ensures r.Success? ==> Stack(steps, n) == Success(r.value)
  {
    if n == 0 then Success([])
    else
      match StackAsWritten(steps, n - 1)
      case Failure(e) => Failure(e)
      case Success(acc) =>
        match steps[n - 1]
        case Failure(e) => Failure(JetFailure(e))
        case Success(rows) =>
          match VStack(acc, ToArray(rows))
          case None => Failure(ShapeMismatch)
          case Some(m) => Success(m)
  }

  /** As written, one step at which `find_jets` keeps no row makes the whole
      catalogue fail. */
  lemma {:induction false} QuietStepBreaksCatalogue(steps: seq<Step>, n: nat, t: nat)
    requires n <= |steps| && t < n && steps[t] == Success([])
    ensures StackAsWritten(steps, n).Failure?
  {
    if t < n - 1 {
      QuietStepBreaksCatalogue(steps, n - 1, t);
    }
  }

  /** Without such a step the written loop stacks the same rows as the
      corrected one. */
  lemma {:induction false} AsWrittenWithoutQuietStep(steps: seq<Step>, n: nat)
    requires n <= |steps| && Stack(steps, n).Success?
    requires forall t :: 0 <= t < n ==> steps[t] != Success([])
    ensures StackAsWritten(steps, n) == Success(Stack(steps, n).value)
  {
    if n > 0 {
      AsWrittenWithoutQuietStep(steps, n - 1);
    }
  }

  /** A calm month: one time step, two levels, two latitudes and one
      longitude with no wind anywhere. */
  function CalmGrid(): (d: GridData)
    ensures WellFormed(d) && LevelWindow(d) && |d.time| == 1 && |d.lon| == 1
  {
    var zero2 := [[0.0], [0.0]];
    var f4 := [[zero2, zero2]];
    GridData([DateTime(2017, 1, 1, 0, 0, 0)], [100.0, 200.0], [100.0, 200.0], [0, 1], [0.0, 10.0], [-100.0],
             [16.0, 12.0], [zero2], [zero2], f4, f4, f4, f4)
  }

  /** A scanner that finds no local maximum, as `peak_local_max` does on a
      section whose wind speed stays below `threshold_abs`. */
  function NoPeaks(w: Section, q: ScanParams): (pks: seq<Peak>)
    ensures pks == []
  {
    []
  }

  /** On the calm grid, with `do_jscat`'s own parameters, the written loop
      fails while the corrected one yields an empty catalogue. */
  lemma CalmMonthCounterexample()
    ensures ScannerInBounds(NoPeaks)
    ensures StackAsWritten(StepResults(CalmGrid(), Lm, NoPeaks), 1) == Failure(ShapeMismatch)
    ensures Stack(StepResults(CalmGrid(), Lm, NoPeaks), 1) == Success([])
  {
    LmArguments();
    var d := CalmGrid();
    var q := ScanArguments(EffectiveParams(Lm)).value;
    SectionsPaired(d, 0);
    var wsecs, usecs := SectionsAt(d, d.wspd, 0), SectionsAt(d, d.uwnd, 0);
    assert Candidates(wsecs, usecs, 0, q, NoPeaks) == [];
    assert JetsUpTo(0, wsecs, usecs, q, NoPeaks, 0) == [];
    assert JetsUpTo(0, wsecs, usecs, q, NoPeaks, 1) == [];
    assert StepResults(d, Lm, NoPeaks)[0] == Success([]);
  }

  /** The parameter dictionary `lm` of `do_jscat`; the `peaks_inside_*`
      entries are never read. */
  const Lm: ParamMap := map[
    "num_peaks" := 4.0, "min_distance" := 3.0, "exclude_border" := 0.0, "threshold_abs" := 40.0,
    "peaks_inside_toggle" := 1.0, "peaks_inside_threshold" := 30.0, "peaks_inside_zonal_max" := 0.0]

  /** `lm` is used as given and supplies every scanner argument, with the
      same values as `find_jets`'s defaults. */
  lemma LmArguments()
    ensures EffectiveParams(Lm) == Lm
    ensures ScanArguments(EffectiveParams(Lm)) == Some(ScanParams(3.0, 40.0, 0.0, 4.0))
    ensures ScanArguments(EffectiveParams(Lm)) == ScanArguments(EffectiveParams(map[]))
  {
    assert "num_peaks" in Lm;
    assert Lm != map[];
    DefaultScanArguments();
  }

  /** The columns of `js1`, in the order of `types_str`. */
  const JSLVL: nat := 0
  const JSLAT: nat := 1
  const JSLON: nat := 2
  const JSHT: nat := 3
  const WSPD: nat := 4
  const UWND: nat := 5
  const VWND: nat := 6
  const HGT: nat := 7
  const NCols: nat := 8

  /** `d['ht_std'][idxlvl]` as written: the window-relative level index of
      the row used on the height table of the file's whole level axis. */
  function HeightAsWritten(d: GridData, row: JetIndex): (h: real)
    requires WellFormed(d) && LevelWindow(d) && InGrid(d, row)
    ensures row.lvl < |d.htStd| && h == d.htStd[row.lvl]
  {
    WindowedLevelsFit(d);
    d.htStd[row.lvl]
  }

  /** The standard height of the row's own level: the entry of `ht_std`
      at the file index `levidx[idxlvl]` of that level. */
  function StandardHeight(d: GridData, row: JetIndex): real
    requires WellFormed(d) && LevelWindow(d) && InGrid(d, row)
  {
    d.htStd[d.levIdx[row.lvl]]
  }

  /** When `ht_std` tabulates a height function `h` over the file's levels,
      the corrected lookup gives `h` of the row's own level. */
  lemma StandardHeightOfOwnLevel(d: GridData, row: JetIndex, h: real -> real)
    requires WellFormed(d) && LevelWindow(d) && InGrid(d, row)
    requires forall j :: 0 <= j < |d.fileLevel| ==> d.htStd[j] == h(d.fileLevel[j])
    ensures StandardHeight(d, row) == h(d.level[row.lvl])
  {
  }

  /** As written, once the box leaves out the file's first level, every row
      reads the height of a file level that lies below its own in the
      file's order, a different level when the file's levels are distinct;
      without that shift the lookup is the right one. */
  lemma {:induction false} HeightAsWrittenShifted(d: GridData, row: JetIndex, h: real -> real)
    requires WellFormed(d) && LevelWindow(d) && InGrid(d, row)
    requires forall j :: 0 <= j < |d.fileLevel| ==> d.htStd[j] == h(d.fileLevel[j])
    ensures d.levIdx[0] > 0 ==> row.lvl < d.levIdx[row.lvl] && HeightAsWritten(d, row) == h(d.fileLevel[row.lvl])
    ensures d.levIdx[0] > 0 && (forall i, j :: 0 <= i < j < |d.fileLevel| ==> d.fileLevel[i] != d.fileLevel[j]) ==>
              d.fileLevel[row.lvl] != d.level[row.lvl]
    ensures d.levIdx[row.lvl] == row.lvl ==> HeightAsWritten(d, row) == StandardHeight(d, row)
  {
    IncreasingFromFirst(d.levIdx, row.lvl);
    WindowedLevelsFit(d);
  }

  /** A file with levels 50, 100 and 200 hPa and do_jscat's box of 100..500
      hPa: the level window is `[1, 2]`, and the row at the 100 hPa level
      gets the standard height of 50 hPa as written. */
  lemma ThinnedLevelsCounterexample()
    ensures ValueWindow([50.0, 100.0, 200.0], Range(100.0, 500.0)) == [1, 2]
    ensures var d := LevelGrid(); var row := JetIndex(0, 0, 0, 0);
      WellFormed(d) && LevelWindow(d) && InGrid(d, row) && d.level[0] == 100.0 &&
      HeightAsWritten(d, row) == 20.6 && StandardHeight(d, row) == 16.2
  {
    var axis := [50.0, 100.0, 200.0];
    var r := Range(100.0, 500.0);
    var idx := ValueWindow(axis, r);
    forall i
      ensures i in idx <==> i in [1, 2]
    {
      if i in idx {
        var k :| 0 <= k < |idx| && idx[k] == i;
      }
    }
    IncreasingUnique(idx, [1, 2]);
  }

  /** The grid `get_data` returns for that file: standard heights (km) of
      20.6, 16.2 and 11.8 for 50, 100 and 200 hPa, and sea-level pressure
      at the standard 1013.25 hPa, so `pdiff` is zero. */
  function LevelGrid(): (d: GridData)
    ensures WellFormed(d) && LevelWindow(d) && |d.level| == 2 && d.levIdx[0] > 0
  {
    var zero2 := [[0.0], [0.0]];
    var f4 := [[zero2, zero2]];
    GridData([DateTime(2017, 1, 1, 0, 0, 0)], [100.0, 200.0], [50.0, 100.0, 200.0], [1, 2], [0.0, 10.0], [-100.0],
             [20.6, 16.2, 11.8], [[[StandardPressure], [StandardPressure]]], [zero2], f4, f4, f4, f4)
  }

  /** The value `do_jscat` stores in column `c` of the table row for index
      row `row`: the axis values at the row's level, latitude and longitude
      indices, the 4-D fields at its (time, level, latitude, longitude),
      and the altitude from the standard height of the row's level and the
      pressure difference at its (time, latitude, longitude). */
  function Cell(d: GridData, row: JetIndex, c: nat, addPressureToHeight: (real, real) -> real): real
    requires WellFormed(d) && LevelWindow(d) && InGrid(d, row) && c < NCols
  {
    if c == JSLVL then d.level[row.lvl]
    else if c == JSLAT then d.lat[row.lat]
    else if c == JSLON then d.lon[row.lon]
    else if c == JSHT then addPressureToHeight(StandardHeight(d, row), d.pdiff[row.t][row.lat][row.lon])
    else if c == WSPD then d.wspd[row.t][row.lvl][row.lat][row.lon]
    else if c == UWND then d.uwnd[row.t][row.lvl][row.lat][row.lon]
    else if c == VWND then d.vwnd[row.t][row.lvl][row.lat][row.lon]
    else d.hgt[row.t][row.lvl][row.lat][row.lon]
  }

  /** Every UWND entry of a catalogue is strictly positive. */
  lemma CatalogueEastward(d: GridData, p: ParamMap, scan: Scanner, addPressureToHeight: (real, real) -> real, i: nat)
    requires WellFormed(d) && LevelWindow(d) && ScannerInBounds(scan)
    requires Stack(StepResults(d, p, scan), |d.time|).Success?
    requires i < |Stack(StepResults(d, p, scan), |d.time|).value|
    ensures var row := Stack(StepResults(d, p, scan), |d.time|).value[i];
      InGrid(d, row) && Cell(d, row, UWND, addPressureToHeight) > 0.0
  {
    var row := Stack(StepResults(d, p, scan), |d.time|).value[i];
    CatalogueRows(d, p, scan);
    assert InGrid(d, row) && Eastward(d, row);
    assert Cell(d, row, UWND, addPressureToHeight) == d.uwnd[row.t][row.lvl][row.lat][row.lon];
  }

  /** `js1[:, col] = vals`. */
  method FillColumn(js1: array2<real>, col: nat, vals: seq<real>)
    requires col < js1.Length1 && |vals| == js1.Length0
    modifies js1
    ensures forall i, j :: 0 <= i < js1.Length0 && 0 <= j < js1.Length1 ==>
              js1[i, j] == if j == col then vals[i] else old(js1[i, j])
  {
    var i := 0;
    while i < js1.Length0
      invariant 0 <= i <= js1.Length0
      invariant forall k :: 0 <= k < i ==> js1[k, col] == vals[k]
      invariant forall k, j :: 0 <= k < js1.Length0 && 0 <= j < js1.Length1 && (j != col || k >= i) ==>
                  js1[k, j] == old(js1[k, j])
    {
      js1[i, col] := vals[i];
      i := i + 1;
    }
  }

  /** The table of `do_jscat`: the instant of every row (before its
      formatting as text) and `js1`, one row per index row, each cell
      looked up at that row's own indices. */
  method BuildTable(d: GridData, jsidx: seq<JetIndex>, addPressureToHeight: (real, real) -> real)
    returns (dt: array<DateTime>, js1: array2<real>)
    requires WellFormed(d) && LevelWindow(d) && forall k :: 0 <= k < |jsidx| ==> InGrid(d, jsidx[k])
    ensures fresh(dt) && fresh(js1)
    ensures dt.Length == |jsidx| && js1.Length0 == |jsidx| && js1.Length1 == NCols
    ensures forall i :: 0 <= i < |jsidx| ==> InGrid(d, jsidx[i]) && dt[i] == d.time[jsidx[i].t]
    ensures forall i, c :: 0 <= i < |jsidx| && 0 <= c < NCols ==> js1[i, c] == Cell(d, jsidx[i], c, addPressureToHeight)
  {
    var nrows := |jsidx|;
    js1 := new real[nrows, NCols]((_, _) => 0.0);
    dt := new DateTime[nrows];
    for i := 0 to nrows
      invariant forall k :: 0 <= k < i ==> dt[k] == d.time[jsidx[k].t]
    {
      dt[i] := d.time[jsidx[i].t];
    }
    FillPositions(js1, d, jsidx, addPressureToHeight);
    FillParameters(js1, d, jsidx, addPressureToHeight);
    var pdiff := seq(nrows, i requires 0 <= i < nrows => d.pdiff[jsidx[i].t][jsidx[i].lat][jsidx[i].lon]);
    FillColumn(js1, JSHT, seq(nrows, i requires 0 <= i < nrows => addPressureToHeight(StandardHeight(d, jsidx[i]), pdiff[i])));
  }

  /** The position columns of `do_jscat`'s table: latitude, longitude and
      level at each row's indices.  `addPressureToHeight` only lets the
      contract name the cells through `Cell`; these columns do not depend
      on it. */
  method FillPositions(js1: array2<real>, d: GridData, jsidx: seq<JetIndex>, addPressureToHeight: (real, real) -> real)
    requires WellFormed(d) && LevelWindow(d) && forall k :: 0 <= k < |jsidx| ==> InGrid(d, jsidx[k])
    requires js1.Length0 == |jsidx| && js1.Length1 == NCols
    modifies js1
    ensures forall i, c :: 0 <= i < |jsidx| && 0 <= c < NCols ==>
              js1[i, c] == if c in {JSLAT, JSLON, JSLVL} then Cell(d, jsidx[i], c, addPressureToHeight) else old(js1[i, c])
  {
    var nrows := |jsidx|;
    FillColumn(js1, JSLAT, seq(nrows, i requires 0 <= i < nrows => d.lat[jsidx[i].lat]));
    FillColumn(js1, JSLON, seq(nrows, i requires 0 <= i < nrows => d.lon[jsidx[i].lon]));
    FillColumn(js1, JSLVL, seq(nrows, i requires 0 <= i < nrows => d.level[jsidx[i].lvl]));
  }

  /** The parameter columns of `do_jscat`'s table: wind speed, the two wind
      components and geopotential height at each row's indices.  As for
      `FillPositions`, `addPressureToHeight` is there for `Cell` only. */
  method FillParameters(js1: array2<real>, d: GridData, jsidx: seq<JetIndex>, addPressureToHeight: (real, real) -> real)
    requires WellFormed(d) && LevelWindow(d) && forall k :: 0 <= k < |jsidx| ==> InGrid(d, jsidx[k])
    requires js1.Length0 == |jsidx| && js1.Length1 == NCols
    modifies js1
    ensures forall i, c :: 0 <= i < |jsidx| && 0 <= c < NCols ==>
              js1[i, c] == if c in {WSPD, UWND, VWND, HGT} then Cell(d, jsidx[i], c, addPressureToHeight) else old(js1[i, c])
  {
    var nrows := |jsidx|;
    FillColumn(js1, WSPD, seq(nrows, i requires 0 <= i < nrows => d.wspd[jsidx[i].t][jsidx[i].lvl][jsidx[i].lat][jsidx[i].lon]));
    FillColumn(js1, UWND, seq(nrows, i requires 0 <= i < nrows => d.uwnd[jsidx[i].t][jsidx[i].lvl][jsidx[i].lat][jsidx[i].lon]));
    FillColumn(js1, VWND, seq(nrows, i requires 0 <= i < nrows => d.vwnd[jsidx[i].t][jsidx[i].lvl][jsidx[i].lat][jsidx[i].lon]));
    FillColumn(js1, HGT, seq(nrows, i requires 0 <= i < nrows => d.hgt[jsidx[i].t][jsidx[i].lvl][jsidx[i].lat][jsidx[i].lon]));
  }

  /** The bounding box of `do_jscat` for a period: longitudes -140..-50,
      latitudes 0..80, levels 100..500 hPa. */
  function JetBox(period: Period): (bb: BoundingBox)
    ensures bb.dt == period
    ensures bb.lon == Range(-140.0, -50.0) && bb.lat == Range(0.0, 80.0) && bb.lvl == Range(100.0, 500.0)
  {
    BoundingBox(Range(-140.0, -50.0), Range(0.0, 80.0), Range(100.0, 500.0), period)
  }

  /** `'/'.join([outdir, f"js_{yyyy_mm}.txt"])`. */
  function OutputPath(outdir: string, yyyyMm: string): string {
    JoinPath(outdir, "js_" + yyyyMm + ".txt")
  }

  /** The output path is the directory, `/js_`, the label and `.txt`, so
      the label can be read back from it. */
  lemma OutputPathFields(outdir: string, yyyyMm: string)
    ensures var path := OutputPath(outdir, yyyyMm);
      |path| == |outdir| + |yyyyMm| + 8 &&
      path[..|outdir|] == outdir && path[|outdir|..|outdir| + 4] == "/js_" &&
      path[|outdir| + 4..|path| - 4] == yyyyMm && path[|path| - 4..] == ".txt"
  {
    assert OutputPath(outdir, yyyyMm) == outdir + "/js_" + yyyyMm + ".txt";
  }

  /** Distinct periods are written to distinct files of one directory. */
  lemma OutputPathInjective(outdir: string, a: string, b: string)
    ensures OutputPath(outdir, a) == OutputPath(outdir, b) <==> a == b
  {
    OutputPathFields(outdir, a);
    OutputPathFields(outdir, b);
  }

  /** What `getData` returns for every box `do_jscat` builds: a well-formed
      grid with at least two levels and two latitudes, so that no axis of
      the scan's slices is squeezed away, whose level window is that of the
      box on the file's level axis. */
  ghost predicate GridSource(getData: BoundingBox -> GridData) {
    forall period: Period ::
      var bb := JetBox(period);
      WellFormed(getData(bb)) && LevelWindow(getData(bb)) && |getData(bb).level| >= 2 && |getData(bb).lat| >= 2 &&
      getData(bb).levIdx == ValueWindow(getData(bb).fileLevel, bb.lvl) &&
      getData(bb).pdiff == PressureCorrection(getData(bb).msl)
  }

  /** Some `getData` meets `GridSource`: the grid of the file with levels
      50, 100 and 200 hPa, whatever the period. */
  lemma GridSourceWitness()
    ensures GridSource(_ => LevelGrid())
  {
    ThinnedLevelsCounterexample();
    var d := LevelGrid();
    var pc := PressureCorrection(d.msl);
    assert pc[0][0][0] == 0.0 && pc[0][1][0] == 0.0;
    assert |pc| == 1 && |pc[0]| == 2;
    assert pc[0][0] == [0.0] && pc[0][1] == [0.0];
    assert pc[0] == [[0.0], [0.0]];
    assert pc == [[[0.0], [0.0]]] == d.pdiff;
  }

  /** `do_jscat(yyyy_mm, outdir)`.  `get_data` is the parameter `getData`,
      `metpy.calc.add_pressure_to_height` the parameter
      `addPressureToHeight`; the result names the file the table is
      written to. */
  method DoJscat(yyyyMm: string, outdir: string, getData: BoundingBox -> GridData, scan: Scanner,
                 addPressureToHeight: (real, real) -> real)
    returns (r: Result<string, PeriodError>, dt: array<DateTime>, js1: array2<real>)
    requires ScannerInBounds(scan)
    requires GridSource(getData)
    ensures FindMonths(PyStr(yyyyMm), PyInt(1)).Failure? ==>
              r == Failure(FindMonths(PyStr(yyyyMm), PyInt(1)).error)
    ensures FindMonths(PyStr(yyyyMm), PyInt(1)).Success? ==>
              var d := getData(JetBox(FindMonths(PyStr(yyyyMm), PyInt(1)).value));
              var jsidx := Stack(StepResults(d, Lm, scan), |d.time|);
              r == Success(OutputPath(outdir, yyyyMm)) && jsidx.Success? &&
              dt.Length == |jsidx.value| && js1.Length0 == |jsidx.value| && js1.Length1 == NCols &&
              forall i :: 0 <= i < |jsidx.value| ==>
                InGrid(d, jsidx.value[i]) && Eastward(d, jsidx.value[i]) &&
                dt[i] == d.time[jsidx.value[i].t] &&
                forall c :: 0 <= c < NCols ==> js1[i, c] == Cell(d, jsidx.value[i], c, addPressureToHeight)
  {
    var period := FindMonths(PyStr(yyyyMm), PyInt(1));
    if period.Failure? {
      dt := new DateTime[0];
      js1 := new real[0, NCols];
      return Failure(period.error), dt, js1;
    }
    var bb := JetBox(period.value);
    var d := getData(bb);
    var jsidx := CollectJets(d, Lm, scan);
    LmArguments();
    CatalogueFailure(d, Lm, scan);
    CatalogueRows(d, Lm, scan);
    dt, js1 := BuildTable(d, jsidx.value, addPressureToHeight);
    r := Success(OutputPath(outdir, yyyyMm));
  }
}
