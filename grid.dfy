/** The gridded data of jsutil.py's `get_data`: the per-axis index windows
    selected by a bounding box, the names of the per-quantity source files,
    the pressure-difference field, and the shape of the dictionary `d` the
    rest of the program reads.  Reading the files themselves is not part
    of this model. */
module Grid {
  import opened Decimal
  import opened Calendar

  type Field3 = seq<seq<seq<real>>>
  type Field4 = seq<seq<seq<seq<real>>>>

  predicate HasShape2(f: seq<seq<real>>, ny: nat, nx: nat) {
    |f| == ny && forall y :: 0 <= y < ny ==> |f[y]| == nx
  }

  predicate HasShape3(f: Field3, nt: nat, ny: nat, nx: nat) {
    |f| == nt && forall t :: 0 <= t < nt ==> HasShape2(f[t], ny, nx)
  }

  predicate HasShape4(f: Field4, nt: nat, nz: nat, ny: nat, nx: nat) {
    |f| == nt && forall t :: 0 <= t < nt ==> HasShape3(f[t], nz, ny, nx)
  }

  /** The dictionary `d` built at the end of `get_data`: the four windowed
      axes (time, level, latitude, longitude), the standard-atmosphere
      height `ht_std`, the sea-level pressure and its difference from
      1013.25 hPa per (time, latitude, longitude), and the 4-D fields per
      (time, level, latitude, longitude).  `ht_std` is computed from the
      file's whole level axis, not from the windowed one, so that axis
      (`fileLevel`) and the level window `levidx` (`levIdx`) are kept
      beside the dictionary's entries. */
  datatype GridData = GridData(
    time: seq<DateTime>, level: seq<real>, fileLevel: seq<real>, levIdx: seq<nat>, lat: seq<real>, lon: seq<real>,
    htStd: seq<real>, msl: Field3, pdiff: Field3,
    hgt: Field4, uwnd: Field4, vwnd: Field4, wspd: Field4)

  /** All 4-D fields share the shape of the four windowed axes; the 3-D
      fields share (time, latitude, longitude). */
  predicate WellFormed(d: GridData) {
    var nt, nz, ny, nx := |d.time|, |d.level|, |d.lat|, |d.lon|;
    HasShape3(d.msl, nt, ny, nx) && HasShape3(d.pdiff, nt, ny, nx) &&
    HasShape4(d.hgt, nt, nz, ny, nx) && HasShape4(d.uwnd, nt, nz, ny, nx) &&
    HasShape4(d.vwnd, nt, nz, ny, nx) && HasShape4(d.wspd, nt, nz, ny, nx)
  }

  /** The windowed level axis is `level[levidx]` for an ascending `levidx`
      into the file's level axis, and the height table has one entry per
      level of the file. */
  predicate LevelWindow(d: GridData) {
    |d.levIdx| == |d.level| && Increasing(d.levIdx) &&
    (forall k :: 0 <= k < |d.level| ==> d.levIdx[k] < |d.fileLevel| && d.level[k] == d.fileLevel[d.levIdx[k]]) &&
    |d.htStd| == |d.fileLevel|
  }

  /** An inclusive range `[lo, hi]` of the bounding box. */
  datatype Range = Range(lo: real, hi: real)

  /** The bounding box `BB`: longitude, latitude and level ranges, and the
      two instants `BB['dt']` returned by `find_months`. */
  datatype BoundingBox = BoundingBox(lon: Range, lat: Range, lvl: Range, dt: Period)

  predicate InRange(x: real, r: Range) {
    r.lo <= x <= r.hi
  }

  predicate InPeriod(t: DateTime, p: Period) {
    NotAfter(p.first, t) && NotAfter(t, p.next)
  }

  predicate Increasing(s: seq<nat>) {
    forall i, j :: 0 <= i < j < |s| ==> s[i] < s[j]
  }

  /** `np.logical_and(...).nonzero()` on one axis: the indices whose
      coordinate satisfies `keep`, in ascending order. */
  function Selected<T>(axis: seq<T>, keep: T -> bool): (r: seq<nat>)
    ensures Increasing(r)
    ensures forall k :: 0 <= k < |r| ==> r[k] < |axis| && keep(axis[r[k]])
    ensures forall i :: 0 <= i < |axis| && keep(axis[i]) ==> i in r
  {
    if |axis| == 0 then []
    else
      var n := |axis| - 1;
      var prev := Selected(axis[..n], keep);
      assert forall k :: 0 <= k < |prev| ==> axis[..n][prev[k]] == axis[prev[k]];
      if keep(axis[n]) then prev + [n] else prev
  }

  /** The window of a numeric axis (latitude, longitude or level): exactly
      the indices whose value lies in the inclusive range, ascending. */
  function ValueWindow(axis: seq<real>, r: Range): (idx: seq<nat>)
    ensures Increasing(idx)
    ensures forall k :: 0 <= k < |idx| ==> idx[k] < |axis|
    ensures forall i :: 0 <= i < |axis| ==> (i in idx <==> InRange(axis[i], r))
  {
    Selected(axis, x => InRange(x, r))
  }

  /** The window of the time axis: the instants from `BB['dt'][0]` up to and
      including `BB['dt'][1]`, ascending. */
  function TimeWindow(axis: seq<DateTime>, p: Period): (idx: seq<nat>)
    ensures Increasing(idx)
    ensures forall k :: 0 <= k < |idx| ==> idx[k] < |axis|
    ensures forall i :: 0 <= i < |axis| ==> (i in idx <==> InPeriod(axis[i], p))
  {
    Selected(axis, t => InPeriod(t, p))
  }

  /** An ascending index list climbs by at least one per position. */
  lemma {:induction false} IncreasingFromFirst(s: seq<nat>, k: nat)
    requires Increasing(s) && k < |s|
    ensures s[0] + k <= s[k]
  {
    if k > 0 {
      IncreasingFromFirst(s, k - 1);
    }
  }

  /** The windowed level axis is no longer than the file's, so every
      window-relative level index is also an index of `ht_std`. */
  lemma WindowedLevelsFit(d: GridData)
    requires LevelWindow(d)
    ensures |d.level| <= |d.htStd|
  {
    if |d.level| > 0 {
      IncreasingFromFirst(d.levIdx, |d.level| - 1);
    }
  }

  /** A non-empty window starts past index 0 exactly when the axis's first
      value lies outside the range. */
  lemma WindowShifted(axis: seq<real>, r: Range)
    requires |ValueWindow(axis, r)| > 0
    ensures ValueWindow(axis, r)[0] > 0 <==> !InRange(axis[0], r)
  {
  }

  /** The last element of an ascending list is its largest. */
  lemma IncreasingLast(s: seq<nat>, i: nat)
    requires Increasing(s) && i in s
    ensures i <= s[|s| - 1]
  {
  }

  /** Dropping the last element of an ascending list keeps the members
      below it, in order. */
  lemma IncreasingDropLast(s: seq<nat>, i: nat)
    requires Increasing(s) && |s| > 0
    ensures Increasing(s[..|s| - 1])
    ensures i in s[..|s| - 1] <==> i in s && i < s[|s| - 1]
  {
    assert s == s[..|s| - 1] + [s[|s| - 1]];
  }

  /** Two ascending index lists with the same members are the same list. */
  lemma {:induction false} IncreasingUnique(a: seq<nat>, b: seq<nat>)
    requires Increasing(a) && Increasing(b)
    requires forall i :: i in a <==> i in b
    ensures a == b
  {
    if |b| > 0 {
      assert b[0] in a;
    }
    if |a| > 0 {
      assert a[0] in b;
      var x, y := a[|a| - 1], b[|b| - 1];
      IncreasingLast(b, x);
      IncreasingLast(a, y);
      var a', b' := a[..|a| - 1], b[..|b| - 1];
      forall i
        ensures i in a' <==> i in b'
      {
        IncreasingDropLast(a, i);
        IncreasingDropLast(b, i);
      }
      IncreasingDropLast(a, 0);
      IncreasingDropLast(b, 0);
      IncreasingUnique(a', b');
      assert a == a' + [x] && b == b' + [y];
    }
  }

  /** The window is the only ascending index list that holds exactly the
      in-range indices. */
  lemma SelectedUnique<T>(axis: seq<T>, keep: T -> bool, r: seq<nat>)
    requires Increasing(r)
    requires forall k :: 0 <= k < |r| ==> r[k] < |axis| && keep(axis[r[k]])
    requires forall i :: 0 <= i < |axis| && keep(axis[i]) ==> i in r
    ensures r == Selected(axis, keep)
  {
    var s := Selected(axis, keep);
    forall i
      ensures i in r <==> i in s
    {
      if i in r {
        var k :| 0 <= k < |r| && r[k] == i;
      }
      if i in s {
        var k :| 0 <= k < |s| && s[k] == i;
      }
    }
    IncreasingUnique(r, s);
  }

  /** `x[idx]` for a 1-D array `x` and an index array `idx`. */
  function Gather(axis: seq<real>, idx: seq<nat>): (r: seq<real>)
    requires forall k :: 0 <= k < |idx| ==> idx[k] < |axis|
    ensures |r| == |idx| && forall k :: 0 <= k < |idx| ==> r[k] == axis[idx[k]]
  {
    seq(|idx|, k requires 0 <= k < |idx| => axis[idx[k]])
  }

  /** The axis `get_data` returns, `lat[latidx]`, holds the in-range values
      of the source axis, in source order, and nothing else. */
  lemma {:induction false} WindowedAxis(axis: seq<real>, r: Range)
    ensures var w := Gather(axis, ValueWindow(axis, r));
      (forall k :: 0 <= k < |w| ==> InRange(w[k], r)) &&
      (forall i :: 0 <= i < |axis| && InRange(axis[i], r) ==> axis[i] in w) &&
      (forall k, l :: 0 <= k < l < |w| ==> ValueWindow(axis, r)[k] < ValueWindow(axis, r)[l])
  {
    var idx := ValueWindow(axis, r);
    var w := Gather(axis, idx);
    forall i | 0 <= i < |axis| && InRange(axis[i], r)
      ensures axis[i] in w
    {
      var k :| 0 <= k < |idx| && idx[k] == i;
      assert w[k] == axis[i];
    }
  }

  /** The reference sea-level pressure `p0`, in hPa. */
  const StandardPressure: real := 1013.25

  /** `pdiff = msl - p0`, elementwise over (time, latitude, longitude). */
  function PressureCorrection(msl: Field3): (pdiff: Field3)
    ensures |pdiff| == |msl|
    ensures forall t :: 0 <= t < |msl| ==> |pdiff[t]| == |msl[t]|
    ensures forall t, y :: 0 <= t < |msl| && 0 <= y < |msl[t]| ==> |pdiff[t][y]| == |msl[t][y]|
    ensures forall t, y, x :: 0 <= t < |msl| && 0 <= y < |msl[t]| && 0 <= x < |msl[t][y]| ==>
              pdiff[t][y][x] + StandardPressure == msl[t][y][x]
  {
    seq(|msl|, t requires 0 <= t < |msl| =>
      seq(|msl[t]|, y requires 0 <= y < |msl[t]| =>
        seq(|msl[t][y]|, x requires 0 <= x < |msl[t][y]| => msl[t][y][x] - StandardPressure)))
  }

  /** The quantities `get_data` reads, one source file each, in the order
      of its `params` dictionary. */
  const Params: seq<string> := ["hgt", "uwnd", "vwnd", "msl"]

  /** `'/'.join([dir, name])`. */
  function JoinPath(dir: string, name: string): string {
    dir + "/" + name
  }

  /** `'%s.%04d.nc' % (param, year)`: one file per quantity and year. */
  function SourceFileName(param: string, year: nat): string {
    param + "." + ZeroPad(year, 4) + ".nc"
  }

  /** The path of the source file of `param` for `year` under `indir`. */
  function SourceName(indir: string, param: string, year: nat): string {
    JoinPath(indir, SourceFileName(param, year))
  }

  /** A source name carries the year as a four-digit field that reads back
      as that year, between the quantity and the `.nc` suffix, so names
      for distinct years differ. */
  lemma SourceNameYear(indir: string, param: string, year: nat)
    requires year <= MaxYear
    ensures var name, k := SourceName(indir, param, year), |indir| + |param| + 2;
      |name| == k + 7 && name[..|indir|] == indir && name[|indir|] == '/' &&
      name[|indir| + 1..k - 1] == param && name[k - 1] == '.' &&
      AllDigits(name[k..k + 4]) && DigitsValue(name[k..k + 4]) == year &&
      name[k + 4..] == ".nc"
  {
    NumeralLength(year, 4);
    var field := ZeroPad(year, 4);
    var name, k := SourceName(indir, param, year), |indir| + |param| + 2;
    assert name == indir + "/" + param + "." + field + ".nc";
    assert name[k..k + 4] == field;
    assert name[k + 4..] == ".nc";
  }

  lemma SourceNameInjective(indir: string, param: string, y1: nat, y2: nat)
    requires y1 <= MaxYear && y2 <= MaxYear
    requires SourceName(indir, param, y1) == SourceName(indir, param, y2)
    ensures y1 == y2
  {
    SourceNameYear(indir, param, y1);
    SourceNameYear(indir, param, y2);
  }

  /** The files the parameter loop of `get_data` opens, in loop order: one
      per quantity, all named after the year of the box's start instant,
      whatever its end instant is. */
  method SourceFiles(indir: string, bb: BoundingBox) returns (files: seq<string>)
    requires ValidDateTime(bb.dt.first)
    ensures |files| == |Params|
    ensures forall k :: 0 <= k < |Params| ==> files[k] == SourceName(indir, Params[k], bb.dt.first.year)
  {
    var dt1 := bb.dt.first;
    files := [];
    var i := 0;
    while i < |Params|
      invariant 0 <= i <= |Params| && |files| == i
      invariant forall k :: 0 <= k < i ==> files[k] == SourceName(indir, Params[k], dt1.year)
    {
      var fn := SourceFileName(Params[i], dt1.year);
      var ifn := JoinPath(indir, fn);
      files := files + [ifn];
      i := i + 1;
    }
  }
}
