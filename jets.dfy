/** Jet-core index extraction of jsutil.py (`find_jets`): for one time
    index, every longitude's (level x latitude) wind-speed section is handed
    to the local-maximum scanner, and each returned candidate at which the
    eastward wind is strictly positive becomes a row
    `[dtidx, lvlidx, latidx, lonidx]`. */
module Jets {
  import opened Wrappers
  import opened Grid

  /** A row `[dtidx, lvlidx, latidx, lonidx]` of `jsidx`. */
  datatype JetIndex = JetIndex(t: nat, lvl: nat, lat: nat, lon: nat)

  /** A `(lvl, lat)` coordinate pair returned by the scanner. */
  datatype Peak = Peak(lvl: int, lat: int)

  /** A (level x latitude) section of a 4-D field, `f[dtidx, :, :, lonidx]`. */
  type Section = seq<seq<real>>

  /** The keyword arguments `find_jets` passes to `peak_local_max`. */
  datatype ScanParams = ScanParams(minDistance: real, thresholdAbs: real, excludeBorder: real, numPeaks: real)

  /** `skimage.feature.peak_local_max` on a section with given arguments. It
      is foreign code, so the model receives it as a parameter. */
  type Scanner = (Section, ScanParams) -> seq<Peak>

  predicate InSection(pk: Peak, w: Section) {
    0 <= pk.lvl < |w| && 0 <= pk.lat < |w[pk.lvl]|
  }

  /** All the model assumes of the scanner: every pair it returns indexes
      the section it was given. */
  ghost predicate ScannerInBounds(scan: Scanner) {
    forall w: Section, q: ScanParams, k :: 0 <= k < |scan(w, q)| ==> InSection(scan(w, q)[k], w)
  }

  /** The parameter dictionary `p`; the model keeps its numeric values. */
  type ParamMap = map<string, real>

  /** The dictionary `find_jets` substitutes for an empty `p`. */
  const DefaultParams: ParamMap :=
    map["num_peaks" := 4.0, "min_distance" := 3.0, "exclude_border" := 0.0, "threshold_abs" := 40.0]

  /** `if not bool(p): p = {...defaults...}`. */
  function EffectiveParams(p: ParamMap): (r: ParamMap)
    ensures |p| == 0 ==> r == DefaultParams
    ensures |p| != 0 ==> r == p
  {
    if |p| == 0 then DefaultParams else p
  }

  predicate HasScanKeys(p: ParamMap) {
    "min_distance" in p && "threshold_abs" in p && "exclude_border" in p && "num_peaks" in p
  }

  /** `p['min_distance']`, `p['threshold_abs']`, `p['exclude_border']`,
      `p['num_peaks']`; a missing key is the KeyError `None`. Other keys
      are never read. */
  function ScanArguments(p: ParamMap): (r: Option<ScanParams>)
    ensures r.Some? <==> HasScanKeys(p)
    ensures r.Some? ==> r.value.minDistance == p["min_distance"] && r.value.thresholdAbs == p["threshold_abs"] &&
                        r.value.excludeBorder == p["exclude_border"] && r.value.numPeaks == p["num_peaks"]
  {
    if HasScanKeys(p)
    then Some(ScanParams(p["min_distance"], p["threshold_abs"], p["exclude_border"], p["num_peaks"]))
    else None
  }

  /** With an empty map the scanner gets min_distance 3, threshold_abs 40,
      exclude_border 0 and num_peaks 4. */
  lemma DefaultScanArguments()
    ensures ScanArguments(EffectiveParams(map[])) == Some(ScanParams(3.0, 40.0, 0.0, 4.0))
  {
    assert HasScanKeys(DefaultParams);
  }

  /** `f[t, :, :, x]`: entry `[z][y]` is `f[t][z][y][x]`. */
  function SectionAt(f: Field4, t: nat, x: nat): (w: Section)
    requires t < |f|
    requires forall z, y :: 0 <= z < |f[t]| && 0 <= y < |f[t][z]| ==> x < |f[t][z][y]|
    ensures |w| == |f[t]|
    ensures forall z :: 0 <= z < |w| ==> |w[z]| == |f[t][z]|
    ensures forall z, y :: 0 <= z < |w| && 0 <= y < |w[z]| ==> w[z][y] == f[t][z][y][x]
  {
    seq(|f[t]|, z requires 0 <= z < |f[t]| =>
      seq(|f[t][z]|, y requires 0 <= y < |f[t][z]| => f[t][z][y][x]))
  }

  /** The sections of one time step, one per longitude: `f[t, :, :, x]`
      for every `x` of the grid's longitude axis. */
  function SectionsAt(d: GridData, f: Field4, t: nat): (ws: seq<Section>)
    requires WellFormed(d) && HasShape4(f, |d.time|, |d.level|, |d.lat|, |d.lon|) && t < |d.time|
    ensures |ws| == |d.lon|
    ensures forall x :: 0 <= x < |ws| ==> HasShape2(ws[x], |d.level|, |d.lat|)
  {
    assert forall z, y :: 0 <= z < |f[t]| && 0 <= y < |f[t][z]| ==> |f[t][z][y]| == |d.lon|;
    seq(|d.lon|, x requires 0 <= x < |d.lon| => SectionAt(f, t, x))
  }

  /** Entry `[x][z][y]` of the sections is `f[t][z][y][x]`. */
  lemma SectionsAtValues(d: GridData, f: Field4, t: nat, x: nat, z: nat, y: nat)
    requires WellFormed(d) && HasShape4(f, |d.time|, |d.level|, |d.lat|, |d.lon|) && t < |d.time|
    requires x < |d.lon| && z < |d.level| && y < |d.lat|
    ensures SectionsAt(d, f, t)[x][z][y] == f[t][z][y][x]
  {
    assert forall z, y :: 0 <= z < |f[t]| && 0 <= y < |f[t][z]| ==> |f[t][z][y]| == |d.lon|;
    assert SectionsAt(d, f, t)[x] == SectionAt(f, t, x);
  }

  /** The wind-speed and eastward-wind sections of a time step pair up. */
  lemma SectionsPaired(d: GridData, t: nat)
    requires WellFormed(d) && t < |d.time|
    ensures Paired(SectionsAt(d, d.wspd, t), SectionsAt(d, d.uwnd, t))
  {
  }

  predicate SameShape(w: Section, u: Section) {
    |w| == |u| && forall z :: 0 <= z < |w| ==> |w[z]| == |u[z]|
  }

  /** The section lists of one time step that `find_jets` works on: the
      wind-speed sections it scans and the eastward-wind sections it tests,
      of matching shapes, one of each per longitude. */
  predicate Paired(wsecs: seq<Section>, usecs: seq<Section>) {
    |wsecs| == |usecs| && forall x :: 0 <= x < |wsecs| ==> SameShape(wsecs[x], usecs[x])
  }

  /** The scanner's candidates for longitude `x` lie in both of its sections. */
  function Candidates(wsecs: seq<Section>, usecs: seq<Section>, x: nat, q: ScanParams, scan: Scanner): (c: seq<Peak>)
    requires ScannerInBounds(scan) && Paired(wsecs, usecs) && x < |wsecs|
    ensures forall k :: 0 <= k < |c| ==> InSection(c[k], wsecs[x]) && InSection(c[k], usecs[x])
  {
    scan(wsecs[x], q)
  }

  /** The rows the inner loop appends for one longitude `x`: the candidates,
      in scanner order, where the eastward-wind section `usec` is strictly
      positive. */
  function Accepted(t: nat, x: nat, usec: Section, cands: seq<Peak>): (rows: seq<JetIndex>)
    requires forall k :: 0 <= k < |cands| ==> InSection(cands[k], usec)
    ensures |rows| <= |cands|
    ensures forall k :: 0 <= k < |rows| ==>
              rows[k].t == t && rows[k].lon == x &&
              InSection(Peak(rows[k].lvl, rows[k].lat), usec) && usec[rows[k].lvl][rows[k].lat] > 0.0
    decreases |cands|
  {
    if cands == [] then []
    else
      var n := |cands| - 1;
      var pk := cands[n];
      assert InSection(pk, usec);
      Accepted(t, x, usec, cands[..n]) +
        (if usec[pk.lvl][pk.lat] > 0.0 then [JetIndex(t, pk.lvl, pk.lat, x)] else [])
  }

  /** The rows for longitudes `0 .. n-1` at time `t`, grouped by ascending
      longitude; every row indexes its longitude's sections and has strictly
      positive eastward wind. */
  function JetsUpTo(t: nat, wsecs: seq<Section>, usecs: seq<Section>, q: ScanParams, scan: Scanner, n: nat): (rows: seq<JetIndex>)
    requires ScannerInBounds(scan) && Paired(wsecs, usecs) && n <= |wsecs|
    ensures forall k :: 0 <= k < |rows| ==>
              rows[k].t == t && rows[k].lon < n &&
              InSection(Peak(rows[k].lvl, rows[k].lat), usecs[rows[k].lon]) &&
              usecs[rows[k].lon][rows[k].lvl][rows[k].lat] > 0.0
    ensures forall i, j :: 0 <= i <= j < |rows| ==> rows[i].lon <= rows[j].lon
  {
    if n == 0 then []
    else
      var x := n - 1;
      JetsUpTo(t, wsecs, usecs, q, scan, x) + Accepted(t, x, usecs[x], Candidates(wsecs, usecs, x, q, scan))
  }

  lemma JetsUpToStep(t: nat, wsecs: seq<Section>, usecs: seq<Section>, q: ScanParams, scan: Scanner, n: nat)
    requires ScannerInBounds(scan) && Paired(wsecs, usecs) && n < |wsecs|
    ensures JetsUpTo(t, wsecs, usecs, q, scan, n + 1) ==
              JetsUpTo(t, wsecs, usecs, q, scan, n) + Accepted(t, n, usecs[n], Candidates(wsecs, usecs, n, q, scan))
  {
  }

  /** What makes `find_jets` raise: an IndexError for a time index past the
      grid, and a KeyError for a scanner argument missing from `p`. */
  datatype JetError = TimeIndexOutOfRange | MissingParameter

  /** The result of `find_jets(d, dtidx, p)`.  The time index and the
      parameter keys are first used inside the longitude loop, so a grid
      with no longitude yields no rows and no error. */
  function JetsAt(d: GridData, t: nat, p: ParamMap, scan: Scanner): (r: Result<seq<JetIndex>, JetError>)
    requires WellFormed(d) && ScannerInBounds(scan)
    ensures r.Failure? <==> |d.lon| > 0 && (t >= |d.time| || !HasScanKeys(EffectiveParams(p)))
    ensures r.Failure? ==> r.error == if t >= |d.time| then TimeIndexOutOfRange else MissingParameter
  {
    if |d.lon| == 0 then Success([])
    else if t >= |d.time| then Failure(TimeIndexOutOfRange)
    else
      match ScanArguments(EffectiveParams(p))
      case None => Failure(MissingParameter)
      case Some(q) =>
        SectionsPaired(d, t);
        Success(JetsUpTo(t, SectionsAt(d, d.wspd, t), SectionsAt(d, d.uwnd, t), q, scan, |d.lon|))
  }

  lemma JetsAtValue(d: GridData, t: nat, p: ParamMap, scan: Scanner)
    requires WellFormed(d) && ScannerInBounds(scan)
    requires |d.lon| > 0 && t < |d.time| && HasScanKeys(EffectiveParams(p))
    ensures Paired(SectionsAt(d, d.wspd, t), SectionsAt(d, d.uwnd, t))
    ensures JetsAt(d, t, p, scan) ==
              Success(JetsUpTo(t, SectionsAt(d, d.wspd, t), SectionsAt(d, d.uwnd, t),
                               ScanArguments(EffectiveParams(p)).value, scan, |d.lon|))
  {
    SectionsPaired(d, t);
  }

  /** The inner loop of `find_jets` for one longitude: candidates with
      strictly positive eastward wind, in scanner order. */
  method KeepEastward(dtidx: nat, lonidx: nat, usec: Section, yx: seq<Peak>) returns (rows: seq<JetIndex>)
    requires forall k :: 0 <= k < |yx| ==> InSection(yx[k], usec)
    ensures rows == Accepted(dtidx, lonidx, usec, yx)
  {
    rows := [];
    var k := 0;
    while k < |yx|
      invariant 0 <= k <= |yx|
      invariant rows == Accepted(dtidx, lonidx, usec, yx[..k])
    {
      var peak := yx[k];
      assert yx[..k + 1][..k] == yx[..k];
      if usec[peak.lvl][peak.lat] > 0.0 {
        rows := rows + [JetIndex(dtidx, peak.lvl, peak.lat, lonidx)];
      }
      k := k + 1;
    }
    assert yx[..|yx|] == yx;
  }

  /** The outcome of one pass of the longitude loop at `x`: the
      IndexError of a time index past the grid, the KeyError of a missing
      scanner argument, or the rows kept among the scanner's candidates. */
  function Pass(d: GridData, t: nat, params: ParamMap, scan: Scanner, x: nat): (r: Result<seq<JetIndex>, JetError>)
    requires WellFormed(d) && ScannerInBounds(scan) && x < |d.lon|
    ensures r.Failure? <==> t >= |d.time| || ScanArguments(params).None?
    ensures r.Failure? ==> r.error == if t >= |d.time| then TimeIndexOutOfRange else MissingParameter
  {
    if t >= |d.time| then Failure(TimeIndexOutOfRange)
    else
      match ScanArguments(params)
      case None => Failure(MissingParameter)
      case Some(q) =>
        SectionsPaired(d, t);
        Success(Accepted(t, x, SectionsAt(d, d.uwnd, t)[x], Candidates(SectionsAt(d, d.wspd, t), SectionsAt(d, d.uwnd, t), x, q, scan)))
  }

  /** One pass of the longitude loop of `find_jets`: the two sections at
      `lonidx`, the scanner call with the four arguments read from
      `params`, and the rows kept. */
  method ScanLongitude(d: GridData, dtidx: nat, lonidx: nat, params: ParamMap, scan: Scanner)
    returns (r: Result<seq<JetIndex>, JetError>)
    requires WellFormed(d) && ScannerInBounds(scan) && lonidx < |d.lon|
    requires |d.level| >= 2 && |d.lat| >= 2
    ensures r == Pass(d, dtidx, params, scan, lonidx)
  {
    if dtidx >= |d.time| {
      return Failure(TimeIndexOutOfRange);
    }
    var wsecs, usecs := SectionsAt(d, d.wspd, dtidx), SectionsAt(d, d.uwnd, dtidx);
    SectionsPaired(d, dtidx);
    var wsec := wsecs[lonidx];
    var usec := usecs[lonidx];
    var args := ScanArguments(params);
    if args.None? {
      return Failure(MissingParameter);
    }
    var yx := scan(wsec, args.value);
    assert yx == Candidates(wsecs, usecs, lonidx, args.value, scan);
    var kept := KeepEastward(dtidx, lonidx, usec, yx);
    return Success(kept);
  }

  /** `jsidx` after the first `n` passes of the longitude loop, or the error
      that ended it. */
  function Passes(d: GridData, t: nat, params: ParamMap, scan: Scanner, n: nat): (r: Result<seq<JetIndex>, JetError>)
    requires WellFormed(d) && ScannerInBounds(scan) && n <= |d.lon|
  {
    if n == 0 then Success([])
    else
      match Passes(d, t, params, scan, n - 1)
      case Failure(e) => Failure(e)
      case Success(acc) =>
        match Pass(d, t, params, scan, n - 1)
        case Failure(e) => Failure(e)
        case Success(rows) => Success(acc + rows)
  }

  /** The loop's passes give the result of `find_jets`: the first pass
      raises when the time index or an argument is bad, and otherwise each
      pass appends its longitude's rows. */
  lemma {:induction false} PassesAreJets(d: GridData, t: nat, params: ParamMap, scan: Scanner, n: nat)
    requires WellFormed(d) && ScannerInBounds(scan) && n <= |d.lon|
    ensures n > 0 && t >= |d.time| ==> Passes(d, t, params, scan, n) == Failure(TimeIndexOutOfRange)
    ensures n > 0 && t < |d.time| && ScanArguments(params).None? ==> Passes(d, t, params, scan, n) == Failure(MissingParameter)
    ensures (n == 0 || (t < |d.time| && ScanArguments(params).Some?)) ==>
              Passes(d, t, params, scan, n).Success? &&
              (n > 0 ==> Paired(SectionsAt(d, d.wspd, t), SectionsAt(d, d.uwnd, t)) &&
                         Passes(d, t, params, scan, n).value ==
                           JetsUpTo(t, SectionsAt(d, d.wspd, t), SectionsAt(d, d.uwnd, t), ScanArguments(params).value, scan, n))
  {
    if n > 0 {
      PassesAreJets(d, t, params, scan, n - 1);
      if t < |d.time| && ScanArguments(params).Some? {
        SectionsPaired(d, t);
      }
    }
  }

  /** The longitude loop of `find_jets`: every longitude's pass in turn,
      its rows appended to `jsidx`, the first error ending the loop. */
  method ScanLongitudes(d: GridData, dtidx: nat, params: ParamMap, scan: Scanner) returns (r: Result<seq<JetIndex>, JetError>)
    requires WellFormed(d) && ScannerInBounds(scan)
    requires |d.level| >= 2 && |d.lat| >= 2
    ensures r == Passes(d, dtidx, params, scan, |d.lon|)
  {
    var jsidx: seq<JetIndex> := [];
    var lonidx := 0;
    while lonidx < |d.lon|
      invariant 0 <= lonidx <= |d.lon|
      invariant Passes(d, dtidx, params, scan, lonidx) == Success(jsidx)
    {
      var kept := ScanLongitude(d, dtidx, lonidx, params, scan);
      PassesStep(d, dtidx, params, scan, lonidx, jsidx);
      if kept.Failure? {
        return Failure(kept.error);
      }
      jsidx := jsidx + kept.value;
      lonidx := lonidx + 1;
    }
    return Success(jsidx);
  }

  /** One more pass either ends the loop with its error, which then is the
      loop's result, or appends its rows. */
  lemma PassesStep(d: GridData, t: nat, params: ParamMap, scan: Scanner, n: nat, acc: seq<JetIndex>)
    requires WellFormed(d) && ScannerInBounds(scan) && n < |d.lon|
    requires Passes(d, t, params, scan, n) == Success(acc)
    ensures Pass(d, t, params, scan, n).Failure? ==> Passes(d, t, params, scan, |d.lon|) == Failure(Pass(d, t, params, scan, n).error)
    ensures Pass(d, t, params, scan, n).Success? ==> Passes(d, t, params, scan, n + 1) == Success(acc + Pass(d, t, params, scan, n).value)
  {
    if Pass(d, t, params, scan, n).Failure? {
      PassesKeepFailure(d, t, params, scan, n + 1, |d.lon|);
    }
  }

  /** Once a pass has failed, later passes change nothing. */
  lemma {:induction false} PassesKeepFailure(d: GridData, t: nat, params: ParamMap, scan: Scanner, n: nat, m: nat)
    requires WellFormed(d) && ScannerInBounds(scan) && n <= m <= |d.lon|
    requires Passes(d, t, params, scan, n).Failure?
    ensures Passes(d, t, params, scan, m) == Passes(d, t, params, scan, n)
  {
    if n < m {
      PassesKeepFailure(d, t, params, scan, n, m - 1);
    }
  }

  /** `find_jets(d, dtidx, p)`: the default parameters, then the
      longitude loop. */
  method FindJets(d: GridData, dtidx: nat, p: ParamMap, scan: Scanner) returns (r: Result<seq<JetIndex>, JetError>)
    requires WellFormed(d) && ScannerInBounds(scan)
    requires |d.level| >= 2 && |d.lat| >= 2
    ensures r == JetsAt(d, dtidx, p, scan)
  {
    var params := EffectiveParams(p);
    r := ScanLongitudes(d, dtidx, params, scan);
    PassesAreJets(d, dtidx, params, scan, |d.lon|);
    if |d.lon| > 0 && dtidx < |d.time| && HasScanKeys(params) {
      JetsAtValue(d, dtidx, p, scan);
    }
  }

  /** `a` is `b` with some elements left out, order kept. */
  predicate Subsequence<T(==)>(a: seq<T>, b: seq<T>)
    decreases |b|
  {
    if |a| == 0 then true
    else if |b| == 0 then false
    else (a[|a| - 1] == b[|b| - 1] && Subsequence(a[..|a| - 1], b[..|b| - 1])) ||
         Subsequence(a, b[..|b| - 1])
  }

  /** The `(lvl, lat)` pairs of some rows. */
  function PeaksOf(rows: seq<JetIndex>): (pks: seq<Peak>)
    ensures |pks| == |rows| && forall k :: 0 <= k < |rows| ==> pks[k] == Peak(rows[k].lvl, rows[k].lat)
  {
    seq(|rows|, k requires 0 <= k < |rows| => Peak(rows[k].lvl, rows[k].lat))
  }

  /** The rows kept for one longitude are a subsequence of that section's
      candidates: nothing is invented and the scanner's order is kept. */
  lemma {:induction false} AcceptedSubsequence(t: nat, x: nat, usec: Section, cands: seq<Peak>)
    requires forall k :: 0 <= k < |cands| ==> InSection(cands[k], usec)
    ensures Subsequence(PeaksOf(Accepted(t, x, usec, cands)), cands)
  {
    if cands != [] {
      var n := |cands| - 1;
      var prev := Accepted(t, x, usec, cands[..n]);
      AcceptedSubsequence(t, x, usec, cands[..n]);
      var rows := Accepted(t, x, usec, cands);
      var pk := cands[n];
      if usec[pk.lvl][pk.lat] > 0.0 {
        assert rows == prev + [JetIndex(t, pk.lvl, pk.lat, x)];
        assert PeaksOf(rows)[..|rows| - 1] == PeaksOf(prev);
      } else {
        assert rows == prev;
        SubsequenceOfLonger(PeaksOf(rows), cands);
      }
    }
  }

  lemma {:induction false} SubsequenceOfLonger<T>(a: seq<T>, b: seq<T>)
    requires |b| > 0 && Subsequence(a, b[..|b| - 1])
    ensures Subsequence(a, b)
  {
  }

  /** A candidate becomes a row for its longitude exactly when the eastward
      wind there is strictly positive. */
  lemma {:induction false} AcceptedMembers(t: nat, x: nat, usec: Section, cands: seq<Peak>, row: JetIndex)
    requires forall k :: 0 <= k < |cands| ==> InSection(cands[k], usec)
    ensures row in Accepted(t, x, usec, cands) <==>
              row.t == t && row.lon == x && Peak(row.lvl, row.lat) in cands &&
              usec[row.lvl][row.lat] > 0.0
  {
    if cands != [] {
      var n := |cands| - 1;
      AcceptedMembers(t, x, usec, cands[..n], row);
      assert Peak(row.lvl, row.lat) in cands <==>
             Peak(row.lvl, row.lat) in cands[..n] || Peak(row.lvl, row.lat) == cands[n] by {
        assert cands == cands[..n] + [cands[n]];
      }
    }
  }

  function TimeOf(row: JetIndex): nat { row.t }
  function LonOf(row: JetIndex): nat { row.lon }

  /** The rows whose `key` column equals `v`, in order. */
  function Having(rows: seq<JetIndex>, key: JetIndex -> nat, v: nat): (r: seq<JetIndex>)
    ensures forall k :: 0 <= k < |r| ==> key(r[k]) == v && r[k] in rows
  {
    if rows == [] then []
    else
      var n := |rows| - 1;
      Having(rows[..n], key, v) + (if key(rows[n]) == v then [rows[n]] else [])
  }

  lemma {:induction false} HavingAppend(a: seq<JetIndex>, b: seq<JetIndex>, key: JetIndex -> nat, v: nat)
    ensures Having(a + b, key, v) == Having(a, key, v) + Having(b, key, v)
  {
    if b == [] {
      assert a + b == a;
    } else {
      var n := |b| - 1;
      assert (a + b)[..|a + b| - 1] == a + b[..n];
      assert (a + b)[|a + b| - 1] == b[n];
      HavingAppend(a, b[..n], key, v);
    }
  }

  lemma {:induction false} HavingAll(rows: seq<JetIndex>, key: JetIndex -> nat, v: nat)
    requires forall k :: 0 <= k < |rows| ==> key(rows[k]) == v
    ensures Having(rows, key, v) == rows
  {
    if rows != [] {
      HavingAll(rows[..|rows| - 1], key, v);
    }
  }

  lemma {:induction false} HavingNone(rows: seq<JetIndex>, key: JetIndex -> nat, v: nat)
    requires forall k :: 0 <= k < |rows| ==> key(rows[k]) != v
    ensures Having(rows, key, v) == []
  {
    if rows != [] {
      HavingNone(rows[..|rows| - 1], key, v);
    }
  }

  /** Picking out longitude `x` from the rows of a time step gives exactly
      the rows the inner loop kept for `x`, in scanner order (none when `x`
      is not a grid longitude). */
  lemma {:induction false} RowsOfLongitude(t: nat, wsecs: seq<Section>, usecs: seq<Section>, q: ScanParams, scan: Scanner, n: nat, x: nat)
    requires ScannerInBounds(scan) && Paired(wsecs, usecs) && n <= |wsecs|
    ensures x < n ==>
              Having(JetsUpTo(t, wsecs, usecs, q, scan, n), LonOf, x) ==
                Accepted(t, x, usecs[x], Candidates(wsecs, usecs, x, q, scan))
    ensures x >= n ==> Having(JetsUpTo(t, wsecs, usecs, q, scan, n), LonOf, x) == []
  {
    if n > 0 {
      var y := n - 1;
      var prev := JetsUpTo(t, wsecs, usecs, q, scan, y);
      var here := Accepted(t, y, usecs[y], Candidates(wsecs, usecs, y, q, scan));
      assert JetsUpTo(t, wsecs, usecs, q, scan, n) == prev + here;
      HavingAppend(prev, here, LonOf, x);
      RowsOfLongitude(t, wsecs, usecs, q, scan, y, x);
      if x == y {
        HavingAll(here, LonOf, x);
        HavingNone(prev, LonOf, x);
        assert Having(prev, LonOf, x) + Having(here, LonOf, x) == here;
      } else {
        HavingNone(here, LonOf, x);
        assert Having(prev, LonOf, x) + Having(here, LonOf, x) == Having(prev, LonOf, x);
      }
    }
  }

  /** A row is in the result of a time step exactly when its longitude is
      one of the first `n`, its `(lvl, lat)` pair is one of that longitude's
      candidates, and the eastward wind there is strictly positive. */
  lemma {:induction false} JetsMembers(t: nat, wsecs: seq<Section>, usecs: seq<Section>, q: ScanParams, scan: Scanner, n: nat, row: JetIndex)
    requires ScannerInBounds(scan) && Paired(wsecs, usecs) && n <= |wsecs|
    ensures row in JetsUpTo(t, wsecs, usecs, q, scan, n) <==>
              row.t == t && row.lon < n && Peak(row.lvl, row.lat) in Candidates(wsecs, usecs, row.lon, q, scan) &&
              usecs[row.lon][row.lvl][row.lat] > 0.0
  {
    if n > 0 {
      var y := n - 1;
      var before, here := JetsUpTo(t, wsecs, usecs, q, scan, y), Accepted(t, y, usecs[y], Candidates(wsecs, usecs, y, q, scan));
      assert JetsUpTo(t, wsecs, usecs, q, scan, n) == before + here;
      assert row in before + here <==> row in before || row in here;
      JetsMembers(t, wsecs, usecs, q, scan, y, row);
      AcceptedMembers(t, y, usecs[y], Candidates(wsecs, usecs, y, q, scan), row);
    }
  }

  /** On the grid itself: a row of `find_jets(d, t, p)` lies inside the grid
      and has strictly positive eastward wind `uwnd[t, lvl, lat, lon]`. */
  lemma JetsAtRows(d: GridData, t: nat, p: ParamMap, scan: Scanner, k: nat)
    requires WellFormed(d) && ScannerInBounds(scan) && JetsAt(d, t, p, scan).Success?
    requires k < |JetsAt(d, t, p, scan).value|
    ensures var row := JetsAt(d, t, p, scan).value[k];
      row.t == t < |d.time| && row.lvl < |d.level| && row.lat < |d.lat| && row.lon < |d.lon| &&
      d.uwnd[t][row.lvl][row.lat][row.lon] > 0.0
  {
    var row := JetsAt(d, t, p, scan).value[k];
    SectionsAtValues(d, d.uwnd, t, row.lon, row.lvl, row.lat);
  }
}
