/** The drivers of jscat.py: `run_all`, which catalogues every month of
    2017 and 2018 in order, and `main`, which reads the command line. */
module Driver {
  import opened Wrappers
  import opened Decimal
  import opened Calendar
  import opened Grid
  import opened Jets
  import opened Catalogue

  /** The years `run_all` iterates over, as `['%d' % s for s in
      range(2017, 2019)]` writes them (see `YearsFormatted`). */
  const Years: seq<string> := ["2017", "2018"]

  /** The months `run_all` iterates over, as `['%02d' % s for s in
      range(1, 13)]` writes them (see `MonthsFormatted`). */
  function Months(): seq<string> {
    seq(12, i requires 0 <= i < 12 => [DigitChar((i + 1) / 10), DigitChar((i + 1) % 10)])
  }

  /** The year list is the decimal numerals of 2017 and 2018. */
  lemma YearsFormatted()
    ensures |Years| == 2 && forall i :: 0 <= i < 2 ==> Years[i] == NatToString(2017 + i)
  {
    assert NatToString(2) == "2";
    assert NatToString(20) == "20";
    assert NatToString(201) == "201";
    assert NatToString(2017) == "2017";
    assert NatToString(2018) == "2018";
  }

  /** The month list is the numerals of 1..12, zero-padded to two digits. */
  lemma MonthsFormatted()
    ensures |Months()| == 12 && forall i :: 0 <= i < 12 ==> Months()[i] == ZeroPad(i + 1, 2)
  {
    forall i | 0 <= i < 12
      ensures Months()[i] == ZeroPad(i + 1, 2)
    {
      TwoDigitPad(i + 1);
    }
  }

  /** The number of periods `run_all` processes. */
  const PeriodCount: nat := 24

  /** The `yyyy_mm` label of the `k`-th pass of the nested year/month loop. */
  function PeriodLabel(k: nat): string
    requires k < PeriodCount
  {
    Years[k / 12] + "_" + Months()[k % 12]
  }

  lemma YearField(i: nat)
    requires i < 2
    ensures ZeroPad(2017 + i, 4) == Years[i]
  {
    YearsFormatted();
    FourDigitNumeral(2017 + i);
  }

  lemma MonthField(i: nat)
    requires i < 12
    ensures ZeroPad(i + 1, 2) == Months()[i]
  {
    MonthsFormatted();
  }

  /** The period of the `k`-th pass: the first instants of month
      `k % 12 + 1` of year `2017 + k / 12` and of the month after it. */
  function MonthPeriod(k: nat): Period {
    var y, m := 2017 + k / 12, k % 12 + 1;
    Period(DateTime(y, m, 1, 0, 0, 0),
           if m == 12 then DateTime(y + 1, 1, 1, 0, 0, 0) else DateTime(y, m + 1, 1, 0, 0, 0))
  }

  /** The `k`-th label is the four-digit year `2017 + k / 12`, an
      underscore and the two-digit month `k % 12 + 1`. */
  lemma PeriodLabelFields(k: nat)
    requires k < PeriodCount
    ensures var ts := PeriodLabel(k);
      |ts| == 7 && ts[4] == '_' &&
      AllDigits(ts[..4]) && DigitsValue(ts[..4]) == 2017 + k / 12 &&
      AllDigits(ts[5..]) && DigitsValue(ts[5..]) == k % 12 + 1
  {
    var y, m := Years[k / 12], Months()[k % 12];
    YearField(k / 12);
    MonthField(k % 12);
    FourDigitNumeral(2017 + k / 12);
    TwoDigitPad(k % 12 + 1);
    assert PeriodLabel(k)[..4] == y && PeriodLabel(k)[5..] == m;
  }

  /** Written out with `%04d` and `%02d`, the `k`-th label is the
      zero-padded year, an underscore and the zero-padded month. */
  lemma PeriodLabelPadded(k: nat)
    requires k < PeriodCount
    ensures HasPeriod(2017 + k / 12, k % 12 + 1)
    ensures PeriodLabel(k) == ZeroPad(2017 + k / 12, 4) + "_" + ZeroPad(k % 12 + 1, 2)
  {
    YearField(k / 12);
    MonthField(k % 12);
  }

  /** `find_months` reads the `k`-th label as the period of its month. */
  lemma PeriodLabelParses(k: nat)
    requires k < PeriodCount
    ensures FindMonths(PyStr(PeriodLabel(k)), PyInt(1)) == Success(MonthPeriod(k))
  {
    PeriodLabelPadded(k);
    PaddedLabelParses(PeriodLabel(k), 2017 + k / 12, k % 12 + 1, MonthPeriod(k));
  }

  /** A zero-padded `YYYY_MM` label of a month with a successor names the
      period `period` of that month. */
  lemma PaddedLabelParses(ts: string, y: int, m: int, period: Period)
    requires HasPeriod(y, m) && ts == ZeroPad(y, 4) + "_" + ZeroPad(m, 2)
    requires period == Period(DateTime(y, m, 1, 0, 0, 0),
                              if m == 12 then DateTime(y + 1, 1, 1, 0, 0, 0) else DateTime(y, m + 1, 1, 0, 0, 0))
    ensures FindMonths(PyStr(ts), PyInt(1)) == Success(period)
  {
    ScanYearMonthComplete(ts, y, m);
    FindMonthsOfLabel(ts, PyInt(1), y, m);
  }

  lemma MonthPeriodsContiguous(k: nat)
    ensures MonthPeriod(k).next == MonthPeriod(k + 1).first
  {
    if k % 12 == 11 {
      assert (k + 1) / 12 == k / 12 + 1 && (k + 1) % 12 == 0;
    } else {
      assert (k + 1) / 12 == k / 12 && (k + 1) % 12 == k % 12 + 1;
    }
  }

  /** The label of the `yi`-th year and `mi`-th month is that of pass
      `12 * yi + mi`. */
  lemma PeriodLabelAt(yi: nat, mi: nat)
    requires yi < 2 && mi < 12
    ensures 12 * yi + mi < PeriodCount
    ensures PeriodLabel(12 * yi + mi) == Years[yi] + "_" + Months()[mi]
  {
    var k := 12 * yi + mi;
    assert k / 12 == yi && k % 12 == mi;
  }

  /** The first and the last labels are `2017_01` and `2018_12`. */
  lemma PeriodLabelRange()
    ensures PeriodLabel(0) == "2017_01" && PeriodLabel(PeriodCount - 1) == "2018_12"
  {
  }

  /** Each period of `run_all` ends where the next one starts, so the 24
      periods leave no gap from January 2017 to January 2019. */
  lemma PeriodsContiguous(k: nat)
    requires k + 1 < PeriodCount
    ensures FindMonths(PyStr(PeriodLabel(k)), PyInt(1)).Success?
    ensures FindMonths(PyStr(PeriodLabel(k + 1)), PyInt(1)).Success?
    ensures FindMonths(PyStr(PeriodLabel(k)), PyInt(1)).value.next ==
            FindMonths(PyStr(PeriodLabel(k + 1)), PyInt(1)).value.first
  {
    PeriodLabelParses(k);
    PeriodLabelParses(k + 1);
    MonthPeriodsContiguous(k);
  }

  /** The time window includes both instants of its period, so the instant
      at which one period ends and the next begins lies in the window of
      both boxes: a time step at that instant is catalogued by both passes
      whenever the file read holds it. */
  lemma SharedBoundary(k: nat, axis: seq<DateTime>, i: nat)
    requires k + 1 < PeriodCount
    requires i < |axis| && axis[i] == MonthPeriod(k + 1).first
    ensures FindMonths(PyStr(PeriodLabel(k)), PyInt(1)).Success?
    ensures FindMonths(PyStr(PeriodLabel(k + 1)), PyInt(1)) == Success(MonthPeriod(k + 1))
    ensures i in TimeWindow(axis, FindMonths(PyStr(PeriodLabel(k)), PyInt(1)).value)
    ensures i in TimeWindow(axis, FindMonths(PyStr(PeriodLabel(k + 1)), PyInt(1)).value)
  {
    PeriodsContiguous(k);
    PeriodLabelParses(k + 1);
    FindMonthsOrdered(PyStr(PeriodLabel(k)), PyInt(1));
    FindMonthsOrdered(PyStr(PeriodLabel(k + 1)), PyInt(1));
  }

  /** Distinct passes write distinct output files. */
  lemma OutputPathsDistinct(outdir: string, j: nat, k: nat)
    requires j < PeriodCount && k < PeriodCount && j != k
    ensures OutputPath(outdir, PeriodLabel(j)) != OutputPath(outdir, PeriodLabel(k))
  {
    PeriodLabelFields(j);
    PeriodLabelFields(k);
    assert j == 12 * (j / 12) + j % 12 && k == 12 * (k / 12) + k % 12;
    assert PeriodLabel(j)[..4] != PeriodLabel(k)[..4] || PeriodLabel(j)[5..] != PeriodLabel(k)[5..];
    OutputPathInjective(outdir, PeriodLabel(j), PeriodLabel(k));
  }

  /** The files the first `n` passes of `run_all` write, in order. */
  function OutputPaths(outdir: string, n: nat): seq<string>
    requires n <= PeriodCount
  {
    if n == 0 then [] else OutputPaths(outdir, n - 1) + [OutputPath(outdir, PeriodLabel(n - 1))]
  }

  lemma {:induction false} OutputPathsAt(outdir: string, n: nat)
    requires n <= PeriodCount
    ensures |OutputPaths(outdir, n)| == n
    ensures forall k :: 0 <= k < n ==> OutputPaths(outdir, n)[k] == OutputPath(outdir, PeriodLabel(k))
  {
    if n > 0 {
      var prev, last := OutputPaths(outdir, n - 1), OutputPath(outdir, PeriodLabel(n - 1));
      assert OutputPaths(outdir, n) == prev + [last];
      OutputPathsAt(outdir, n - 1);
      forall k | 0 <= k < n - 1
        ensures OutputPaths(outdir, n)[k] == prev[k]
      {
      }
    }
  }

  /** One pass of `run_all`: `do_jscat` on the `k`-th label, which always
      reads as a period, so the pass writes its table. */
  method RunPeriod(k: nat, yyyyMm: string, outdir: string, getData: BoundingBox -> GridData, scan: Scanner,
                   addPressureToHeight: (real, real) -> real)
    returns (path: string)
    requires k < PeriodCount && yyyyMm == PeriodLabel(k)
    requires ScannerInBounds(scan)
    requires GridSource(getData)
    ensures path == OutputPath(outdir, yyyyMm)
  {
    PeriodLabelParses(k);
    var r, _, _ := DoJscat(yyyyMm, outdir, getData, scan, addPressureToHeight);
    path := r.value;
  }

  /** The inner loop of `run_all` for the `yi`-th year: one pass per
      month, each appending the file it writes. */
  method RunYear(yi: nat, written: seq<string>, outdir: string, getData: BoundingBox -> GridData, scan: Scanner,
                 addPressureToHeight: (real, real) -> real)
    returns (written': seq<string>)
    requires yi < |Years|
    requires |written| == 12 * yi && written == OutputPaths(outdir, |written|)
    requires ScannerInBounds(scan)
    requires GridSource(getData)
    ensures |written'| == 12 * (yi + 1) && written' == OutputPaths(outdir, |written'|)
  {
    var months := Months();
    written' := written;
    for mi := 0 to |months|
      invariant |written'| == 12 * yi + mi && written' == OutputPaths(outdir, |written'|)
    {
      var yyyyMm := Years[yi] + "_" + months[mi];
      PeriodLabelAt(yi, mi);
      var path := RunPeriod(12 * yi + mi, yyyyMm, outdir, getData, scan, addPressureToHeight);
      written' := written' + [path];
    }
  }

  /** `run_all(outdir)`: `do_jscat` for every year and, within it, every
      month, year-major; the result lists the files written, in order. */
  method RunAll(outdir: string, getData: BoundingBox -> GridData, scan: Scanner,
                addPressureToHeight: (real, real) -> real)
    returns (written: seq<string>)
    requires ScannerInBounds(scan)
    requires GridSource(getData)
    ensures |written| == PeriodCount
    ensures forall k :: 0 <= k < PeriodCount ==> written[k] == OutputPath(outdir, PeriodLabel(k))
  {
    written := [];
    for yi := 0 to |Years|
      invariant |written| == 12 * yi && written == OutputPaths(outdir, |written|)
    {
      written := RunYear(yi, written, outdir, getData, scan, addPressureToHeight);
    }
    OutputPathsAt(outdir, PeriodCount);
  }

  /** What `main` does: catalogue one period into a directory, or all the
      periods of `run_all`. */
  datatype Command = One(yyyyMm: string, outdir: string) | Every(outdir: string)

  /** `main`'s reading of `sys.argv`: with three entries the period and the
      directory are the arguments, with two the directory is `.`, otherwise
      every period is catalogued into `./data`. */
  function ParseArgs(argv: seq<string>): (c: Command)
    ensures c.One? <==> |argv| == 2 || |argv| == 3
    ensures c.One? ==> c.yyyyMm == argv[1]
    ensures |argv| == 3 ==> c.outdir == argv[2]
    ensures |argv| == 2 ==> c.outdir == "."
    ensures c.Every? ==> c.outdir == "./data"
  {
    if |argv| == 3 then One(argv[1], argv[2])
    else if |argv| == 2 then One(argv[1], ".")
    else Every("./data")
  }

  /** `main()`: the files written, or the error `find_months` raises for a
      period given on the command line that it cannot read. */
  method RunMain(argv: seq<string>, getData: BoundingBox -> GridData, scan: Scanner,
                 addPressureToHeight: (real, real) -> real)
    returns (r: Result<seq<string>, PeriodError>)
    requires ScannerInBounds(scan)
    requires GridSource(getData)
    ensures ParseArgs(argv).Every? ==>
              r.Success? && |r.value| == PeriodCount &&
              forall k :: 0 <= k < PeriodCount ==> r.value[k] == OutputPath("./data", PeriodLabel(k))
    ensures ParseArgs(argv).One? ==>
              var cmd := ParseArgs(argv);
              match FindMonths(PyStr(cmd.yyyyMm), PyInt(1))
              case Failure(e) => r == Failure(e)
              case Success(_) => r == Success([OutputPath(cmd.outdir, cmd.yyyyMm)])
  {
    var cmd := ParseArgs(argv);
    if cmd.Every? {
      var written := RunAll(cmd.outdir, getData, scan, addPressureToHeight);
      return Success(written);
    }
    var path, _, _ := DoJscat(cmd.yyyyMm, cmd.outdir, getData, scan, addPressureToHeight);
    match path
    case Failure(e) => return Failure(e);
    case Success(p) => return Success([p]);
  }
}
