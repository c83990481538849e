# Jet-stream catalogue (jscat) — a Dafny model

The jscat tool reads ERA5 reanalysis fields inside a bounding box:
geopotential and the two wind components on (time, level, latitude,
longitude) axes, and sea-level pressure on (time, latitude, longitude)
axes. From them it derives wind speed, height from geopotential and the standard
height of each level. For every time step and every
longitude it finds the local maxima of wind speed in the (level x
latitude) section. It keeps those maxima where the eastward wind is
strictly positive. It then writes one table row per kept maximum, with the
date, the level, latitude and longitude, the altitude, the wind components
and the geopotential height, to `js_<yyyy_mm>.txt`.

This project models the integer, index and string logic of that pipeline and proves its properties:

- `Calendar` covers `find_months` and the `'%Y_%m'` parse of `scanf_datetime` (jsutil.py). It models the month arithmetic, the December rollover and every error path.
- `Grid` covers the parts of `get_data` (jsutil.py) that are not file reading:
  - the per-axis index windows of the bounding box;
  - the per-quantity source file names, built from the start instant's year only;
  - the pressure difference `msl - 1013.25`;
  - the shape of the returned grid dictionary.
- `Jets` covers `find_jets` (jsutil.py):
  - the default parameters and the scanner arguments read from them;
  - one (level x latitude) section per longitude;
  - the positive-eastward-wind filter;
  - the order and membership of the rows `[dtidx, lvlidx, latidx, lonidx]`.
- `Catalogue` covers `do_jscat` (jscat.py):
  - the period and bounding box;
  - the time loop that stacks every step's rows into `jsidx`;
  - the `dt` and `js1` table filled column by column at each row's own indices;
  - the output path.
- `Driver` covers `run_all`'s 24 periods and `main`'s reading of the command line (jscat.py).
- `Decimal` holds the decimal numerals behind `'%d'`, `'%02d'` and `'%04d'`. `Wrappers` holds `Option` and `Result`.

Boundaries of the model:

- `skimage.feature.peak_local_max` is foreign code. It is a parameter `scan`. The only assumption about it is that every pair it returns indexes the section it was given (`Jets.ScannerInBounds`).
- `get_data` reads netCDF files. In `do_jscat` it is a parameter `getData` that returns a well-formed grid (`Catalogue.GridSource`).
- `metpy.calc.add_pressure_to_height` is a parameter `addPressureToHeight`.
- Index columns are `nat`. String labels are `seq<char>`. Field values are `real`.

Three points of behaviour:

- Nothing in `get_data` checks for an empty window, so `Grid.ValueWindow` and `Grid.TimeWindow` may be empty.
- `find_jets` promises an n x 4 array of indices (jsutil.py:85-86), so a time step with no qualifying peak is meant to contribute no rows. `do_jscat`'s `np.vstack` makes such a step fail instead (see Findings). The catalogue the rest of the model uses is the corrected one, which appends the step's rows.
- `get_data` computes `ht_std` over the file's whole level axis but returns the windowed `level[levidx]`, and `do_jscat` reads `ht_std` at the window-relative level index (see Findings). The table the rest of the model uses reads the standard height of the row's own level.

## Model

| member | source | states |
|---|---|---|
| Decimal.NatToString | jscat.py:154 | `'%d' % n` is a digit string of the right value, with no leading zero |
| Decimal.ZeroPad | jsutil.py:164 | `'%04d'`/`'%02d'`: a digit string with the value `n`, as long as the width or, when the numeral is longer, as long as the numeral |
| Calendar.MakeDate | jsutil.py:51 | for arguments that fit a C `int`, `datetime(y, m, d)` exists exactly for years 1..9999, months 1..12 and days within the month; otherwise it is the ValueError `None` |
| Calendar.MonthFieldLength | jsutil.py:54 | the `%m` directive consumes one or two digits whose value is 1..12, or nothing matches |
| Calendar.ScanYearMonth | jsutil.py:20-33 | an accepted `'%Y_%m'` string has 6 or 7 characters: four year digits, `_` and the month digits. The result is midnight on the first of that month and a valid datetime; any ValueError is `None` |
| Calendar.ScanYearMonthSound | jsutil.py:24-33 | every accepted string is the zero-padded year, `_` and the month in two digits or, below 10, in one |
| Calendar.ScanYearMonthComplete | jsutil.py:24-33 | every such string with year 1..9999 and month 1..12 is accepted and read as that month's first instant |
| Calendar.ScanYearMonthExact | jsutil.py:24-33 | both directions: the parse yields month `m` of year `y` if and only if the string has one of those two forms and `y`, `m` are in range |
| Calendar.FindMonths | jsutil.py:35-68 | both results are month starts; the second is the next month of the same year, or January of the next year after December. Integer arguments succeed exactly when both months exist; otherwise the error is the OverflowError when either argument does not fit a C `int`, and the ValueError when both do. A string refused by the parse is the AttributeError. A string that parses succeeds exactly when its month has a following month in the calendar, and is otherwise the ValueError. Any other argument type is the UnboundLocalError |
| Calendar.FindMonthsOrdered | jsutil.py:57-68 | the period's first instant is strictly before its second |
| Calendar.FindMonthsOfLabel | jsutil.py:53-68 | a label parsed as month `m` of year `y` gives exactly the period from that month's start to the next month's start |
| Calendar.BadMonthLabelFails | jsutil.py:53-57 | a label with two-digit month 00 or 13..99 is refused by the parse, and `find_months` fails instead of returning a period |
| Grid.Selected | jsutil.py:177-183 | `nonzero()` of a mask: strictly ascending indices of the axis, each satisfying the mask, and every satisfying index included |
| Grid.ValueWindow | jsutil.py:178-183 | an index is in the window if and only if its coordinate lies in the inclusive range; the window is ascending |
| Grid.TimeWindow | jsutil.py:177 | an index is in the time window if and only if its instant lies between the two instants of the box, inclusive; ascending |
| Grid.WindowedLevelsFit | jsutil.py:182-183 | the windowed level axis is no longer than the file's, on which `ht_std` is computed |
| Grid.WindowShifted | jsutil.py:182-183 | a non-empty level window starts past index 0 exactly when the file's first level is outside the box |
| Grid.SelectedUnique | jsutil.py:177-183 | the window is the only ascending index list with exactly those members |
| Grid.WindowedAxis | jsutil.py:215-217 | the returned axis holds only in-range values, holds every in-range value, and keeps the source order |
| Grid.Gather | jsutil.py:214-217 | `x[idx]`: one entry per index, entry `k` being `x[idx[k]]` |
| Grid.PressureCorrection | jsutil.py:207-209 | `pdiff` has the shape of `msl`, and `pdiff[t][y][x] + 1013.25 == msl[t][y][x]` at every index |
| Grid.SourceNameYear | jsutil.py:164-166 | a source name is `indir`, `/`, the quantity, `.`, a four-digit field whose value is the year, and `.nc` |
| Grid.SourceNameInjective | jsutil.py:164-166 | names for distinct years differ |
| Grid.SourceName | jsutil.py:164-166 | the path `indir/param.%04d.nc` of a quantity's file for a year; its form and read-back are stated by `Grid.SourceNameYear` |
| Grid.SourceFiles | jsutil.py:160-166 | the parameter loop opens four files, one per quantity, in order; all use the start instant's year, so no file name depends on the end instant |
| Jets.EffectiveParams | jsutil.py:90-94 | an empty map is replaced by the defaults; a non-empty map is used unchanged |
| Jets.ScanArguments | jsutil.py:106-111 | the four scanner arguments are the map's values for its keys; a missing key is the KeyError |
| Jets.DefaultScanArguments | jsutil.py:90-94 | with an empty map the scanner gets min_distance 3, threshold_abs 40, exclude_border 0 and num_peaks 4 |
| Jets.SectionAt | jsutil.py:101-102 | `f[t, :, :, x]` has one row per level and one entry per latitude, and entry `[z][y]` is `f[t][z][y][x]` |
| Jets.SectionsAt | jsutil.py:101-102 | one (level x latitude) section per longitude of the grid |
| Jets.SectionsAtValues | jsutil.py:101-102 | entry `[x][z][y]` of a time step's sections is the field at `(t, z, y, x)` |
| Jets.SectionsPaired | jsutil.py:101-102 | a time step's wind-speed and eastward-wind sections have matching shapes |
| Jets.Candidates | jsutil.py:106-111 | the scanner's candidates index both sections of their longitude |
| Jets.Accepted | jsutil.py:122-128 | the rows kept for one longitude carry that time and longitude index, lie in the section and have strictly positive eastward wind |
| Jets.KeepEastward | jsutil.py:122-128 | the inner loop over the candidates appends exactly the rows `Accepted` describes |
| Jets.AcceptedSubsequence | jsutil.py:122-128 | a longitude's rows are a subsequence of its candidates: none invented, scanner order kept |
| Jets.AcceptedMembers | jsutil.py:122-128 | both directions: a row is kept if and only if it is a candidate of its longitude with strictly positive eastward wind |
| Jets.JetsUpTo | jsutil.py:96-128 | the rows of the first `n` longitudes carry the time index, lie in their sections, have positive eastward wind, and are grouped by ascending longitude |
| Jets.JetsUpToStep | jsutil.py:99-128 | one more longitude appends exactly that longitude's kept rows |
| Jets.RowsOfLongitude | jsutil.py:99-128 | picking out longitude `x` from a time step's rows gives exactly that longitude's kept rows, in scanner order |
| Jets.JetsMembers | jsutil.py:99-128 | both directions: a row belongs to a time step's result if and only if its longitude is scanned and its pair is a candidate there with positive eastward wind |
| Jets.JetsAt | jsutil.py:70-130 | `find_jets` fails exactly when there is a longitude to scan and the time index is past the grid (IndexError) or a scanner argument is missing (KeyError) |
| Jets.JetsAtValue | jsutil.py:96-130 | with a longitude, a valid time index and all keys, the result is the rows of every longitude of that step |
| Jets.JetsAtRows | jsutil.py:122-128 | each row of a successful result is inside the grid, and `uwnd` at its own four indices is strictly positive |
| Jets.Pass | jsutil.py:99-128 | one pass of the longitude loop fails exactly when the time index is past the grid (IndexError) or a scanner argument is missing (KeyError), with that error |
| Jets.ScanLongitude | jsutil.py:99-128 | the imperative pass computes exactly `Pass`: the IndexError, the KeyError, or that longitude's kept rows |
| Jets.PassesStep | jsutil.py:99-128 | one more pass either ends the loop with its own error, which is then the loop's result, or appends its rows |
| Jets.Passes | jsutil.py:99-128 | `jsidx` after the first `n` passes of the longitude loop: each pass's rows appended in longitude order, or the error of the first failing pass; `Jets.PassesAreJets` ties it to `find_jets` |
| Jets.PassesAreJets | jsutil.py:96-130 | the loop's passes raise the IndexError or the KeyError on the first pass, and otherwise give exactly the rows of every longitude scanned so far |
| Jets.ScanLongitudes | jsutil.py:96-128 | the imperative longitude loop computes exactly the folded passes, stopping at the first error |
| Jets.FindJets | jsutil.py:70-130 | the imperative nested loop computes exactly `JetsAt`, error cases included |
| Catalogue.StepResults | jscat.py:73-74 | one `find_jets` result per time index of `d['dt']` |
| Catalogue.Stack | jscat.py:70-75 | the stacked rows exist exactly when every step so far succeeded; otherwise the error is that of a failing step |
| Catalogue.StackKeepsFailure | jscat.py:73-75 | the first failing step ends the loop; later steps change nothing |
| Catalogue.StackMembers | jscat.py:70-75 | both directions: a row is stacked if and only if it is a row of one of the steps |
| Catalogue.StackTimeOrdered | jscat.py:70-75 | column 0 of `jsidx` never decreases and stays below the number of steps |
| Catalogue.RowsOfTime | jscat.py:70-75 | picking out time index `t` gives exactly step `t`'s rows, in order |
| Catalogue.CatalogueFailure | jscat.py:70-75 | on a grid, the time loop fails exactly when there is a time step, a longitude and a missing scanner argument; the error is then the KeyError |
| Catalogue.CatalogueRows | jscat.py:70-75 | on a grid, every stacked row lies in the grid and has positive eastward wind, and the rows are in time order |
| Catalogue.StackStep | jscat.py:70-75 | one more time step either ends the loop with its own error, which is then the loop's result, or stacks its rows below the others |
| Catalogue.CollectJets | jscat.py:70-75 | the time loop (corrected to append each step's rows) computes exactly the stacked result |
| Catalogue.ToArray | jsutil.py:130 | `np.array(jsidx)` is the one-dimensional empty array exactly when no row was kept |
| Catalogue.VStack | jscat.py:75 | `np.vstack` appends a (k, 4) array's rows and fails on the (0,) array |
| Catalogue.StackAsWritten | jscat.py:70-75 | the time loop as written; whenever it succeeds it agrees with `Stack` |
| Catalogue.QuietStepBreaksCatalogue | jscat.py:73-75 | as written, a single step that keeps no row makes the whole catalogue fail |
| Catalogue.AsWrittenWithoutQuietStep | jscat.py:73-75 | without such a step the loop as written stacks the same rows as the corrected one |
| Catalogue.CalmMonthCounterexample | jscat.py:73-75 | on a windless one-step grid with `lm`, the loop as written fails, while the corrected one gives an empty catalogue |
| Catalogue.LmArguments | jscat.py:57-64 | `lm` is used as given and supplies the scanner arguments 3, 40, 0, 4 (the defaults); its `peaks_inside_*` entries are never read |
| Catalogue.FillColumn | jscat.py:98-112 | a column assignment `js1[:, col] = vals` sets that column and leaves every other cell unchanged |
| Catalogue.FillPositions | jscat.py:97-100 | the LAT, LON and LVL columns hold the cells of each row's own indices; every other cell is unchanged |
| Catalogue.FillParameters | jscat.py:102-106 | the WSPD, UWND, VWND and HGT columns hold the fields at each row's `(t, lvl, lat, lon)`; every other cell is unchanged |
| Catalogue.BuildTable | jscat.py:81-112 | the table has one row per index row. Its date is the row's own time instant. LVL/LAT/LON are the axis values at the row's indices. WSPD/UWND/VWND/HGT are read at its `(t, lvl, lat, lon)`. JSHT combines the standard height of the row's own level (the corrected lookup) with `pdiff` at `(t, lat, lon)` |
| Catalogue.HeightAsWritten | jscat.py:111 | `d['ht_std'][idxlvl]` as written is always in range of `ht_std`, and is its entry at the window-relative level index |
| Catalogue.StandardHeightOfOwnLevel | jscat.py:110-112 | when `ht_std` tabulates a height function over the file's levels, the corrected lookup gives that function of the row's own level |
| Catalogue.StandardHeight | jscat.py:110-111 | the corrected JSHT lookup: the standard height of the file level the row's window-relative level stands for, `ht_std[levidx[lvl]]`; `Catalogue.StandardHeightOfOwnLevel` proves it is the height of the row's own level |
| Catalogue.Cell | jscat.py:98-112 | the value of each `js1` column at a row: the LAT/LON/LVL axis values at its indices, the WSPD/UWND/VWND/HGT fields at its `(t, lvl, lat, lon)`, and JSHT from the corrected height and `pdiff` at `(t, lat, lon)`; `Catalogue.BuildTable` fills the table with it |
| Catalogue.HeightAsWrittenShifted | jscat.py:111 | as written, once the level window starts past the file's first level, every row reads the height of a file level before its own, a different level when the file's levels are distinct; without a shift at the row the lookup agrees with the corrected one |
| Catalogue.ThinnedLevelsCounterexample | jscat.py:111 | for file levels 50, 100, 200 hPa and the box 100..500 hPa the window is `[1, 2]`, and the 100 hPa row gets the 50 hPa height 20.6 instead of 16.2 |
| Catalogue.CatalogueEastward | jscat.py:104 | every catalogued UWND value is strictly positive |
| Catalogue.JetBox | jscat.py:43-48 | the box spans longitudes -140..-50, latitudes 0..80 and levels 100..500, over the period from `find_months` |
| Catalogue.OutputPathFields | jscat.py:140-141 | the output path is `outdir`, `/js_`, the label and `.txt` |
| Catalogue.OutputPath | jscat.py:140-141 | `'/'.join([outdir, f"js_{yyyy_mm}.txt"])`; its fields are stated by `Catalogue.OutputPathFields` |
| Catalogue.GridSourceWitness | jsutil.py:165-222 | some `getData` meets the assumption `GridSource` on `get_data`, whatever the period: the grid of a file with levels 50, 100 and 200 hPa |
| Catalogue.OutputPathInjective | jscat.py:140-141 | both directions: two labels give the same path in one directory if and only if they are equal |
| Catalogue.DoJscat | jscat.py:40-148 | a label `find_months` refuses gives its error. Otherwise the path is the output path, the time loop succeeds, and the table has one row per stacked row, each inside the grid, eastward, dated at its own instant and with every cell from `BuildTable` |
| Driver.YearsFormatted | jscat.py:153-154 | the year list is the numerals `'%d'` of 2017 and 2018 |
| Driver.MonthsFormatted | jscat.py:156-157 | the month list is the numerals `'%02d'` of 1..12 |
| Driver.PeriodLabelFields | jscat.py:160-162 | each label has seven characters: four year digits reading `2017 + k / 12`, `_`, and two month digits reading `k % 12 + 1` |
| Driver.PeriodLabelPadded | jscat.py:153-162 | each label is the zero-padded year, `_` and the zero-padded month, of a month that has a following month in the calendar |
| Driver.PeriodLabel | jscat.py:152-162 | the `k`-th label `f'{year}_{month}'` of the nested loop over years 2017..2018 and months `'%02d'`; its form is stated by `Driver.PeriodLabelPadded` |
| Driver.PeriodLabelAt | jscat.py:160-162 | the label built for year `yi` and month `mi` is that of pass `12 * yi + mi` (year-major order) |
| Driver.PeriodLabelParses | jscat.py:162-164 | `find_months` reads every label as the period of its own month |
| Driver.PeriodLabelRange | jscat.py:153-162 | the first label is `2017_01` and the last `2018_12` |
| Driver.PeriodsContiguous | jscat.py:153-164 | each period ends where the next one starts, so the 24 periods leave no gap from January 2017 to January 2019 |
| Driver.SharedBoundary | jscat.py:160-164 | the instant at which one period ends and the next begins lies in the inclusive time window of both boxes, so consecutive passes both catalogue a time step at that instant whenever the file read holds it |
| Driver.OutputPathsDistinct | jscat.py:160-164 | distinct passes write distinct files |
| Driver.OutputPathsAt | jscat.py:160-164 | after `n` passes the list of written files has `n` entries, entry `k` being pass `k`'s output path |
| Driver.RunPeriod | jscat.py:162-164 | one pass of `run_all` always reads its label and writes its output file |
| Driver.RunYear | jscat.py:161-164 | the inner month loop appends the twelve output paths of that year, in order |
| Driver.RunAll | jscat.py:150-167 | exactly 24 passes, year-major, the `k`-th writing the output path of the `k`-th label |
| Driver.ParseArgs | jscat.py:170-181 | with three argv entries, the period and directory are the arguments. With two, the directory is `.`. Otherwise every period goes into `./data` |
| Driver.RunMain | jscat.py:170-189 | `main` catalogues all 24 periods into `./data`, or the one given period into the given directory, with `find_months`'s error for an unreadable period |

## Left out

- jsviz.py (interactive plotting) is not part of this model.
- Reading the netCDF/OPeNDAP files in `get_data`, and `get_coastlines`: file and network I/O. `do_jscat` receives the grid from the parameter `getData`. The windows, names and `pdiff` are modelled as separate functions over the axes.
- The internals of `peak_local_max` (threshold, border and distance suppression, ranking) are not modelled: the scanner is a parameter constrained only to return in-bounds pairs.
- The metpy/pint physics: `wind_speed`, `geopotential_to_height`, `pressure_to_height_std`, `add_pressure_to_height` and the unit conversions. Floating-point library code; the fields arrive in the grid, and `addPressureToHeight` is a parameter.
- Units are not carried: every value is a plain `real`.
- The contour consolidation: the code that would do it is commented out, and the `peaks_inside_*` keys are never read (`Catalogue.LmArguments` states the latter).
- `generate_columns` and `write_jet_data` are not part of this model. The `js1` columns are taken to be numbered in the order of `types_str`, and writing the file is represented by its path.
- The header text, `strftime` formatting of the dates (`dt` keeps the instants themselves), `np.column_stack`, `print`, `perf_counter` timing and `os.makedirs`: output formatting and side effects.
- `js1` is initialised with NaN in the source and with 0.0 here: every cell is overwritten before use, as `Catalogue.BuildTable` states.
- `scanf_datetime` is modelled only for the `'%Y_%m'` format `find_months` uses, with ASCII digits; other formats and Unicode digits matched by `\d` are left out.
- Jets.ScanLongitude: requires at least two levels and two latitudes, for the reason given for `Jets.FindJets` below.
- Jets.ScanLongitudes: requires at least two levels and two latitudes, for the reason given for `Jets.FindJets` below.
- Catalogue.CollectJets: requires at least two levels and two latitudes, since it calls `Jets.FindJets`.
- Jets.FindJets: requires at least two levels and two latitudes, because `squeeze()` would otherwise drop an axis of the section and change its rank; a single-level or single-latitude grid is not modelled.
- Jets.JetsAt: on a grid with one level or one latitude it scans the section as 2-D, so a kept peak becomes a row; the source's section is 1-D there, and unpacking a one-element peak into `lvlidx, latidx` (jsutil.py:123) raises a ValueError that is not modelled. "Fails exactly when" in its contract holds only on grids with at least two levels and two latitudes.
- Jets.Pass: the same 2-D scan on a grid with one level or one latitude; the ValueError of jsutil.py:123 is not modelled.
- Jets.Passes: built from `Jets.Pass`, so it has the same gap on a grid with one level or one latitude.
- Catalogue.CatalogueFailure: built from `Jets.JetsAt`, so on a grid with one level or one latitude it does not report the ValueError of jsutil.py:123.
- Jets.FindJets: `dtidx` is a `nat`, so Python's negative indexing from the end of the time axis is not modelled.
- Catalogue.CollectJets: appends each step's rows (the evident intent); the written `np.vstack` behaviour is modelled separately by `Catalogue.StackAsWritten` (see Findings).
- Catalogue.DoJscat: uses the corrected time loop, so on a month with a step that keeps no row it writes a table where the source raises.
- Catalogue.DoJscat: `getData` must return a well-formed grid with at least two levels and two latitudes for every box `do_jscat` builds, whose level window is the box's on the file's level axis, and whose `pdiff` is `msl - 1013.25` (`Catalogue.GridSource`); the errors of file access are not modelled.
- Catalogue.BuildTable: the JSHT column uses the corrected lookup of the row's own level; as written it agrees only at rows whose level window has not shifted, for instance when the file holds no level before the box's (see Findings).
- Catalogue.DoJscat: its table uses the same corrected JSHT lookup as `Catalogue.BuildTable`.
- Driver.RunAll: a time step at a month boundary is catalogued by both neighbouring passes when the file holds it (`Driver.SharedBoundary`); which time steps a file holds is not modelled.
- Driver.RunAll: the program ends at the first exception of a pass; since every label is readable and `lm` supplies every argument, no pass fails in the model, and an error raised by file reading is not modelled.

## Findings

| source | as written | input that shows it | evidently intended | confidence | as-written member | corrected member |
|---|---|---|---|---|---|---|
| jscat.py:73-75 | `jsidx = np.vstack((jsidx, jsi))`, where `find_jets` returns `np.array([])` of shape (0,) when it keeps no row; `vstack` promotes it to shape (1, 0), whose 0 columns do not match the 4 of `jsidx`, and raises ValueError | a month in which one time step has no local maximum above `threshold_abs` with positive eastward wind, e.g. a calm one-step grid (`Catalogue.CalmGrid` with the scanner `Catalogue.NoPeaks`) | append that step's (possibly zero) rows and go on, as `find_jets`'s promise of an n x 4 index array (jsutil.py:85-86) allows n = 0 | high, not executed | Catalogue.QuietStepBreaksCatalogue, Catalogue.CalmMonthCounterexample | Catalogue.CollectJets |
| jscat.py:110-112 | `hts = add_pressure_to_height(d['ht_std'][idxlvl], pdiff)`, where `ht_std` is computed over the file's whole level axis (jsutil.py:204, 219) while `idxlvl` indexes the windowed `level[levidx]` (jsutil.py:183, 217) | a file with levels 50, 100 and 200 hPa and the box 100..500 hPa: `levidx` is `[1, 2]`, and a jet at 100 hPa gets the standard height of 50 hPa | read the height of the row's own level, `ht_std[levidx][idxlvl]` | medium (correct whenever the file holds no level before the box's), not executed | Catalogue.HeightAsWrittenShifted, Catalogue.ThinnedLevelsCounterexample | Catalogue.StandardHeightOfOwnLevel |
