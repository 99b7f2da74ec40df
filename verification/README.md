# Terrorism incidents × weather grid: the spatio-temporal join

This project models the core of the merge script, `merge.py`. The script annotates every row of the
Global Terrorism Database incident table with five weather values from a gridded reanalysis dataset:
2 m temperature (`t2m`), total cloud cover (`tcc`), the vertical integral of divergence of
geopotential flux (`vidgf`), surface pressure (`sp`) and the 10 m V wind component (`v10`). Each field is a 3-D
array indexed by (time step, latitude index, longitude index). For each incident the script does four things:

- it applies a **coverage gate** on year and month. A row that fails the gate gets a missing value;
- it turns the date into a **day offset** from 2012-01-01, using proleptic Gregorian `datetime` arithmetic;
- it resolves the latitude and the longitude to the **nearest grid index**, using numpy's `argmin` of
  the absolute difference. The longitude is first shifted by a flat +180 degrees;
- it **reads one cell** of the field.

It does this in five full-table `apply` passes, one per field. Each pass assigns one new column.

Modules, one per concern:

- `outcomes.dfy` (`Outcomes`): missing-or-present cells (`Option`). It also defines the exceptions that end
  the script: `Fault` (invalid date, empty axis, index out of range) and `Result`.
- `nearest.dfy` (`Nearest`): first-minimum argmin over an axis of exact reals, the latitude and
  longitude index resolution, and the +180 longitude shift.
- `calendar.dfy` (`Calendar`): `datetime` validity (years 1 to 9999, real months and days) and ordinal day
  arithmetic, written out the way CPython computes it: days before the year, plus days before the month, plus the day.
- `join.dfy` (`Join`): the coverage gate, resolution of a row to a grid cell, the cell read, and `connect`.
- `merge.dfy` (`Merge`): the row-by-row `apply` loop, a pure account of the five passes, and the
  incident table as a class whose methods add columns in place.

The model follows the code as written wherever the code differs from its comments:

- The gate drops **every** incident of 2012 and earlier (`iyear > 2012`), although the grid starts on 2012-01-01.
  So 2012-01-01 yields a missing value, not time step 0, and every accepted date is at least 366 days
  after the epoch (`Join.CoveredDatesAfter2012`).
- For 2017 the gate keeps months 1 to 6 (`imonth > 6` is dropped), although the comment at merge.py:50 speaks
  of seven months.
- Years after 2017 pass the gate. Their day offsets run past 2007, the offset of 2017-06-30, so on a
  grid that ends there the read raises `IndexError` (`Join.ConnectReadsCell`).
- An incident with an impossible date inside the window raises `ValueError` from `datetime` and ends the
  run. This includes the database's day 0 ("day unknown"); the script does not tolerate it, and the
  model returns `Err(InvalidDate)`.
- The time axis (`w_time`, merge.py:15) is loaded but never read. No time index is checked against it.
  The only bound is the field's own shape, and reading outside it is `Err(IndexOutOfRange)`.

## Model

| member | source | states |
|---|---|---|
| `Nearest.Dist` | merge.py:28 | the absolute difference is non-negative and zero exactly when the axis value equals the query |
| `Nearest.NearestIndex` | merge.py:28 | on a non-empty axis the result is an index into the axis, no entry is strictly closer to the query, and every earlier entry is strictly farther (numpy's first minimum) |
| `Nearest.FirstNearestUnique` | merge.py:28 | at most one index has the first-nearest property, so argmin is fully determined by it |
| `Nearest.ExactHit` | merge.py:28 | a query equal to some axis entry resolves to an entry equal to the query |
| `Nearest.Argmin` | merge.py:28 | fails with `EmptyAxis` exactly when the axis is empty; otherwise returns the first nearest index |
| `Nearest.LatIndex` | merge.py:27-28 | the latitude index is the first nearest grid latitude to the raw incident latitude; empty axis is a fault |
| `Nearest.LonIndex` | merge.py:33-36 | the longitude index is the first nearest grid longitude to the incident longitude plus 180 (not to the longitude itself); empty axis is a fault |
| `Nearest.ShiftLongitude` | merge.py:34-36 | the shift adds exactly 180 degrees, so a longitude in -180 to 180 lands in 0 to 360 |
| `Nearest.ShiftedLookupExample` | merge.py:33-36 | on an axis holding 44 and 224, longitude 44 resolves to the entry 224, whereas latitude 44 resolves to the entry 44 |
| `Calendar.DaysInMonth` | merge.py:42 | month lengths lie between 28 and 31, and a month has 29 days exactly when it is February of a leap year |
| `Calendar.DaysFromEpoch` | merge.py:40-43 | the day offset is defined exactly for dates `datetime` accepts; every other triple (month or day out of range, day 0, year outside 1 to 9999) is `InvalidDate` |
| `Calendar.EpochIsDayZero` | merge.py:41-43 | 2012-01-01 is day 0 |
| `Calendar.NextDayCountsOne` | merge.py:40-43 | the next calendar day of any valid date other than 9999-12-31 (the last date `datetime` represents) is valid and exactly one day further from the epoch |
| `Calendar.DaysFromEpochMonotone` | merge.py:40-43 | for valid dates, one date precedes another in calendar order exactly when its day offset is smaller |
| `Join.InCoverage` | merge.py:48-50 | no year before 2013 passes the gate; every year from 2013 to 2016 and from 2018 on passes; in 2017 exactly months 1 to 6 pass |
| `Join.CoveredDatesAfter2012` | merge.py:48-52 | every valid date that passes the gate is at least 366 days after 2012-01-01 |
| `Join.CoveredDatesUpToJune2017` | merge.py:48-52 | every valid gated date up to 2017 is at most 2007 days after the epoch (2017-06-30) |
| `Join.Resolve` | merge.py:52-54 | a gated row resolves, in source order, to a time step equal to its day offset (at least 366), the first nearest latitude index and the first nearest shifted-longitude index; it fails with `InvalidDate` on a bad date, else with `EmptyAxis` on an empty axis |
| `Join.Read` | merge.py:55 | a cell is read exactly when all three indices are inside the field's shape, and the value read is the field's entry at (time, latitude, longitude); otherwise `IndexOutOfRange` |
| `Join.Connect` | merge.py:47-56 | the result is missing exactly when the row fails the gate (any year up to 2012, or 2017 after June), whatever the field, date or place; a present value is the field's value at the resolved cell; a fault arises only inside the gate, and it is either the resolution's fault or, when resolution succeeds, the read's fault at the resolved cell |
| `Join.ConnectReadsCell` | merge.py:52-55 | on a well-shaped field with non-empty axes, a gated row with a valid date is read successfully exactly when its day offset is below the number of time steps, and then the value is the field at (offset, nearest latitude, nearest shifted longitude) |
| `Join.FullGridNeverFaults` | merge.py:48-55 | a well-shaped grid with non-empty axes and more than 2007 time steps never makes the join fail for a valid date up to 2017 |
| `Join.MissingTogether` | merge.py:48-51 | for any two fields, a row joins to a missing value in one exactly when it does in the other |
| `Merge.JoinColumn` | merge.py:58 | a successful pass has one cell per row |
| `Merge.JoinColumnCells` | merge.py:58 | a pass succeeds exactly when no row raises, and then its k-th cell is `connect` of row k |
| `Merge.JoinColumnFirstFault` | merge.py:58 | a failed pass reports the fault of the first row that raises, and every earlier row succeeded |
| `Merge.ApplyConnect` | merge.py:58 | the row-by-row loop returns exactly the pass result: all cells, or the first fault |
| `Merge.JoinedCellMissing` | merge.py:48-58 | in a joined column, row k is missing exactly when row k fails the coverage gate |
| `Merge.MissingInAllOrNone` | merge.py:58-66 | any two weather columns joined over the same rows are missing in exactly the same rows |
| `Merge.Pass` | merge.py:58 | after a fault no further pass runs and the run is unchanged; otherwise a successful join appends exactly the joined column under the pass's name, and a failed join appends nothing and records the join's fault |
| `Merge.MergeRun` | merge.py:58-66 | the five passes keep the existing columns in front and append at most five, and the run completes exactly when all five were appended |
| `Merge.MergeRunCompletes` | merge.py:58-66 | a run that completes had all five passes succeed and appended exactly the five joined columns `t2m`, `tcc`, `vidgf`, `sp`, `v10`, in that order, after the existing ones |
| `Merge.MergeRunStops` | merge.py:58-66 | a run that stops keeps the existing columns in front and has appended fewer than five: exactly the joined columns of the passes before the first one that raised, and it records that pass's fault |
| `Merge.Table.AssignJoined` | merge.py:58 | the rows are unchanged; the pass result is the joined column; on success exactly one column is appended, and on a fault the table is left as it was |
| `Merge.Table.MergeWeather` | merge.py:58-66 | the rows are unchanged, and the table's columns and the outcome are those of the five passes in source order, stopping at the first fault; a failure returns exactly the fault that stopped the run |

## Left out

- Loading the incident CSV (ISO-8859-1) and the netCDF grid, and writing the output CSV (merge.py:1-22, 69): file I/O
  through foreign libraries. The axes and fields are parameters (`Merge.Grid`), and the rows are given to the `Merge.Table` constructor.
- The progress `print` calls (merge.py:11, 59-70): console output only.
- Floating point: coordinates are exact `real`s, so NaN coordinates (missing latitude or longitude in the
  incident data) and numpy's masked values are not modelled. The grid values are an opaque type `V`.
- Negative time indices, which numpy would wrap around, are not modelled: a gated date is always at least 366 days after the epoch.
- `Merge.Table.AssignJoined`: models assignment of a new column name, which appends. Pandas would replace a
  column of the same name in place, but the five weather names never occur among the incident columns.
  The incident's other columns are an opaque value per row.
- Whether the pipeline aborts: a fault ends the model's run, as the exception ends the script. Columns assigned by
  earlier passes stay in the table, and no output is written.
- A data-cleaning stage (column selection, sentinel replacement, text normalisation, imputation,
  derived casualty columns) is not part of this model: `merge.py` contains no such code.
- A configurable coverage cutoff and a modulo-360 longitude conversion are not modelled: the code
  hard-codes the gate and the flat +180 shift, and the model keeps both as written.
