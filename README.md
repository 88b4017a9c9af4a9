# Sunrise and sunset timeline for the British Overseas Territories

This project models two pieces of the bot that charts daylight across the
British Overseas Territories, and proves properties of both.

- **The timeline** (`create_timeline`). For every territory and every day
  `i` of an `n`-day survey starting on 2016-10-14, the code walks the
  territory's sample coordinates. For each one it asks the solar solver for
  the next sunrise after the start of day `i`, then for the next sunset after
  that sunrise. A coordinate whose query reports that the sun never sets
  (`AlwaysUpError`) is skipped. Each (sunrise, sunset) pair is folded with
  min/max into four `uint64` arrays: `risMins`, `risMaxs`, `setMins` and
  `setMaxs`. The min arrays are seeded with `2**62` every day. The max arrays
  keep the zeros `numpy.zeros` gave them. Each day then yields two bars:
  - the outer bar runs from the earliest sunrise to the latest sunset;
  - the inner bar runs from the latest sunrise to the earliest sunset, and
    may have a negative width.

  Row `j` starts at 0 and advances once per territory. The chart shows the
  range from day 1 to day `n - 2`.
- **The coordinate database** (`create_db`). A fixed table lists 15
  territories. Each entry names the shapefile countries that make up the
  territory and may give explicit locations. For every territory the code
  does four things in order:
  1. it resets `coords` to an empty list;
  2. for every shape record whose NAME is listed, it appends the coordinates
     of each of the record's rings;
  3. for the British Antarctic Territory it keeps only the points with
     `-80 <= lon <= -20`;
  4. it appends the explicit locations, unfiltered.

Both pieces exist in two revisions that share one model, as the table below
shows:

| | package (`bots/`) | script (top level) |
|---|---|---|
| timeline seconds | `.timestamp()`, stored into `uint64` | `calendar.timegm` |
| timeline order | dictionary order | dictionary order |
| db territory order | sorted names (`Database.SORTED_NAMES`) | the table's written order |
| db record name | as read | NULs removed, then `str.strip()` (`Text.Clean`) |
| db rings | exterior rings of the extracted polygons | lines of `geometry.boundary` |

Both revisions use the same table. Apart from the seconds conversion in the
table, the timeline's revisions differ only in rendering details: the row
offset and the y-limit. Both are left out below.

## Structure

- `base.dfy`, module `Base`. It holds the `Coord` datatype, the `Seconds`
  type and `Option`/`Result`. `Seconds` is whole seconds in `[0, 2**64)`, the
  range a `numpy.uint64` array holds.
- `ephem.dfy`, module `Ephem`. The solver is a parameter: a `Sky` value
  holding the two queries `nextRising` and `nextSetting`. Each returns
  `Event(t)`, `AlwaysUp` or `NeverUp`. The predicate `Sound` states the only
  assumption made about the solver: an event is never earlier than the
  instant the search started from. `Observe` models one coordinate's
  rise-then-set query with its two `try`/`except AlwaysUpError` blocks.
- `envelope.dfy`, module `Envelope`. `DayFold` is the loop over coordinates
  in loop order. Its reference definition is the seeded minimum and maximum
  over the *set* of contributed sunrises and sunsets (`Summarises`).
- `timeline.dfy`, module `Timeline`. It holds:
  - the imperative day loop (`SurveyTerritory`) over four arrays;
  - the per-day coordinate loop (`SurveyDay`);
  - the conversion of the counters into bars (`EncodeBars`);
  - the pass of the territory loop that plots one row (`PlotTerritory`);
  - the territory loop with its row counter and `d0` (`CreateTimeline`);
  - the display window.

  Each method is proved against the pure functions `DayFold`, `Survey`,
  `EncodeDays`, `TerritoryRow`, `Rows` and `Drawn`.
- `text.dfy`, module `Text`. It holds Python's string order, which
  `sorted()` uses, and the record-name clean-up
  `replace("\0", "").strip()`, which uses the `str.isspace()` character set.
- `database.dfy`, module `Database`. It holds:
  - the territory table;
  - the reference definition `Collected` of what a territory's `coords` ends
    as;
  - the class `TerritoryDb`, whose `territories` map is updated in place by
    the nested record, ring, coordinate and location loops.

The chart is saved only if nothing on the way raises. The model keeps every
way in which the code stops (`Timeline.ChartError`):

- **Never-rising sun.** A sun that never rises is not skipped. Only
  `AlwaysUpError` is caught, so a `NeverUpError` from either query aborts the
  chart (`SolverRaised`).
- **Empty day.** A day on which no coordinate contributes keeps the seeds
  `2**62` in `risMins`/`setMins` and 0 in the max arrays. The conversion loop
  then hands `2**62` to `datetime.utcfromtimestamp`, which accepts nothing
  after 9999-12-31 23:59:59 UTC, so the chart aborts
  (`DateOutOfRange`). A territory with no coordinates at all, or one whose
  every coordinate is skipped on some day, is therefore never drawn
  (`Timeline.EmptyDayAborts`), and on every day of a drawn chart something
  contributed (`Timeline.DrawnDaysContribute`).
- **One territory.** The colour of row `j` is
  `float(j) / float(len(territories) - 1)`, which divides by zero when there
  is a single territory (`ColourRampByZero`, `Timeline.SingleTerritoryRaises`).
- **No territory.** `d0` is bound only inside the loop over territories and
  read after it by `set_xlim`, so with no territory the chart raises
  `UnboundLocalError` (`StartDateUnbound`; see "Findings").

## Model

| member | source | states |
|---|---|---|
| Ephem.Observe | bots/create_timeline.py:81-88 | The sunset is searched from the sunrise instant. `AlwaysUp` from either query gives `Skipped`, and nothing else does. `NeverUp` from either query raises, with the coordinate, the query and its start instant, and nothing else raises. Two events give exactly the pair of them, and a pair holds exactly the two events. With a sound solver, `start <= rise <= sunset`. |
| Ephem.NeverUpIsNotSkipped | create_timeline.py:60-66 | A `NeverUp` answer from either query is raised, never treated as a skip. |
| Envelope.Fold | bots/create_timeline.py:110-113 | No contract of its own: one min/max update of the four counters. `Envelope.FoldStep` states what it keeps. |
| Envelope.DayFold | bots/create_timeline.py:73-113 | No contract of its own: the loop over one day's coordinates. `Envelope.FoldOkIff`, `Envelope.FoldSummarises`, `Envelope.ErrorSticks`, `Envelope.SkippedChangesNothing` and `Envelope.OrderIndependent` state what it computes. |
| Envelope.FoldOkIff | bots/create_timeline.py:73-88 | A day's loop completes exactly when no coordinate raises. |
| Envelope.FoldSummarises | bots/create_timeline.py:67-113 | After the loop, `risMin`/`setMin` are the least of `2**62` and the contributed sunrises/sunsets. `risMax`/`setMax` are the greatest of 0 and the same instants. |
| Envelope.FoldStep | bots/create_timeline.py:110-113 | One min/max update keeps the counters the seeded extremes of the instants seen, with the new pair added. |
| Envelope.ExactExtremes | create_timeline.py:87-90 | When something contributed and every instant is below `2**62`, each counter is a contributed instant. The mins bound all contributed instants from below and the maxes bound them from above. |
| Envelope.NothingContributes | bots/create_timeline.py:61-70 | A day with no contributing coordinate ends with the counters `(2**62, 0, 2**62, 0)`. |
| Envelope.SkippedChangesNothing | bots/create_timeline.py:81-88 | A coordinate skipped for `AlwaysUpError` leaves the day's result as if it were absent, wherever it stands in the list. |
| Envelope.OrderIndependent | bots/create_timeline.py:73-113 | Two coordinate lists with the same multiset give the same outcome: both fail or neither does, and when both complete the counters are equal. |
| Envelope.Nested | bots/create_timeline.py:110-113 | Once something contributed, `risMin <= risMax`, `setMin <= setMax` and `setMin - risMax <= setMax - risMin`. |
| Envelope.RiseBeforeSet | bots/create_timeline.py:82-86 | With a sound solver, every contributed pair has `start <= rise <= sunset`, and `risMin <= setMax` once something contributed. |
| Envelope.SinglePair | bots/create_timeline.py:73-113 | When every contributing coordinate yields the same pair `(r, s)` below `2**62`, the counters are `(r, r, s, s)`. |
| Envelope.ErrorSticks | create_timeline.py:53-66 | Once a coordinate raised, the coordinates after it change nothing: the day fails with that first error. |
| Timeline.DayStart | bots/create_timeline.py:82 | No contract of its own: `d0 + i` days. `Timeline.DayStartMonotone` and `Timeline.DisplayWindow` state its order. |
| Timeline.DayStartMonotone | bots/create_timeline.py:82 | Day `i`'s search start, `d0 + i` days, is increasing in `i`. |
| Timeline.Survey | bots/create_timeline.py:67-113 | On success it gives `n` counter sets, entry `i` being day `i`'s loop started at `d0 + i` days. On failure the error is that of the first failing day. Success happens when every day succeeds. |
| Timeline.SurveyErrorSticks | bots/create_timeline.py:67-88 | Once a day raised, the later days change nothing. |
| Timeline.SurveyTerritory | bots/create_timeline.py:61-113 | The four arrays, allocated as zeros and filled day by day, end as `Survey`'s counters column by column. The method fails exactly when `Survey` does, with the same error. |
| Timeline.SurveyDay | bots/create_timeline.py:68-113 | Day `i`: the mins are seeded, then the coordinates are folded into slot `i` of the arrays. The slot ends as `DayFold`'s counters, or the method returns `DayFold`'s error. Every other slot is unchanged. |
| Timeline.OuterBar | bots/create_timeline.py:124-129 | The outer bar starts at `risMin` and ends at `setMax`. |
| Timeline.InnerBar | bots/create_timeline.py:125-133 | The inner bar starts at `risMax` and ends at `setMin`, so its width may be negative. |
| Timeline.Unconvertible | bots/create_timeline.py:123-133 | A day's counters all convert exactly when none lies past 9999-12-31 23:59:59 UTC. Otherwise the answer is one of the day's counters past that instant. |
| Timeline.EncodeDays | bots/create_timeline.py:119-133 | The conversion gives one outer and one inner bar per day. `Timeline.EncodeDaysMeaning` states the rest. |
| Timeline.EncodeDaysMeaning | bots/create_timeline.py:119-133 | The conversion succeeds exactly when every day's counters convert, and then gives both bars of day `i` from day `i`'s counters. Otherwise it fails with the first refused counter of the first day that has one. |
| Timeline.EncodeErrorSticks | create_timeline.py:100-110 | Once a day's counter was refused, the later days change nothing. |
| Timeline.EncodeBars | create_timeline.py:96-110 | The loop over the four arrays gives exactly `EncodeDays` of their columns. |
| Timeline.TerritoryRow | bots/create_timeline.py:61-158 | A drawn row has `n` outer and `n` inner bars. `Timeline.RowMeaning` states the rest. |
| Timeline.RowMeaning | bots/create_timeline.py:61-158 | A territory's row exists exactly when its survey completes, every day's counters convert and there is more than one territory. Its day-`i` bars are `OuterBar` and `InnerBar` of day `i`'s counters, and it carries its index and the territory's name. A survey error is raised as is. |
| Timeline.PlotTerritory | bots/create_timeline.py:58-158 | One pass of the territory loop gives exactly `TerritoryRow`. |
| Timeline.Rows | bots/create_timeline.py:54-158 | One row per territory, row `k` being `TerritoryRow` of territory `k`. The rows exist exactly when every territory's row does. |
| Timeline.RowsFirstError | bots/create_timeline.py:54-158 | A failed chart fails with the error of the first territory whose row fails. |
| Timeline.RowsErrorSticks | bots/create_timeline.py:54-113 | Once a territory raised, the later territories change nothing. |
| Timeline.DisplayWindow | bots/create_timeline.py:163-166 | The x-range covers the start of day `i` exactly when `1 <= i <= n - 2`. |
| Timeline.XRange | bots/create_timeline.py:163-166 | `set_xlim` as written: with `d0` unbound it raises. With `d0` bound to the start date it is `DisplayWindow`. |
| Timeline.Drawn | bots/create_timeline.py:54-166 | The chart of drawn rows with the x-range from the fixed start date. It exists exactly when `Rows` does, and its rows are exactly `Rows`'s, so `Timeline.RowDay`, `Timeline.BarsNested` and `Timeline.SinglePointBars` describe its bars. It carries `DisplayWindow`, and row `k` has index `k` and territory `k`'s name. |
| Timeline.NoTerritoryDrawn | bots/create_timeline.py:54-166 | With the x-range from the fixed start date, no territory gives an empty chart. |
| Timeline.CreateTimeline | bots/create_timeline.py:51-166 | The territory loop as written: with no territory it raises for `d0` unbound, with one territory it always raises, and otherwise it gives exactly `Drawn`. |
| Timeline.RowDay | create_timeline.py:101-110 | Day `i`'s bars in row `k` are `OuterBar` and `InnerBar` of that territory's day-`i` counters. |
| Timeline.EmptyDayAborts | bots/create_timeline.py:119-133 | On a day where nothing contributed, the counters are the seeds. The territory's row, and with it the chart, is never drawn. |
| Timeline.DrawnDaysContribute | bots/create_timeline.py:73-133 | On every day of a drawn chart, some coordinate of each territory contributed. |
| Timeline.SingleTerritoryRaises | bots/create_timeline.py:135-155 | A chart of one territory always raises. |
| Timeline.BarsNested | create_timeline.py:87-110 | On every day of a drawn chart, the inner bar is no wider than the outer bar. With a sound solver the outer bar's width is non-negative. |
| Timeline.SinglePointBars | bots/create_timeline.py:73-133 | A territory of one coordinate has identical outer and inner bars on every day of a drawn chart. |
| Text.Less | bots/create_db.py:110 | No contract of its own: Python's string order. `Text.LessIrreflexive`, `Text.LessTransitive` and `Text.LessAfterCommonPrefix` state that it is a strict order decided at the first difference. |
| Text.LessAfterCommonPrefix | bots/create_db.py:110 | After a common prefix, the first differing characters decide the order, and a proper prefix comes first. |
| Text.LessIrreflexive | bots/create_db.py:110 | No name is before itself. |
| Text.LessTransitive | bots/create_db.py:110 | The order is transitive. |
| Text.SortedPairwise | bots/create_db.py:110 | A strictly sorted name list is increasing between any two positions, so its names are distinct. |
| Text.RemoveNul | create_db.py:84 | No contract of its own: `replace("\0", "")`. `Text.RemoveNulChar`, `Text.RemoveNulAppend` and `Text.RemoveNulKeeps` state what it computes. |
| Text.RemoveNulChar | create_db.py:84 | One NUL becomes nothing, and any other character stays. |
| Text.RemoveNulAppend | create_db.py:84 | Removing NULs from two joined pieces joins the two results, so the kept characters keep their order. |
| Text.RemoveNulKeeps | create_db.py:84 | Removing NULs keeps exactly the non-NUL characters and never lengthens. A NUL-free name is unchanged. |
| Text.LStrip | create_db.py:84 | No contract of its own: `lstrip()`. `Text.LStripCuts` states what it computes. |
| Text.RStrip | create_db.py:84 | No contract of its own: `rstrip()`. `Text.RStripCuts` states what it computes. |
| Text.Clean | create_db.py:84 | No contract of its own: `replace("\0", "").strip()`. `Text.CleanShape`, `Text.CleanTrims` and `Text.CleanIdempotent` state what it computes. |
| Text.LStripCuts | create_db.py:84 | Characters are dropped only from the front, all of them whitespace. What is left is empty or starts with a non-space. |
| Text.RStripCuts | create_db.py:84 | Characters are dropped only from the back, all of them whitespace. What is left is empty or ends with a non-space. |
| Text.CleanShape | create_db.py:84 | The cleaned name has no NUL, and it is empty or starts and ends with a non-space. |
| Text.CleanTrims | create_db.py:84 | The cleaned name is a slice of the NUL-free name with only whitespace cut from either end. |
| Text.CleanIdempotent | create_db.py:84-88 | Cleaning a cleaned name changes nothing. |
| Database.TABLE | bots/create_db.py:51-100 | No contract of its own: the dictionary literal in written order. `Database.TableShape`, `Database.TableNamesDistinct`, `Database.TableEntries` and `Database.BatEntry` state its contents. |
| Database.ToMap | bots/create_db.py:51-100 | The dictionary built from a list of pairs has exactly its names as keys. A key that no later pair repeats maps to its own entry. |
| Database.DistinctEntries | bots/create_db.py:51-100 | When no name repeats, every name maps to the entry written beside it. |
| Database.TableEntries | bots/create_db.py:51-100 | Every name of the table maps to the entry written beside it. |
| Database.BatEntry | bots/create_db.py:62-65 | The British Antarctic Territory lists the country `Antarctica` and the one location `(-50, -90)`, and has no coordinates yet. |
| Database.SORTED_NAMES | bots/create_db.py:110 | No contract of its own: the table's names in sorted order. `Database.SortedNamesAreSorted` and `Database.SortedNamesCoverTable` state that it is `sorted(list(territories.keys()))`. |
| Database.SortedNamesAreSorted | bots/create_db.py:110 | The package's visiting order is strictly sorted in Python's string order. |
| Database.SortedNamesCoverTable | bots/create_db.py:110 | The package's visiting order holds exactly the table's names. |
| Database.TableNamesDistinct | bots/create_db.py:51-100 | The table has 15 entries whose names are pairwise distinct. |
| Database.SortedNamesEnumerateTable | bots/create_db.py:110 | The package's visiting order is sorted and lists exactly the table's keys. The table has 15 distinct names. |
| Database.TableShape | create_db.py:14-63 | All 15 entries list countries and have no coordinates yet. Only the United Kingdom, the British Antarctic Territory and Saint Helena carry explicit locations. |
| Database.Filter | bots/create_db.py:139-143 | The filter never lengthens a list, and it is the identity for every territory but the British Antarctic Territory. |
| Database.FilterMembers | bots/create_db.py:139-141 | A point survives exactly when it was there and either the territory is not the British Antarctic Territory or `-80 <= lon <= -20`. |
| Database.Flatten | bots/create_db.py:128-134 | No contract of its own: the rings' points, ring after ring. `Database.FlattenAppend` and `Database.FlattenMembers` state what it computes. |
| Database.FlattenAppend | bots/create_db.py:128-134 | Walking two lists of rings one after the other gives the two walks joined. |
| Database.FlattenMembers | bots/create_db.py:128-134 | The walked points are exactly the points on the rings. |
| Database.RecordName | bots/create_db.py:121 | No contract of its own: the NAME as read in the package, `Text.Clean` of it in the script (create_db.py:84). `Database.UnlistedRecordIgnored` uses it. |
| Database.MatchedRings | bots/create_db.py:119-125 | No contract of its own: the rings of the records whose name is listed, in record order. `Database.MatchedRingsMembers` states which rings are walked. |
| Database.MatchedRingsMembers | bots/create_db.py:119-125 | A ring is walked exactly when its record's NAME is in the territory's `countries`. |
| Database.Collected | bots/create_db.py:114-150 | No contract of its own: the reference definition of a territory's final `coords`. `Database.CollectedMembers`, `Database.BatBounds`, `Database.OthersKeepEverything`, `Database.NoCountries` and `Database.UnlistedRecordIgnored` state what it holds, and `Database.TerritoryDb.Collect` is proved against it. |
| Database.CollectedMembers | bots/create_db.py:114-150 | A point ends in `coords` exactly when it is an explicit location, or when it lies on a ring of a listed record and the territory keeps it. |
| Database.BatBounds | bots/create_db.py:139-150 | The British Antarctic Territory's `coords` end with its locations, unfiltered. Every point before them has `-80 <= lon <= -20`. |
| Database.OthersKeepEverything | bots/create_db.py:134-150 | Any other territory gets all matched ring points in ring order, then its locations. |
| Database.NoCountries | bots/create_db.py:117-150 | A territory without `countries` gets exactly its locations. |
| Database.UnlistedRecordIgnored | create_db.py:84-88 | Removing a record whose cleaned name is not listed changes nothing. |
| Database.TerritoryDb.Append | bots/create_db.py:141 | The append adds the point to the end of that territory's `coords` and changes no other key or entry. |
| Database.TerritoryDb.CollectRing | bots/create_db.py:134-143 | Walking one ring appends its kept points in order. |
| Database.TerritoryDb.CollectRings | bots/create_db.py:128-143 | Walking a record's rings appends their kept points ring after ring. |
| Database.TerritoryDb.CollectRecord | bots/create_db.py:121-143 | An unlisted record appends nothing; a listed one appends its rings' kept points. |
| Database.TerritoryDb.CollectRecords | create_db.py:82-102 | The loop over records appends the kept points of every listed record, in record order. |
| Database.TerritoryDb.CollectLocations | create_db.py:105-109 | The locations are appended in listed order, unfiltered. |
| Database.TerritoryDb.Collect | bots/create_db.py:113-150 | `coords` is reset, and afterwards holds exactly `Collected` of that territory's own entry. No other territory changes, and no other key of the entry changes. |
| Database.TerritoryDb.CollectAll | create_db.py:72-109 | Visiting every key once, in any order, leaves the same keys. Every entry is unchanged except that its `coords` is set to `Collected` of its own entry. |
| Database.CreateDb | bots/create_db.py:51-150 | The built database has the table's keys, and every entry is the table's entry with `coords` set to `Collected`. In particular the entry of each name is the one written beside it in the table, with its `coords` collected. This holds for both revisions and their visiting orders. |

## Left out

- The PyEphem solver (`next_rising`, `next_setting`, `ephem.Date`,
  `ephem.Sun`). It is a foreign library of floating-point astronomy, so it is
  a parameter of the model, constrained only by `Ephem.Sound`. The observer's
  `long`/`lat` overwrites become the coordinate argument of each query.
- Conversions between dates and numbers (`.datetime()`, `.replace(tzinfo)`,
  `.timestamp()`, `calendar.timegm`, `date2num`). Instants are whole POSIX
  seconds. Of `utcfromtimestamp` only the upper end of its range is
  modelled (`Timeline.MAX_UTC`). Not modelled:
  - the truncation of the package's float timestamps into the `uint64`
    arrays;
  - a solver event after year 9999, on which `.datetime()` would already
    raise during the survey; the model raises `DateOutOfRange` for it at
    the conversion instead.
- Timeline.DisplayWindow: the window is in whole seconds from `d0`. The
  `ephem.Date(d0 + n - 2)` day arithmetic and the `date2num` of the result
  are not modelled.
- Rendering is not modelled:
  - `barh` styling and the bar offsets (`0.5 + j` in the package, `0.1 + j`
    in the script);
  - the colour the ramp `float(j) / float(len(territories) - 1)` picks; only
    its division by zero for a single territory is modelled;
  - legend, title, y-limits, figure saving and image optimisation;
  - `create_map.py` and `bots/create_map.py` in full.
- Shapefile reading (`natural_earth`, `shapereader.Reader`,
  `getRecordAttribute`, `extract_polys` with `onlyValid`/`repair`, and
  `geometry.boundary`). Records are an input sequence of a name and rings.
  Unpacking a coordinate of other than two components is not modelled.
- JSON output (`json.dump` with sorted keys), the database path, the
  `print` progress messages, `run.py`, `bots/run.py`, the map drivers and the
  Python version check. Each is file-system plumbing or has no behaviour.
- The order of `territories.keys()` / `iterkeys()` in the timeline. It
  depends on how the database was loaded, so `CreateTimeline` takes the
  territories as a sequence in whatever order they come.

## Findings

| source | as written | input that shows it | evidently intended | confidence | as-written member | corrected member |
|---|---|---|---|---|---|---|
| bots/create_timeline.py:54-166 | `d0` is assigned only inside the loop over territories but read after it to set the x-range. | An empty `territories` dictionary: the loop body never runs and the x-range raises `UnboundLocalError`. | The x-range is day 1 to day `n - 2` from the fixed start date, whatever the number of territories. | not executed | Timeline.CreateTimeline (with Timeline.XRange) | Timeline.Drawn (shown by Timeline.NoTerritoryDrawn) |
