/** The timeline: for every territory, in the order given, and every day of the
    survey, the four counters of the day kept in four arrays, then the two bars
    derived from them, placed on row `j`. */
module Timeline {
  import opened Base
  import opened Ephem
  import opened Envelope

  const DAY: int := 86400

  /** `d0`: 2016-10-14 00:00:00 UTC in POSIX seconds. */
  const D0: int := 1476403200

  /** The instant day `i`'s sunrise search starts from, `d0 + i` days. */
  function DayStart(i: int): int
  {
    D0 + i * DAY
  }

  lemma DayStartMonotone(a: int, b: int)
    ensures a <= b <==> DayStart(a) <= DayStart(b)
  {
    if a <= b {
      assert DayStart(b) - DayStart(a) == (b - a) * DAY;
    } else {
      assert DayStart(a) - DayStart(b) == (a - b) * DAY;
    }
  }

  /** The counters of days `0 .. n-1` for one territory's coordinates, day by
      day; the first exception raised on any day aborts the survey. */
  function Survey(sky: Sky, coords: seq<Coord>, n: nat): (r: Result<seq<Counters>, Failure>)
    ensures r.Ok? ==> |r.value| == n
    ensures r.Ok? ==> forall i | 0 <= i < n :: DayFold(sky, coords, DayStart(i)) == Ok(r.value[i])
    ensures r.Err? ==> exists i | 0 <= i < n :: && DayFold(sky, coords, DayStart(i)) == Err(r.error)
                                               && forall d | 0 <= d < i :: DayFold(sky, coords, DayStart(d)).Ok?
    ensures (forall i | 0 <= i < n :: DayFold(sky, coords, DayStart(i)).Ok?) ==> r.Ok?
  {
    if n == 0 then Ok([])
    else
      match Survey(sky, coords, n - 1)
      case Err(e) => Err(e)
      case Ok(days) =>
        match DayFold(sky, coords, DayStart(n - 1))
        case Err(e) => Err(e)
        case Ok(d) => Ok(days + [d])
  }

  lemma {:induction false} SurveyErrorSticks(sky: Sky, coords: seq<Coord>, m: nat, n: nat)
    requires m <= n
    requires Survey(sky, coords, m).Err?
    ensures Survey(sky, coords, n) == Survey(sky, coords, m)
    decreases n - m
  {
    if m < n {
      SurveyErrorSticks(sky, coords, m + 1, n);
    }
  }

  /** The four arrays `risMins`, `risMaxs`, `setMins`, `setMaxs` once filled. */
  datatype Columns = Columns(risMins: seq<Seconds>, risMaxs: seq<Seconds>, setMins: seq<Seconds>, setMaxs: seq<Seconds>)
  {
    predicate WellFormed(n: nat)
    {
      |risMins| == n && |risMaxs| == n && |setMins| == n && |setMaxs| == n
    }

    /** Column `i` of the arrays. */
    function Day(i: nat): Counters
      requires i < |risMins| && i < |risMaxs| && i < |setMins| && i < |setMaxs|
    {
      Counters(risMins[i], risMaxs[i], setMins[i], setMaxs[i])
    }

    /** The columns, day by day. */
    function Days(n: nat): (ds: seq<Counters>)
      requires WellFormed(n)
      ensures |ds| == n && forall i | 0 <= i < n :: ds[i] == Day(i)
    {
      seq(n, i requires 0 <= i < n => Day(i))
    }
  }

  /** The nested day and coordinate loops over four `numpy.zeros` arrays. Only
      the min arrays are seeded per day; the max arrays keep their zeros until a
      pair is folded in. */
  method SurveyTerritory(sky: Sky, coords: seq<Coord>, n: nat) returns (r: Result<Columns, Failure>)
    ensures r.Ok? <==> Survey(sky, coords, n).Ok?
    ensures r.Ok? ==> r.value.WellFormed(n)
                      && forall i | 0 <= i < n :: r.value.Day(i) == Survey(sky, coords, n).value[i]
    ensures r.Err? ==> r.error == Survey(sky, coords, n).error
  {
    var risMins := new Seconds[n](_ => 0);
    var risMaxs := new Seconds[n](_ => 0);
    var setMins := new Seconds[n](_ => 0);
    var setMaxs := new Seconds[n](_ => 0);
    for i := 0 to n
      invariant Survey(sky, coords, i).Ok?
      invariant forall d | 0 <= d < i ::
                  Survey(sky, coords, i).value[d] == Counters(risMins[d], risMaxs[d], setMins[d], setMaxs[d])
      invariant forall d | i <= d < n :: risMaxs[d] == 0 && setMaxs[d] == 0
    {
      var failure := SurveyDay(sky, coords, DayStart(i), i, risMins, risMaxs, setMins, setMaxs);
      if failure.Some? {
        SurveyErrorSticks(sky, coords, i + 1, n);
        return Err(failure.value);
      }
    }
    r := Ok(Columns(risMins[..], risMaxs[..], setMins[..], setMaxs[..]));
  }

  /** Day `i` of the survey: seed the two min counters, then walk the
      coordinates, skipping those whose query raised `AlwaysUpError`. A raised
      `NeverUpError` leaves the loop. */
  method SurveyDay(sky: Sky, coords: seq<Coord>, start: int, i: nat,
                   risMins: array<Seconds>, risMaxs: array<Seconds>, setMins: array<Seconds>, setMaxs: array<Seconds>)
    returns (failure: Option<Failure>)
    requires i < risMins.Length == risMaxs.Length == setMins.Length == setMaxs.Length
    requires risMins != risMaxs && risMins != setMins && risMins != setMaxs
    requires risMaxs != setMins && risMaxs != setMaxs && setMins != setMaxs
    requires risMaxs[i] == 0 && setMaxs[i] == 0
    modifies risMins, risMaxs, setMins, setMaxs
    ensures forall d | 0 <= d < risMins.Length && d != i ::
              && risMins[d] == old(risMins[d]) && risMaxs[d] == old(risMaxs[d])
              && setMins[d] == old(setMins[d]) && setMaxs[d] == old(setMaxs[d])
    ensures failure.None? ==> DayFold(sky, coords, start) == Ok(Counters(risMins[i], risMaxs[i], setMins[i], setMaxs[i]))
    ensures failure.Some? ==> DayFold(sky, coords, start) == Err(failure.value)
  {
    risMins[i] := SEED;
    setMins[i] := SEED;
    for k := 0 to |coords|
      invariant DayFold(sky, coords[..k], start) == Ok(Counters(risMins[i], risMaxs[i], setMins[i], setMaxs[i]))
      invariant forall d | 0 <= d < risMins.Length && d != i ::
                  && risMins[d] == old(risMins[d]) && risMaxs[d] == old(risMaxs[d])
                  && setMins[d] == old(setMins[d]) && setMaxs[d] == old(setMaxs[d])
    {
      var c := coords[k];
      assert coords[..k + 1][..k] == coords[..k];
      var rising := sky.nextRising(c, start);
      if rising.NeverUp? {
        ErrorSticks(sky, coords, k + 1, start);
        return Some(NeverUpError(c, Rising, start));
      }
      if rising.Event? {
        var t1 := rising.at;
        var setting := sky.nextSetting(c, t1);
        if setting.NeverUp? {
          ErrorSticks(sky, coords, k + 1, start);
          return Some(NeverUpError(c, Setting, t1));
        }
        if setting.Event? {
          var t2 := setting.at;
          risMins[i] := Min(t1, risMins[i]);
          risMaxs[i] := Max(t1, risMaxs[i]);
          setMins[i] := Min(t2, setMins[i]);
          setMaxs[i] := Max(t2, setMaxs[i]);
        }
      }
    }
    assert coords[..|coords|] == coords;
    failure := None;
  }

  /** A horizontal bar in seconds: it starts at `left` and reaches `left + width`;
      the width may be negative. */
  datatype Bar = Bar(left: int, width: int)

  /** The outer bar spans from the earliest sunrise to the latest sunset. */
  function OuterBar(e: Counters): (b: Bar)
    ensures b.left == e.risMin && b.left + b.width == e.setMax
  {
    Bar(e.risMin, e.setMax - e.risMin)
  }

  /** The inner bar spans from the latest sunrise to the earliest sunset. */
  function InnerBar(e: Counters): (b: Bar)
    ensures b.left == e.risMax && b.left + b.width == e.setMin
  {
    Bar(e.risMax, e.setMin - e.risMax)
  }

  /** The last POSIX second `datetime.utcfromtimestamp` converts,
      9999-12-31 23:59:59 UTC; it raises on any later one. */
  const MAX_UTC: int := 253402300799

  /** What stops the chart before the figure is saved. */
  datatype ChartError =
    | SolverRaised(failure: Failure)  // NeverUpError from the solver
    | DateOutOfRange(at: Seconds)     // utcfromtimestamp refused a counter
    | ColourRampByZero                // the colour ramp divides by len(territories) - 1 == 0
    | StartDateUnbound                // d0 read after a territory loop that never ran

  /** The first of a day's counters, in the order the conversion loop reads
      them (`risMins`, `risMaxs`, `setMaxs`, `setMins`), that lies past
      `MAX_UTC`. */
  function Unconvertible(e: Counters): (r: Option<Seconds>)
    ensures r.None? <==> e.risMin <= MAX_UTC && e.risMax <= MAX_UTC && e.setMax <= MAX_UTC && e.setMin <= MAX_UTC
    ensures r.Some? ==> && MAX_UTC < r.value
                        && (r.value == e.risMin || r.value == e.risMax || r.value == e.setMax || r.value == e.setMin)
  {
    if e.risMin > MAX_UTC then Some(e.risMin)
    else if e.risMax > MAX_UTC then Some(e.risMax)
    else if e.setMax > MAX_UTC then Some(e.setMax)
    else if e.setMin > MAX_UTC then Some(e.setMin)
    else None
  }

  /** The conversion of a territory's days into the lists `x1`, `dx1` (outer
      bars) and `x2`, `dx2` (inner bars): both bars of every day, or the first
      counter, day by day, that `utcfromtimestamp` refuses. */
  function EncodeDays(days: seq<Counters>): (r: Result<(seq<Bar>, seq<Bar>), ChartError>)
    ensures r.Ok? ==> |r.value.0| == |days| && |r.value.1| == |days|
    decreases |days|
  {
    if days == [] then Ok(([], []))
    else
      match EncodeDays(days[..|days| - 1])
      case Err(e) => Err(e)
      case Ok(bars) =>
        var last := days[|days| - 1];
        match Unconvertible(last)
        case Some(t) => Err(DateOutOfRange(t))
        case None => Ok((bars.0 + [OuterBar(last)], bars.1 + [InnerBar(last)]))
  }

  /** The conversion succeeds exactly when every day's counters convert, and
      then gives both bars of every day; otherwise it fails with the first
      refused counter of the first day that has one. */
  lemma {:induction false} EncodeDaysMeaning(days: seq<Counters>)
    ensures EncodeDays(days).Ok? <==> forall i | 0 <= i < |days| :: Unconvertible(days[i]).None?
    ensures var r := EncodeDays(days);
            r.Ok? ==> && |r.value.0| == |days| && |r.value.1| == |days|
                      && forall i | 0 <= i < |days| :: r.value.0[i] == OuterBar(days[i]) && r.value.1[i] == InnerBar(days[i])
    ensures var r := EncodeDays(days);
            r.Err? ==> exists i | 0 <= i < |days| :: && Unconvertible(days[i]).Some?
                                                     && r.error == DateOutOfRange(Unconvertible(days[i]).value)
                                                     && forall d | 0 <= d < i :: Unconvertible(days[d]).None?
    decreases |days|
  {
    if days != [] {
      var init := days[..|days| - 1];
      EncodeDaysMeaning(init);
      assert forall i | 0 <= i < |init| :: init[i] == days[i];
    }
  }

  lemma {:induction false} EncodeErrorSticks(days: seq<Counters>, m: nat)
    requires m <= |days|
    requires EncodeDays(days[..m]).Err?
    ensures EncodeDays(days) == EncodeDays(days[..m])
    decreases |days| - m
  {
    if m < |days| {
      assert days[..m + 1][..m] == days[..m];
      EncodeErrorSticks(days, m + 1);
    } else {
      assert days[..m] == days;
    }
  }

  /** The conversion loop over the four arrays. */
  method EncodeBars(cols: Columns, n: nat) returns (r: Result<(seq<Bar>, seq<Bar>), ChartError>)
    requires cols.WellFormed(n)
    ensures r == EncodeDays(cols.Days(n))
  {
    ghost var days := cols.Days(n);
    var outer: seq<Bar>, inner: seq<Bar> := [], [];
    for i := 0 to n
      invariant EncodeDays(days[..i]) == Ok((outer, inner))
    {
      assert days[..i + 1] == days[..i] + [cols.Day(i)];
      var x1: int, x2: int := cols.risMins[i], cols.risMaxs[i];
      var bad := Unconvertible(cols.Day(i));
      if bad.Some? {
        EncodeErrorSticks(days, i + 1);
        return Err(DateOutOfRange(bad.value));
      }
      outer := outer + [Bar(x1, cols.setMaxs[i] - x1)];
      inner := inner + [Bar(x2, cols.setMins[i] - x2)];
    }
    assert days[..n] == days;
    r := Ok((outer, inner));
  }

  /** One row of the chart: its index `j`, the territory's name (the inner
      bars' label) and the two bars of every day. */
  datatype Row = Row(index: nat, name: string, outer: seq<Bar>, inner: seq<Bar>)

  /** The x-range shown, in seconds. */
  datatype Window = Window(from: int, until: int)

  datatype Chart = Chart(rows: seq<Row>, window: Window)

  /** A territory: its name and its coordinate list from the database. */
  type Territory = (string, seq<Coord>)

  /** Row `j` of a chart of `count` territories: the survey, the conversion of
      its counters, then the two `barh` calls, whose colour
      `float(j) / float(count - 1)` divides by zero when `count` is 1. */
  function TerritoryRow(sky: Sky, j: nat, t: Territory, n: nat, count: nat): (r: Result<Row, ChartError>)
    ensures r.Ok? ==> |r.value.outer| == n && |r.value.inner| == n
  {
    match Survey(sky, t.1, n)
    case Err(e) => Err(SolverRaised(e))
    case Ok(days) =>
      match EncodeDays(days)
      case Err(e) => Err(e)
      case Ok(bars) =>
        if count - 1 == 0 then Err(ColourRampByZero)
        else Ok(Row(j, t.0, bars.0, bars.1))
  }

  /** A row is drawn exactly when its survey completes, every day's counters
      convert and there is more than one territory; its bars for day `i` are
      those of day `i`'s counters. */
  lemma RowMeaning(sky: Sky, j: nat, t: Territory, n: nat, count: nat)
    ensures Survey(sky, t.1, n).Err? ==> TerritoryRow(sky, j, t, n, count) == Err(SolverRaised(Survey(sky, t.1, n).error))
    ensures TerritoryRow(sky, j, t, n, count).Ok? ==>
              TerritoryRow(sky, j, t, n, count).value.index == j && TerritoryRow(sky, j, t, n, count).value.name == t.0
    ensures TerritoryRow(sky, j, t, n, count).Ok? <==>
              && Survey(sky, t.1, n).Ok? && count != 1
              && forall i | 0 <= i < n :: Unconvertible(Survey(sky, t.1, n).value[i]).None?
    ensures var r := TerritoryRow(sky, j, t, n, count);
            r.Ok? ==> && |r.value.outer| == n && |r.value.inner| == n
                      && forall i | 0 <= i < n ::
                           && DayFold(sky, t.1, DayStart(i)).Ok?
                           && r.value.outer[i] == OuterBar(DayFold(sky, t.1, DayStart(i)).value)
                           && r.value.inner[i] == InnerBar(DayFold(sky, t.1, DayStart(i)).value)
  {
    if Survey(sky, t.1, n).Ok? {
      EncodeDaysMeaning(Survey(sky, t.1, n).value);
    }
  }

  /** The rows of a chart of `count` territories, one per territory of `ts` in
      the order given; the first territory that raises aborts the chart. */
  function Rows(sky: Sky, ts: seq<Territory>, n: nat, count: nat): (r: Result<seq<Row>, ChartError>)
    ensures r.Ok? ==> |r.value| == |ts|
    ensures r.Ok? ==> forall k | 0 <= k < |ts| :: TerritoryRow(sky, k, ts[k], n, count) == Ok(r.value[k])
    ensures r.Ok? <==> forall k | 0 <= k < |ts| :: TerritoryRow(sky, k, ts[k], n, count).Ok?
    decreases |ts|
  {
    if ts == [] then Ok([])
    else
      var init := ts[..|ts| - 1];
      assert forall k | 0 <= k < |init| :: init[k] == ts[k];
      match Rows(sky, init, n, count)
      case Err(e) => Err(e)
      case Ok(rows) =>
        match TerritoryRow(sky, |ts| - 1, ts[|ts| - 1], n, count)
        case Err(e) => Err(e)
        case Ok(row) =>
          assert forall k | 0 <= k < |rows| :: (rows + [row])[k] == rows[k];
          Ok(rows + [row])
  }

  /** A failed chart fails with the error of the first territory whose row
      fails. */
  lemma {:induction false} RowsFirstError(sky: Sky, ts: seq<Territory>, n: nat, count: nat)
    requires Rows(sky, ts, n, count).Err?
    ensures exists k | 0 <= k < |ts| :: && TerritoryRow(sky, k, ts[k], n, count) == Err(Rows(sky, ts, n, count).error)
                                        && forall d | 0 <= d < k :: TerritoryRow(sky, d, ts[d], n, count).Ok?
    decreases |ts|
  {
    var init := ts[..|ts| - 1];
    if Rows(sky, init, n, count).Err? {
      RowsFirstError(sky, init, n, count);
      var k :| && 0 <= k < |init| && TerritoryRow(sky, k, init[k], n, count) == Err(Rows(sky, init, n, count).error)
               && forall d | 0 <= d < k :: TerritoryRow(sky, d, init[d], n, count).Ok?;
      assert init[k] == ts[k];
      assert forall d | 0 <= d < k :: init[d] == ts[d];
    } else {
      assert forall d | 0 <= d < |init| :: init[d] == ts[d];
      assert TerritoryRow(sky, |ts| - 1, ts[|ts| - 1], n, count).Err?;
    }
  }

  lemma {:induction false} RowsErrorSticks(sky: Sky, ts: seq<Territory>, m: nat, n: nat, count: nat)
    requires m <= |ts|
    requires Rows(sky, ts[..m], n, count).Err?
    ensures Rows(sky, ts, n, count) == Rows(sky, ts[..m], n, count)
    decreases |ts| - m
  {
    if m < |ts| {
      assert ts[..m + 1][..m] == ts[..m];
      RowsErrorSticks(sky, ts, m + 1, n, count);
    } else {
      assert ts[..m] == ts;
    }
  }

  /** The x-range: from the start of day 1 to the start of day `n - 2`. It
      covers the start of day `i` exactly when `1 <= i <= n - 2`. */
  function DisplayWindow(n: nat): (w: Window)
    ensures forall i :: w.from <= DayStart(i) <= w.until <==> 1 <= i <= n - 2
  {
    forall i ensures Window(DayStart(1), DayStart(n - 2)).from <= DayStart(i) <= Window(DayStart(1), DayStart(n - 2)).until
                     <==> 1 <= i <= n - 2 {
      DayStartMonotone(1, i);
      DayStartMonotone(i, n - 2);
    }
    Window(DayStart(1), DayStart(n - 2))
  }

  /** `ax.set_xlim` as written: it reads `d0`, which only the body of the loop
      over territories binds. */
  function XRange(d0: Option<int>, n: nat): (r: Result<Window, ChartError>)
    ensures d0.None? ==> r == Err(StartDateUnbound)
    ensures d0 == Some(D0) ==> r == Ok(DisplayWindow(n))
  {
    match d0
    case None => Err(StartDateUnbound)
    case Some(d) => Ok(Window(d + DAY, d + (n - 2) * DAY))
  }

  /** The chart the loop over territories draws, with the x-range taken from
      the fixed start date whether or not the loop ran. */
  function Drawn(sky: Sky, ts: seq<Territory>, n: nat): (r: Result<Chart, ChartError>)
    ensures r.Ok? <==> Rows(sky, ts, n, |ts|).Ok?
    ensures r.Err? ==> r.error == Rows(sky, ts, n, |ts|).error
    ensures r.Ok? ==> r.value.rows == Rows(sky, ts, n, |ts|).value
    ensures r.Ok? ==> && r.value.window == DisplayWindow(n) && |r.value.rows| == |ts|
                      && forall k | 0 <= k < |ts| :: r.value.rows[k].index == k && r.value.rows[k].name == ts[k].0
  {
    match Rows(sky, ts, n, |ts|)
    case Err(e) => Err(e)
    case Ok(rows) => Ok(Chart(rows, DisplayWindow(n)))
  }

  /** With the x-range taken from the fixed start date, no territory gives an
      empty chart rather than an error. */
  lemma NoTerritoryDrawn(sky: Sky, n: nat)
    ensures Drawn(sky, [], n) == Ok(Chart([], DisplayWindow(n)))
  {
  }

  /** One pass of the loop over territories: survey territory `t` into the
      four arrays, convert them into bars, then plot them on row `j`. */
  method PlotTerritory(sky: Sky, j: nat, t: Territory, n: nat, count: nat) returns (r: Result<Row, ChartError>)
    ensures r == TerritoryRow(sky, j, t, n, count)
  {
    var cols := SurveyTerritory(sky, t.1, n);
    if cols.Err? {
      return Err(SolverRaised(cols.error));
    }
    assert cols.value.Days(n) == Survey(sky, t.1, n).value;
    var bars := EncodeBars(cols.value, n);
    if bars.Err? {
      return Err(bars.error);
    }
    if count - 1 == 0 {
      return Err(ColourRampByZero);
    }
    r := Ok(Row(j, t.0, bars.value.0, bars.value.1));
  }

  /** Drawn rows make the corrected chart. */
  lemma DrawnFromRows(sky: Sky, ts: seq<Territory>, n: nat, rows: seq<Row>)
    requires Rows(sky, ts, n, |ts|) == Ok(rows)
    ensures Drawn(sky, ts, n) == Ok(Chart(rows, DisplayWindow(n)))
  {
  }

  /** `create_timeline` as written: the loop over territories with the row
      counter `j`, which binds `d0` on every pass; the x-range is set from
      `d0` after the loop. */
  method CreateTimeline(sky: Sky, territories: seq<Territory>, n: nat) returns (r: Result<Chart, ChartError>)
    ensures |territories| == 0 ==> r == Err(StartDateUnbound)
    ensures |territories| > 0 ==> r == Drawn(sky, territories, n)
    ensures |territories| == 1 ==> r.Err?
  {
    if |territories| == 1 {
      SingleTerritoryRaises(sky, territories[0], n);
      assert territories == [territories[0]];
    }
    var rows: seq<Row> := [];
    var d0: Option<int> := None;
    var j := 0;
    for t := 0 to |territories|
      invariant j == t
      invariant d0 == if t == 0 then None else Some(D0)
      invariant Rows(sky, territories[..t], n, |territories|) == Ok(rows)
    {
      assert territories[..t + 1][..t] == territories[..t];
      d0 := Some(D0);
      var row := PlotTerritory(sky, j, territories[t], n, |territories|);
      if row.Err? {
        RowsErrorSticks(sky, territories, t + 1, n, |territories|);
        return Err(row.error);
      }
      rows := rows + [row.value];
      j := j + 1;
    }
    assert territories[..|territories|] == territories;
    var window := XRange(d0, n);
    if window.Err? {
      return Err(window.error);
    }
    DrawnFromRows(sky, territories, n, rows);
    r := Ok(Chart(rows, window.value));
  }

  // ---------------------------------------------------------------------------
  // What the bars of a chart mean.

  /** The counters behind row `k`'s bars for day `i`. */
  lemma RowDay(sky: Sky, ts: seq<Territory>, n: nat, k: nat, i: nat)
    requires Rows(sky, ts, n, |ts|).Ok?
    requires k < |ts| && i < n
    ensures DayFold(sky, ts[k].1, DayStart(i)).Ok?
    ensures var row := Rows(sky, ts, n, |ts|).value[k];
            var e := DayFold(sky, ts[k].1, DayStart(i)).value;
            |row.outer| == n && |row.inner| == n && row.outer[i] == OuterBar(e) && row.inner[i] == InnerBar(e)
  {
    RowMeaning(sky, k, ts[k], n, |ts|);
  }

  /** A day on which no coordinate of a territory contributed keeps the seed
      `2**62` in its min counters, which `utcfromtimestamp` refuses: the row,
      and with it the chart, is never drawn. */
  lemma EmptyDayAborts(sky: Sky, ts: seq<Territory>, n: nat, k: nat, i: nat)
    requires k < |ts| && i < n
    requires Survey(sky, ts[k].1, n).Ok?
    requires !SomeContribute(sky, ts[k].1, DayStart(i))
    ensures Survey(sky, ts[k].1, n).value[i] == Initial
    ensures TerritoryRow(sky, k, ts[k], n, |ts|).Err?
    ensures Rows(sky, ts, n, |ts|).Err?
  {
    NothingContributes(sky, ts[k].1, DayStart(i));
    assert Unconvertible(Initial) == Some(SEED);
    RowMeaning(sky, k, ts[k], n, |ts|);
  }

  /** Hence on every day of a drawn chart some coordinate of each territory
      contributed a sunrise and a sunset. */
  lemma DrawnDaysContribute(sky: Sky, ts: seq<Territory>, n: nat, k: nat, i: nat)
    requires Rows(sky, ts, n, |ts|).Ok?
    requires k < |ts| && i < n
    ensures SomeContribute(sky, ts[k].1, DayStart(i))
  {
    if !SomeContribute(sky, ts[k].1, DayStart(i)) {
      EmptyDayAborts(sky, ts, n, k, i);
    }
  }

  /** A chart of one territory is never drawn. */
  lemma SingleTerritoryRaises(sky: Sky, t: Territory, n: nat)
    ensures Rows(sky, [t], n, 1).Err?
  {
    assert TerritoryRow(sky, 0, [t][0], n, 1).Err?;
  }

  /** On every day of a drawn chart the inner bar is no wider than the outer
      one, and with a sound solver the outer bar has a non-negative width. */
  lemma BarsNested(sky: Sky, ts: seq<Territory>, n: nat, k: nat, i: nat)
    requires Rows(sky, ts, n, |ts|).Ok?
    requires k < |ts| && i < n
    ensures Rows(sky, ts, n, |ts|).value[k].inner[i].width <= Rows(sky, ts, n, |ts|).value[k].outer[i].width
    ensures Sound(sky) ==> Rows(sky, ts, n, |ts|).value[k].outer[i].width >= 0
  {
    RowDay(sky, ts, n, k, i);
    DrawnDaysContribute(sky, ts, n, k, i);
    Nested(sky, ts[k].1, DayStart(i));
    if Sound(sky) {
      RiseBeforeSet(sky, ts[k].1, DayStart(i));
    }
  }

  /** A territory of a single coordinate has identical outer and inner bars on
      every day of a drawn chart. */
  lemma SinglePointBars(sky: Sky, ts: seq<Territory>, n: nat, k: nat, i: nat)
    requires Rows(sky, ts, n, |ts|).Ok?
    requires k < |ts| && i < n
    requires |ts[k].1| == 1
    ensures Rows(sky, ts, n, |ts|).value[k].outer[i] == Rows(sky, ts, n, |ts|).value[k].inner[i]
  {
    var coords, start := ts[k].1, DayStart(i);
    RowDay(sky, ts, n, k, i);
    DrawnDaysContribute(sky, ts, n, k, i);
    RowMeaning(sky, k, ts[k], n, |ts|);
    assert coords == [coords[0]];
    var o := Observe(sky, coords[0], start);
    assert o.Pair?;
    assert coords[..0] == [];
    var e := DayFold(sky, coords, start).value;
    assert e == Fold(Initial, o.rise, o.sunset);
    assert Unconvertible(Survey(sky, coords, n).value[i]).None?;
    assert e.risMin <= MAX_UTC && e.setMin <= MAX_UTC;
  }
}
