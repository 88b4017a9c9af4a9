/** The per-day reduction of one territory's coordinates to four counters:
    earliest and latest sunrise, earliest and latest sunset. */
module Envelope {
  import opened Base
  import opened Ephem

  /** `2**62`, the value the two minimum counters start from. */
  const SEED: Seconds := 0x4000_0000_0000_0000

  datatype Counters = Counters(risMin: Seconds, risMax: Seconds, setMin: Seconds, setMax: Seconds)

  /** The counters before any coordinate is seen: the mins hold the seed, the
      maxes the zero that `numpy.zeros` left in them. */
  const Initial: Counters := Counters(SEED, 0, SEED, 0)

  /** One coordinate's (rise, set) pair folded into the counters with min/max. */
  function Fold(acc: Counters, rise: Seconds, sunset: Seconds): Counters
  {
    Counters(Min(rise, acc.risMin), Max(rise, acc.risMax), Min(sunset, acc.setMin), Max(sunset, acc.setMax))
  }

  /** The counters after the loop over `coords` for the day that starts at
      `start`, in the loop's order; the first exception that escapes aborts it. */
  function DayFold(sky: Sky, coords: seq<Coord>, start: int): Result<Counters, Failure>
    decreases |coords|
  {
    if coords == [] then Ok(Initial)
    else
      match DayFold(sky, coords[..|coords| - 1], start)
      case Err(e) => Err(e)
      case Ok(acc) =>
        match Observe(sky, coords[|coords| - 1], start)
        case Pair(r, s) => Ok(Fold(acc, r, s))
        case Skipped => Ok(acc)
        case Raised(e) => Err(e)
  }

  // ---------------------------------------------------------------------------
  // Reference definition: the counters as seeded min/max over the SET of
  // contributed instants, independent of the order of the coordinates.

  ghost function Rises(sky: Sky, coords: seq<Coord>, start: int): set<Seconds>
  {
    set c | c in coords && Observe(sky, c, start).Pair? :: Observe(sky, c, start).rise
  }

  ghost function Sets(sky: Sky, coords: seq<Coord>, start: int): set<Seconds>
  {
    set c | c in coords && Observe(sky, c, start).Pair? :: Observe(sky, c, start).sunset
  }

  /** `m` is the least of `xs` and `seed`. */
  ghost predicate IsSeededMin(m: int, seed: int, xs: set<Seconds>)
  {
    m <= seed && (forall x | x in xs :: m <= x) && (m == seed || m in xs)
  }

  /** `m` is the greatest of `xs` and `seed`. */
  ghost predicate IsSeededMax(m: int, seed: int, xs: set<Seconds>)
  {
    m >= seed && (forall x | x in xs :: m >= x) && (m == seed || m in xs)
  }

  ghost predicate Summarises(e: Counters, rises: set<Seconds>, sets: set<Seconds>)
  {
    && IsSeededMin(e.risMin, SEED, rises) && IsSeededMax(e.risMax, 0, rises)
    && IsSeededMin(e.setMin, SEED, sets) && IsSeededMax(e.setMax, 0, sets)
  }

  /** Some coordinate yields a (rise, set) pair on that day. */
  ghost predicate SomeContribute(sky: Sky, coords: seq<Coord>, start: int)
  {
    exists c | c in coords :: Observe(sky, c, start).Pair?
  }

  // ---------------------------------------------------------------------------
  // Lemmas about the fold.

  lemma {:induction false} RisesOfSnoc(sky: Sky, coords: seq<Coord>, c: Coord, start: int)
    ensures Rises(sky, coords + [c], start)
            == Rises(sky, coords, start) + (if Observe(sky, c, start).Pair? then {Observe(sky, c, start).rise} else {})
    ensures Sets(sky, coords + [c], start)
            == Sets(sky, coords, start) + (if Observe(sky, c, start).Pair? then {Observe(sky, c, start).sunset} else {})
  {
    var s := coords + [c];
    forall d ensures d in s <==> d in coords || d == c {
      if d in s {
        var k :| 0 <= k < |s| && s[k] == d;
        if k < |coords| { assert coords[k] == d; }
      }
      if d in coords {
        var k :| 0 <= k < |coords| && coords[k] == d;
        assert s[k] == d;
      }
      if d == c { assert s[|coords|] == c; }
    }
  }

  /** The fold aborts exactly when some coordinate raises. */
  lemma {:induction false} FoldOkIff(sky: Sky, coords: seq<Coord>, start: int)
    ensures DayFold(sky, coords, start).Ok? <==> forall c | c in coords :: !Observe(sky, c, start).Raised?
  {
    if coords != [] {
      var p := coords[..|coords| - 1];
      var last := coords[|coords| - 1];
      assert coords == p + [last];
      FoldOkIff(sky, p, start);
      forall c ensures c in coords <==> c in p || c == last {
        if c in coords {
          var k :| 0 <= k < |coords| && coords[k] == c;
          if k < |p| { assert p[k] == c; }
        }
      }
    }
  }

  /** The loop's counters are the seeded min/max of the contributed instants:
      the min counters never exceed `2**62`, the max counters never fall below 0. */
  lemma {:induction false} FoldSummarises(sky: Sky, coords: seq<Coord>, start: int)
    requires DayFold(sky, coords, start).Ok?
    ensures Summarises(DayFold(sky, coords, start).value, Rises(sky, coords, start), Sets(sky, coords, start))
  {
    if coords == [] {
      assert Rises(sky, coords, start) == {};
      assert Sets(sky, coords, start) == {};
    } else {
      var p := coords[..|coords| - 1];
      var last := coords[|coords| - 1];
      assert coords == p + [last];
      FoldSummarises(sky, p, start);
      RisesOfSnoc(sky, p, last, start);
      var acc := DayFold(sky, p, start).value;
      match Observe(sky, last, start)
      case Pair(r, s) =>
        FoldStep(acc, Rises(sky, p, start), Sets(sky, p, start), r, s);
      case Skipped =>
        assert DayFold(sky, coords, start).value == acc;
    }
  }

  /** One min/max step keeps the counters the seeded min/max of the instants seen. */
  lemma FoldStep(acc: Counters, rises: set<Seconds>, sets: set<Seconds>, r: Seconds, s: Seconds)
    requires Summarises(acc, rises, sets)
    ensures Summarises(Fold(acc, r, s), rises + {r}, sets + {s})
  {
  }

  lemma SeededMinUnique(a: int, b: int, seed: int, xs: set<Seconds>)
    requires IsSeededMin(a, seed, xs) && IsSeededMin(b, seed, xs)
    ensures a == b
  {
  }

  lemma SeededMaxUnique(a: int, b: int, seed: int, xs: set<Seconds>)
    requires IsSeededMax(a, seed, xs) && IsSeededMax(b, seed, xs)
    ensures a == b
  {
  }

  /** Reordering (or duplicating) the coordinates changes nothing: the fold
      aborts for both orders or for neither, and the counters agree. */
  lemma OrderIndependent(sky: Sky, a: seq<Coord>, b: seq<Coord>, start: int)
    requires multiset(a) == multiset(b)
    ensures DayFold(sky, a, start).Ok? <==> DayFold(sky, b, start).Ok?
    ensures DayFold(sky, a, start).Ok? ==> DayFold(sky, a, start) == DayFold(sky, b, start)
  {
    forall c ensures c in a <==> c in b {
      assert c in a <==> c in multiset(a);
      assert c in b <==> c in multiset(b);
    }
    FoldOkIff(sky, a, start);
    FoldOkIff(sky, b, start);
    if DayFold(sky, a, start).Ok? {
      FoldSummarises(sky, a, start);
      FoldSummarises(sky, b, start);
      assert Rises(sky, a, start) == Rises(sky, b, start);
      assert Sets(sky, a, start) == Sets(sky, b, start);
      var ea, eb := DayFold(sky, a, start).value, DayFold(sky, b, start).value;
      SeededMinUnique(ea.risMin, eb.risMin, SEED, Rises(sky, a, start));
      SeededMaxUnique(ea.risMax, eb.risMax, 0, Rises(sky, a, start));
      SeededMinUnique(ea.setMin, eb.setMin, SEED, Sets(sky, a, start));
      SeededMaxUnique(ea.setMax, eb.setMax, 0, Sets(sky, a, start));
    }
  }

  /** A day on which no coordinate contributes keeps the seeds. */
  lemma NothingContributes(sky: Sky, coords: seq<Coord>, start: int)
    requires DayFold(sky, coords, start).Ok?
    requires !SomeContribute(sky, coords, start)
    ensures DayFold(sky, coords, start).value == Initial
  {
    FoldSummarises(sky, coords, start);
    assert Rises(sky, coords, start) == {};
    assert Sets(sky, coords, start) == {};
  }

  /** With every contributed instant below `2**62`, the counters are the exact
      minimum and maximum of the contributed sunrises and sunsets. */
  lemma ExactExtremes(sky: Sky, coords: seq<Coord>, start: int)
    requires DayFold(sky, coords, start).Ok?
    requires SomeContribute(sky, coords, start)
    requires forall c | c in coords && Observe(sky, c, start).Pair? ::
               Observe(sky, c, start).rise < SEED && Observe(sky, c, start).sunset < SEED
    ensures var e := DayFold(sky, coords, start).value;
            var rs, ss := Rises(sky, coords, start), Sets(sky, coords, start);
            && e.risMin in rs && e.risMax in rs && e.setMin in ss && e.setMax in ss
            && (forall r | r in rs :: e.risMin <= r <= e.risMax)
            && (forall s | s in ss :: e.setMin <= s <= e.setMax)
  {
    FoldSummarises(sky, coords, start);
    var c :| c in coords && Observe(sky, c, start).Pair?;
    var o := Observe(sky, c, start);
    assert o.rise in Rises(sky, coords, start);
    assert o.sunset in Sets(sky, coords, start);
  }

  /** Once something contributed, earliest <= latest for both sunrise and sunset,
      so the inner bar is never wider than the outer one. */
  lemma Nested(sky: Sky, coords: seq<Coord>, start: int)
    requires DayFold(sky, coords, start).Ok?
    requires SomeContribute(sky, coords, start)
    ensures var e := DayFold(sky, coords, start).value;
            && e.risMin <= e.risMax && e.setMin <= e.setMax
            && e.setMin - e.risMax <= e.setMax - e.risMin
  {
    FoldSummarises(sky, coords, start);
    var c :| c in coords && Observe(sky, c, start).Pair?;
    var o := Observe(sky, c, start);
    assert o.rise in Rises(sky, coords, start);
    assert o.sunset in Sets(sky, coords, start);
  }

  /** Given a sound solver, every contributed sunrise is at or after the start
      of the day and at or before its own sunset, so once something contributed
      the earliest sunrise is no later than the latest sunset. */
  lemma RiseBeforeSet(sky: Sky, coords: seq<Coord>, start: int)
    requires Sound(sky)
    requires DayFold(sky, coords, start).Ok?
    requires SomeContribute(sky, coords, start)
    ensures forall c | c in coords && Observe(sky, c, start).Pair? ::
              start <= Observe(sky, c, start).rise <= Observe(sky, c, start).sunset
    ensures DayFold(sky, coords, start).value.risMin <= DayFold(sky, coords, start).value.setMax
  {
    FoldSummarises(sky, coords, start);
    var c :| c in coords && Observe(sky, c, start).Pair?;
    var o := Observe(sky, c, start);
    assert o.rise in Rises(sky, coords, start);
    assert o.sunset in Sets(sky, coords, start);
  }

  /** When every contributing coordinate yields the same pair (one coordinate,
      or several coinciding ones), earliest and latest coincide. */
  lemma SinglePair(sky: Sky, coords: seq<Coord>, start: int, r: Seconds, s: Seconds)
    requires r < SEED && s < SEED
    requires DayFold(sky, coords, start).Ok?
    requires SomeContribute(sky, coords, start)
    requires forall c | c in coords && Observe(sky, c, start).Pair? :: Observe(sky, c, start) == Pair(r, s)
    ensures DayFold(sky, coords, start).value == Counters(r, r, s, s)
  {
    FoldSummarises(sky, coords, start);
    var c :| c in coords && Observe(sky, c, start).Pair?;
    assert Rises(sky, coords, start) == {r};
    assert Sets(sky, coords, start) == {s};
  }

  /** A coordinate whose sunrise or sunset query answered `AlwaysUp` leaves the
      day's result exactly as if it were not in the list, wherever it stands. */
  lemma {:induction false} SkippedChangesNothing(sky: Sky, a: seq<Coord>, c: Coord, b: seq<Coord>, start: int)
    requires Observe(sky, c, start).Skipped?
    ensures DayFold(sky, a + [c] + b, start) == DayFold(sky, a + b, start)
    decreases |b|
  {
    if b == [] {
      assert (a + [c] + b)[..|a + [c] + b| - 1] == a;
      assert (a + [c] + b)[|a + [c] + b| - 1] == c;
      assert a + b == a;
    } else {
      var b', x := b[..|b| - 1], b[|b| - 1];
      assert (a + [c] + b)[..|a + [c] + b| - 1] == a + [c] + b';
      assert (a + b)[..|a + b| - 1] == a + b';
      assert (a + [c] + b)[|a + [c] + b| - 1] == x;
      assert (a + b)[|a + b| - 1] == x;
      SkippedChangesNothing(sky, a, c, b', start);
    }
  }

  /** Once a coordinate has raised, the rest of the loop never runs. */
  lemma {:induction false} ErrorSticks(sky: Sky, coords: seq<Coord>, k: nat, start: int)
    requires k <= |coords|
    requires DayFold(sky, coords[..k], start).Err?
    ensures DayFold(sky, coords, start) == DayFold(sky, coords[..k], start)
    decreases |coords| - k
  {
    if k < |coords| {
      assert coords[..k + 1][..k] == coords[..k];
      ErrorSticks(sky, coords, k + 1, start);
    } else {
      assert coords[..k] == coords;
    }
  }
}
