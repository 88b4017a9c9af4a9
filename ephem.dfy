/** The astronomical solver as the timeline uses it, and the rise-then-set query
    that the timeline makes for one coordinate on one day. */
module Ephem {
  import opened Base

  /** What one `next_rising` or `next_setting` query yields: an instant, or one
      of the two circumpolar exceptions (`AlwaysUpError`, `NeverUpError`). */
  datatype Outcome = Event(at: Seconds) | AlwaysUp | NeverUp

  datatype Query = Rising | Setting

  /** The observer, reduced to the two queries the timeline asks of it. Both are
      pure functions of the coordinate and the instant the search starts from:
      the timeline overwrites the observer's longitude and latitude before every
      query, so nothing else of the observer's state reaches the answer. */
  datatype Sky = Sky(nextRising: (Coord, int) -> Outcome, nextSetting: (Coord, int) -> Outcome)

  /** The one promise made about the solver: a reported event is never earlier
      than the instant the search started from. */
  ghost predicate Sound(sky: Sky)
  {
    && (forall c, t :: sky.nextRising(c, t).Event? ==> sky.nextRising(c, t).at >= t)
    && (forall c, t :: sky.nextSetting(c, t).Event? ==> sky.nextSetting(c, t).at >= t)
  }

  /** An exception that escapes the timeline: only `AlwaysUpError` is caught. */
  datatype Failure = NeverUpError(where: Coord, query: Query, after: int)

  /** What one coordinate contributes to one day: a (rise, set) pair, nothing
      (an `AlwaysUpError` was caught), or an exception that aborts the run. */
  datatype Sample = Pair(rise: Seconds, sunset: Seconds) | Skipped | Raised(error: Failure)

  /** The next sunrise after `start`, then the next sunset after that sunrise. */
  function Observe(sky: Sky, c: Coord, start: int): (s: Sample)
    ensures Sound(sky) && s.Pair? ==> start <= s.rise <= s.sunset
    ensures sky.nextRising(c, start) == NeverUp ==> s == Raised(NeverUpError(c, Rising, start))
    ensures sky.nextRising(c, start) == AlwaysUp ==> s == Skipped
    ensures s.Pair? ==> sky.nextRising(c, start) == Event(s.rise)
                        && sky.nextSetting(c, s.rise) == Event(s.sunset)
    ensures s.Skipped? <==> || sky.nextRising(c, start) == AlwaysUp
                            || (sky.nextRising(c, start).Event?
                                && sky.nextSetting(c, sky.nextRising(c, start).at) == AlwaysUp)
    ensures sky.nextRising(c, start).Event? && sky.nextSetting(c, sky.nextRising(c, start).at).Event? ==>
              s == Pair(sky.nextRising(c, start).at, sky.nextSetting(c, sky.nextRising(c, start).at).at)
    ensures sky.nextRising(c, start).Event? && sky.nextSetting(c, sky.nextRising(c, start).at) == NeverUp ==>
              s == Raised(NeverUpError(c, Setting, sky.nextRising(c, start).at))
    ensures s.Raised? <==> || sky.nextRising(c, start) == NeverUp
                           || (sky.nextRising(c, start).Event?
                               && sky.nextSetting(c, sky.nextRising(c, start).at) == NeverUp)
  {
    match sky.nextRising(c, start)
    case AlwaysUp => Skipped
    case NeverUp => Raised(NeverUpError(c, Rising, start))
    case Event(r) =>
      match sky.nextSetting(c, r)
      case AlwaysUp => Skipped
      case NeverUp => Raised(NeverUpError(c, Setting, r))
      case Event(s) => Pair(r, s)
  }

  /** A sun that never rises is not treated like one that never sets: either
      query answering `NeverUp` raises, whatever the other answers. */
  lemma NeverUpIsNotSkipped(sky: Sky, c: Coord, start: int)
    requires || sky.nextRising(c, start) == NeverUp
             || (sky.nextRising(c, start).Event?
                 && sky.nextSetting(c, sky.nextRising(c, start).at) == NeverUp)
    ensures Observe(sky, c, start).Raised?
    ensures Observe(sky, c, start).error.where == c
  {
  }
}
