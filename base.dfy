/** Vocabulary shared by the timeline and the coordinate database. */
module Base {

  /** A sample point in degrees, as the database stores it: `(lon, lat)`.
      Only comparisons are ever made on the components. */
  datatype Coord = Coord(lon: real, lat: real)

  const U64_LIMIT: int := 0x1_0000_0000_0000_0000

  /** Whole seconds since the POSIX epoch, as held by a `numpy.uint64` array. */
  type Seconds = t: int | 0 <= t < U64_LIMIT

  datatype Option<T> = None | Some(value: T) {
    function GetOr(default: T): T {
      match this
      case Some(v) => v
      case None => default
    }
  }

  /** The outcome of a computation that may raise. */
  datatype Result<T, E> = Ok(value: T) | Err(error: E)

  function Min(a: Seconds, b: Seconds): (m: Seconds)
    ensures m <= a && m <= b && (m == a || m == b)
  {
    if a <= b then a else b
  }

  function Max(a: Seconds, b: Seconds): (m: Seconds)
    ensures m >= a && m >= b && (m == a || m == b)
  {
    if a >= b then a else b
  }
}
