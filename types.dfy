/** Values shared by every stage of the pipeline: dates, samples and channels. */
module Types {

  datatype Option<T> = None | Some(value: T)

  /** A month number as `time.Month` holds it for a real date: January is 1. */
  type Month = m: int | 1 <= m <= 12 witness 1

  /**
   * A `time.Time` as far as the pipeline looks at it: the calendar year and month,
   * and the position of the instant inside that month (any monotone measure, such
   * as nanoseconds since the first of the month).
   */
  datatype Date = Date(year: int, month: Month, ordinal: int)

  /** `a.Before(b)`: the instant a comes strictly earlier than b. */
  predicate Before(a: Date, b: Date) {
    || a.year < b.year
    || (a.year == b.year && a.month < b.month)
    || (a.year == b.year && a.month == b.month && a.ordinal < b.ordinal)
  }

  /** `time.Unix(0, 0)`, the initial value of the report's end date. */
  const Epoch: Date := Date(1970, 1, 0)

  /** One observation of a channel's public counters. */
  datatype Stats = Stats(recordedAt: Date, subscribers: int, views: int, videos: int)

  /** A channel as the statistics service returns it, with its samples. */
  datatype Channel = Channel(id: string, title: string, stats: seq<Stats>)

  /** `Before` is a strict total order on dates, which `sort.Slice` relies on. */
  lemma BeforeIsStrictTotalOrder(a: Date, b: Date, c: Date)
    ensures !Before(a, a)
    ensures Before(a, b) ==> !Before(b, a)
    ensures Before(a, b) && Before(b, c) ==> Before(a, c)
    ensures a != b ==> Before(a, b) || Before(b, a)
  {
  }
}
