/**
  Time-window selection of the ClickHouse analytics client
  (internal/server/analytics/clickhouse/client.go): the length of the queried
  time range decides the width of the buckets the evaluation counts are
  summed into.
 */
module ClickhouseStep {

  /** A signed 64-bit count of nanoseconds, as Go's `time.Duration`. */
  newtype Duration = d: int | -0x8000_0000_0000_0000 <= d < 0x8000_0000_0000_0000

  const Second: Duration := 1_000_000_000
  const Hour: Duration := 3_600_000_000_000

  /** The value and unit name of a bucket, as written into the interval of the query. */
  datatype Step = Step(intervalValue: int, intervalStep: string)

  /** The steps `getStepFromDuration` can return: a positive count of seconds or minutes. */
  predicate ValidStep(s: Step)
  {
    s.intervalValue > 0 && (s.intervalStep == "SECOND" || s.intervalStep == "MINUTE")
  }

  /** The bucket width for a queried range: fine buckets for short ranges,
      coarser ones as the range grows. */
  function StepFromDuration(from: Duration): (s: Step)
    ensures ValidStep(s)
  {
    if from <= Hour then Step(15, "SECOND")
    else if from > Hour && from <= 4 * Hour then Step(1, "MINUTE")
    else Step(15, "MINUTE")
  }

  /** The width of a bucket in seconds. */
  function WidthSeconds(s: Step): (w: int)
    requires ValidStep(s)
    ensures w > 0
  {
    if s.intervalStep == "SECOND" then s.intervalValue else 60 * s.intervalValue
  }

  /** The three ranges and their steps, each in both directions: at most an
      hour (zero and negative ranges included) gives 15-second buckets, more
      than one and at most four hours gives 1-minute buckets, anything longer
      gives 15-minute buckets. */
  lemma StepRanges(d: Duration)
    ensures StepFromDuration(d) == Step(15, "SECOND") <==> d <= Hour
    ensures StepFromDuration(d) == Step(1, "MINUTE") <==> Hour < d <= 4 * Hour
    ensures StepFromDuration(d) == Step(15, "MINUTE") <==> d > 4 * Hour
  {
  }

  /** A longer range never gets narrower buckets: widths 15 s, 60 s and
      900 s follow the range in order. */
  lemma WidthMonotone(d1: Duration, d2: Duration)
    requires d1 <= d2
    ensures WidthSeconds(StepFromDuration(d1)) <= WidthSeconds(StepFromDuration(d2))
  {
  }

  /** How many bucket widths a positive range spans, the last one possibly
      partial: an arithmetic count, not the number of rows the query returns,
      which depends on how the database aligns buckets to the clock. */
  function WidthsCovered(d: Duration): (n: int)
    requires d > 0
    ensures n >= 1
    ensures (n - 1) * WidthSeconds(StepFromDuration(d)) * (Second as int) < d as int
    ensures d as int <= n * WidthSeconds(StepFromDuration(d)) * (Second as int)
  {
    var w := WidthSeconds(StepFromDuration(d)) * (Second as int);
    (d as int + w - 1) / w
  }

  /** A range of up to four hours spans at most 240 bucket widths of the
      step chosen for it. */
  lemma WidthsCoveredBounded(d: Duration)
    requires 0 < d <= 4 * Hour
    ensures WidthsCovered(d) <= 240
  {
  }
}
