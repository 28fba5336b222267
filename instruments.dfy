/**
  The two kinds of Prometheus instrument the notifiers update, reduced to what they
  record: a counter vector keeps one count per tuple of label values, a histogram
  vector keeps the observations made at each tuple. Each vector has a fixed list of
  label names, and an update must give one value per name (the client library
  panics otherwise), so every recorded tuple has the registered schema.
 */
module Instruments {

  /** Label values, in the order of the vector's label names. */
  type LabelValues = seq<string>

  /** A `time.Duration`: a count of nanoseconds. */
  type Duration = int

  /** The count at a tuple; zero where nothing was recorded. */
  function Count(cells: map<LabelValues, nat>, values: LabelValues): nat {
    if values in cells then cells[values] else 0
  }

  /** The observations at a tuple, oldest first; empty where nothing was recorded. */
  function Series(cells: map<LabelValues, seq<Duration>>, values: LabelValues): seq<Duration> {
    if values in cells then cells[values] else []
  }

  /** The cells after one increment at `values`. */
  function Incremented(cells: map<LabelValues, nat>, values: LabelValues): map<LabelValues, nat> {
    cells[values := Count(cells, values) + 1]
  }

  /** The cells after one observation `d` at `values`. */
  function Observed(cells: map<LabelValues, seq<Duration>>, values: LabelValues, d: Duration)
    : map<LabelValues, seq<Duration>>
  {
    cells[values := Series(cells, values) + [d]]
  }

  /** An increment adds one at its own tuple and leaves every other tuple's count alone. */
  lemma IncrementedCount(cells: map<LabelValues, nat>, values: LabelValues, other: LabelValues)
    ensures Count(Incremented(cells, values), other)
         == Count(cells, other) + (if other == values then 1 else 0)
  {
  }

  /** An observation is appended at its own tuple; every other tuple keeps its series. */
  lemma ObservedSeries(cells: map<LabelValues, seq<Duration>>, values: LabelValues, d: Duration,
                       other: LabelValues)
    ensures Series(Observed(cells, values, d), other)
         == Series(cells, other) + (if other == values then [d] else [])
  {
  }

  class CounterVec {
    const labelNames: seq<string>
    var cells: map<LabelValues, nat>

    constructor (labelNames: seq<string>)
      ensures this.labelNames == labelNames && cells == map[]
    {
      this.labelNames := labelNames;
      cells := map[];
    }

    /** `WithLabelValues(values...).Inc()`. */
    method Inc(values: LabelValues)
      requires |values| == |labelNames|
      modifies this
      ensures cells == Incremented(old(cells), values)
    {
      cells := cells[values := Count(cells, values) + 1];
    }
  }

  class HistogramVec {
    const labelNames: seq<string>
    var cells: map<LabelValues, seq<Duration>>

    constructor (labelNames: seq<string>)
      ensures this.labelNames == labelNames && cells == map[]
    {
      this.labelNames := labelNames;
      cells := map[];
    }

    /** `WithLabelValues(values...).Observe(d)`. */
    method Observe(values: LabelValues, d: Duration)
      requires |values| == |labelNames|
      modifies this
      ensures cells == Observed(old(cells), values, d)
    {
      cells := cells[values := Series(cells, values) + [d]];
    }
  }
}
