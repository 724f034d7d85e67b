/**
 * The Prometheus remote read/write protocol types the adapter consumes and
 * produces (package prompb). Only the fields the adapter touches are kept.
 */
module Prompb {

  /**
   * A float64 sample value. No arithmetic is done on values anywhere in the
   * adapter; the only operation needed is the NaN test.
   */
  datatype Value = Finite(x: real) | PosInf | NegInf | NaN

  predicate IsNaN(v: Value) { v.NaN? }

  /** The float64 constant 0 written by `sample.Value = 0`. */
  const Zero: Value := Finite(0.0)

  datatype Label = Label(name: string, value: string)

  datatype Sample = Sample(value: Value, timestamp: int)

  datatype TimeSeries = TimeSeries(labels: seq<Label>, samples: seq<Sample>)

  /**
   * An int32 that is none of the named operators EQ = 0, NEQ = 1, RE = 2 and
   * NRE = 3.
   */
  type UnnamedCode = c: int | -0x8000_0000 <= c < 0x8000_0000 && (c < 0 || c > 3) witness 4

  /**
   * LabelMatcher_Type. The wire carries an int32, so a value outside the
   * four named operators can arrive; it is kept as `Unknown(code)`.
   */
  datatype MatchType = EQ | NEQ | RE | NRE | Unknown(code: UnnamedCode)

  datatype LabelMatcher = LabelMatcher(matchType: MatchType, name: string, value: string)

  datatype Query = Query(startTimestampMs: int, endTimestampMs: int, matchers: seq<LabelMatcher>)

  datatype QueryResult = QueryResult(timeseries: seq<TimeSeries>)
}
