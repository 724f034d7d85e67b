/**
 * service/storage/elasticsearch/samples.go: the document codec. On the write
 * path every (series, sample) pair becomes one flat document carrying the
 * series' label set; on the read path flat documents are grouped back into
 * series by label-set fingerprint. The fingerprint is modelled as the label
 * set itself, so two documents share a series exactly when their label sets
 * are equal.
 */
module EsSamples {
  import Prompb

  /** model.Metric: label name to label value. */
  type LabelSet = map<string, string>

  /** Sample: the flat document stored in the index. */
  datatype Sample = Sample(labels: LabelSet, value: Prompb.Value, timestamp: int)

  // ---------------------------------------------------------------------
  // Label lists and label sets
  // ---------------------------------------------------------------------

  /** The label set a label list denotes: each label written in turn, so a later duplicate name wins. */
  ghost function Metric(labels: seq<Prompb.Label>): LabelSet
  {
    if |labels| == 0 then map[]
    else Metric(labels[..|labels| - 1])[labels[|labels| - 1].name := labels[|labels| - 1].value]
  }

  ghost function Names(labels: seq<Prompb.Label>): set<string>
  {
    set i | 0 <= i < |labels| :: labels[i].name
  }

  predicate DistinctNames(labels: seq<Prompb.Label>)
  {
    forall i, j :: 0 <= i < j < |labels| ==> labels[i].name != labels[j].name
  }

  /** The label set has one key per distinct label name. */
  lemma {:induction false} MetricKeys(labels: seq<Prompb.Label>)
    ensures Metric(labels).Keys == Names(labels)
  {
    if |labels| > 0 {
      var n := |labels|;
      var prefix := labels[..n - 1];
      MetricKeys(prefix);
      forall name | name in Names(labels) ensures name in Names(prefix) + {labels[n - 1].name} {
        var i :| 0 <= i < n && labels[i].name == name;
        if i < n - 1 { assert prefix[i] == labels[i]; }
      }
      forall name | name in Names(prefix) ensures name in Names(labels) {
        var i :| 0 <= i < n - 1 && prefix[i].name == name;
        assert labels[i] == prefix[i];
      }
    }
  }

  /** The value of a name is the value of its last occurrence in the list. */
  lemma {:induction false} MetricLastWins(labels: seq<Prompb.Label>, i: nat)
    requires i < |labels|
    requires forall j :: i < j < |labels| ==> labels[j].name != labels[i].name
    ensures labels[i].name in Metric(labels) && Metric(labels)[labels[i].name] == labels[i].value
  {
    var n := |labels|;
    if i < n - 1 {
      var prefix := labels[..n - 1];
      assert prefix[i] == labels[i];
      forall j | i < j < |prefix| ensures prefix[j].name != prefix[i].name {
        assert prefix[j] == labels[j];
      }
      MetricLastWins(prefix, i);
    }
  }

  /** The loop at the top of TimeSeries2Samples that fills a model.Metric from ts.Labels. */
  method BuildMetric(labels: seq<Prompb.Label>) returns (metric: LabelSet)
    ensures metric == Metric(labels)
  {
    metric := map[];
    for k := 0 to |labels|
      invariant metric == Metric(labels[..k])
    {
      assert labels[..k + 1][..k] == labels[..k];
      metric := metric[labels[k].name := labels[k].value];
    }
    assert labels[..|labels|] == labels;
  }

  /**
   * The loop that turns a series' label set back into a label list. Go's map
   * iteration order is unspecified; each step picks any remaining name.
   */
  method MetricLabels(metric: LabelSet) returns (labels: seq<Prompb.Label>)
    ensures DistinctNames(labels)
    ensures Metric(labels) == metric
    ensures |labels| == |metric|
  {
    labels := [];
    var rest := metric.Keys;
    while rest != {}
      invariant rest <= metric.Keys
      invariant DistinctNames(labels)
      invariant forall j :: 0 <= j < |labels| ==> labels[j].name !in rest
      invariant Metric(labels) == map k | k in metric.Keys - rest :: metric[k]
      invariant |labels| + |rest| == |metric|
      decreases |rest|
    {
      var name :| name in rest;
      var next := labels + [Prompb.Label(name, metric[name])];
      assert next[..|labels|] == labels;
      assert Metric(next) == Metric(labels)[name := metric[name]];
      labels := next;
      rest := rest - {name};
    }
  }

  // ---------------------------------------------------------------------
  // Flattening: TimeSeries2Samples
  // ---------------------------------------------------------------------

  /** A NaN value is stored as 0; every other value as it is. */
  function Normalize(v: Prompb.Value): Prompb.Value
  {
    if Prompb.IsNaN(v) then Prompb.Zero else v
  }

  /** The documents of one series: its label set on each of its samples, in order. */
  ghost function Docs(metric: LabelSet, samples: seq<Prompb.Sample>): seq<Sample>
  {
    if |samples| == 0 then []
    else
      var last := samples[|samples| - 1];
      Docs(metric, samples[..|samples| - 1]) + [Sample(metric, Normalize(last.value), last.timestamp)]
  }

  /** The documents of a batch: series by series. */
  ghost function Flatten(timeSeries: seq<Prompb.TimeSeries>): seq<Sample>
  {
    if |timeSeries| == 0 then []
    else
      var last := timeSeries[|timeSeries| - 1];
      Flatten(timeSeries[..|timeSeries| - 1]) + Docs(Metric(last.labels), last.samples)
  }

  /** The number of samples across a list of series. */
  function SampleCount(timeSeries: seq<Prompb.TimeSeries>): nat
  {
    if |timeSeries| == 0 then 0
    else SampleCount(timeSeries[..|timeSeries| - 1]) + |timeSeries[|timeSeries| - 1].samples|
  }

  lemma {:induction false} DocsAt(metric: LabelSet, samples: seq<Prompb.Sample>, k: nat)
    requires k < |samples|
    ensures |Docs(metric, samples)| == |samples|
    ensures Docs(metric, samples)[k] == Sample(metric, Normalize(samples[k].value), samples[k].timestamp)
  {
    var n := |samples|;
    DocsLength(metric, samples[..n - 1]);
    if k < n - 1 {
      DocsAt(metric, samples[..n - 1], k);
    }
  }

  lemma {:induction false} DocsLength(metric: LabelSet, samples: seq<Prompb.Sample>)
    ensures |Docs(metric, samples)| == |samples|
  {
    if |samples| > 0 { DocsLength(metric, samples[..|samples| - 1]); }
  }

  /** Flattening emits exactly one document per input sample. */
  lemma {:induction false} FlattenLength(timeSeries: seq<Prompb.TimeSeries>)
    ensures |Flatten(timeSeries)| == SampleCount(timeSeries)
  {
    var n := |timeSeries|;
    if n > 0 {
      FlattenLength(timeSeries[..n - 1]);
      DocsLength(Metric(timeSeries[n - 1].labels), timeSeries[n - 1].samples);
    }
  }

  /**
   * Sample k of series i lands right after the samples of the series before
   * it, carrying the series' label set, its value with NaN replaced by 0, and
   * its timestamp.
   */
  lemma {:induction false} FlattenAt(timeSeries: seq<Prompb.TimeSeries>, i: nat, k: nat)
    requires i < |timeSeries| && k < |timeSeries[i].samples|
    ensures SampleCount(timeSeries[..i]) + k < |Flatten(timeSeries)|
    ensures var s := timeSeries[i].samples[k];
      Flatten(timeSeries)[SampleCount(timeSeries[..i]) + k]
        == Sample(Metric(timeSeries[i].labels), if Prompb.IsNaN(s.value) then Prompb.Zero else s.value, s.timestamp)
  {
    var n := |timeSeries|;
    var prefix := timeSeries[..n - 1];
    FlattenLength(timeSeries);
    FlattenLength(prefix);
    if i < n - 1 {
      assert prefix[i] == timeSeries[i];
      assert prefix[..i] == timeSeries[..i];
      FlattenAt(prefix, i, k);
      SampleCountMonotone(prefix, i + 1);
      assert prefix[..i + 1][..i] == prefix[..i];
    } else {
      assert timeSeries[..i] == prefix;
      DocsAt(Metric(timeSeries[i].labels), timeSeries[i].samples, k);
    }
  }

  lemma {:induction false} SampleCountMonotone(timeSeries: seq<Prompb.TimeSeries>, i: nat)
    requires i <= |timeSeries|
    ensures SampleCount(timeSeries[..i]) <= SampleCount(timeSeries)
    decreases |timeSeries|
  {
    var n := |timeSeries|;
    if i < n {
      assert timeSeries[..n - 1][..i] == timeSeries[..i];
      SampleCountMonotone(timeSeries[..n - 1], i);
    } else {
      assert timeSeries[..i] == timeSeries;
    }
  }

  // ---------------------------------------------------------------------
  // Regrouping: Samples2QueryResult
  // ---------------------------------------------------------------------

  /** The distinct label sets among the documents. */
  ghost function LabelSetsOf(items: seq<Sample>): set<LabelSet>
  {
    if |items| == 0 then {} else LabelSetsOf(items[..|items| - 1]) + {items[|items| - 1].labels}
  }

  /** The samples of the documents with label set L, in document order. */
  ghost function Group(items: seq<Sample>, L: LabelSet): seq<Prompb.Sample>
  {
    if |items| == 0 then []
    else
      var last := items[|items| - 1];
      Group(items[..|items| - 1], L) + (if last.labels == L then [Prompb.Sample(last.value, last.timestamp)] else [])
  }

  /** t is the series of some label set L found in items and holds exactly L's samples. */
  ghost predicate SeriesOf(items: seq<Sample>, t: Prompb.TimeSeries)
  {
    && DistinctNames(t.labels)
    && Metric(t.labels) in LabelSetsOf(items)
    && t.samples == Group(items, Metric(t.labels))
  }

  /**
   * result regroups items: one series per distinct label set (no two series
   * share a label set, every label set has a series), each holding that
   * label set's samples in input order. Series order and label order are
   * left open.
   */
  ghost predicate IsRegrouping(items: seq<Sample>, result: Prompb.QueryResult)
  {
    var ts := result.timeseries;
    && |ts| == |LabelSetsOf(items)|
    && (forall j :: 0 <= j < |ts| ==> SeriesOf(items, ts[j]))
    && (forall j, k :: 0 <= j < k < |ts| ==> Metric(ts[j].labels) != Metric(ts[k].labels))
    && (forall L :: L in LabelSetsOf(items) ==> exists j :: 0 <= j < |ts| && Metric(ts[j].labels) == L)
  }

  lemma {:induction false} GroupAbsent(items: seq<Sample>, L: LabelSet)
    requires L !in LabelSetsOf(items)
    ensures Group(items, L) == []
  {
    if |items| > 0 { GroupAbsent(items[..|items| - 1], L); }
  }

  /** Samples is the slice of flat documents that both conversions work on in place. */
  class Samples {
    var items: seq<Sample>

    constructor (items: seq<Sample>)
      ensures this.items == items
    {
      this.items := items;
    }

    /** Appends the documents of every sample of every series, keeping what is already there. */
    method TimeSeries2Samples(timeSeries: seq<Prompb.TimeSeries>)
      modifies this
      ensures items == old(items) + Flatten(timeSeries)
    {
      for i := 0 to |timeSeries|
        invariant items == old(items) + Flatten(timeSeries[..i])
      {
        var ts := timeSeries[i];
        var metric := BuildMetric(ts.labels);
        for k := 0 to |ts.samples|
          invariant items == old(items) + Flatten(timeSeries[..i]) + Docs(metric, ts.samples[..k])
        {
          var sample := ts.samples[k];
          var value := sample.value;
          if Prompb.IsNaN(value) {
            value := Prompb.Zero;
          }
          assert ts.samples[..k + 1][..k] == ts.samples[..k];
          items := items + [Sample(metric, value, sample.timestamp)];
        }
        assert ts.samples[..|ts.samples|] == ts.samples;
        assert timeSeries[..i + 1][..i] == timeSeries[..i];
      }
      assert timeSeries[..|timeSeries|] == timeSeries;
    }

    /**
     * Groups the documents into one series per label set. The map keyed by
     * fingerprint is read out in Go's unspecified map order; each step here
     * picks any remaining key.
     */
    method Samples2QueryResult() returns (result: Prompb.QueryResult)
      ensures IsRegrouping(items, result)
    {
      var timeSeriesMap := GroupByFingerprint(items);
      var timeSeries, order := MapValues(timeSeriesMap);
      RegroupingOfMap(items, timeSeriesMap, order, timeSeries);
      result := Prompb.QueryResult(timeSeries);
    }
  }

  /** The first loop of Samples2QueryResult: one series per fingerprint, samples appended in order. */
  method GroupByFingerprint(items: seq<Sample>) returns (timeSeriesMap: map<LabelSet, Prompb.TimeSeries>)
    ensures FingerprintMap(items, timeSeriesMap)
  {
    timeSeriesMap := map[];
    for i := 0 to |items|
      invariant FingerprintMap(items[..i], timeSeriesMap)
    {
      var sample := items[i];
      var fingerprint := sample.labels;
      ghost var before := timeSeriesMap;
      if fingerprint !in timeSeriesMap {
        var labels := MetricLabels(sample.labels);
        timeSeriesMap := timeSeriesMap[fingerprint := Prompb.TimeSeries(labels, [])];
      }
      var ts := timeSeriesMap[fingerprint];
      timeSeriesMap := timeSeriesMap[fingerprint :=
        ts.(samples := ts.samples + [Prompb.Sample(sample.value, sample.timestamp)])];
      FingerprintMapStep(items, i, before, timeSeriesMap);
    }
    assert items[..|items|] == items;
  }

  /** The second loop of Samples2QueryResult: the map's series in Go's unspecified map order. */
  method MapValues(timeSeriesMap: map<LabelSet, Prompb.TimeSeries>)
    returns (timeSeries: seq<Prompb.TimeSeries>, ghost order: seq<LabelSet>)
    ensures |timeSeries| == |order| == |timeSeriesMap.Keys|
    ensures forall j :: 0 <= j < |order| ==> order[j] in timeSeriesMap && timeSeries[j] == timeSeriesMap[order[j]]
    ensures forall j, k :: 0 <= j < k < |order| ==> order[j] != order[k]
    ensures forall L :: L in timeSeriesMap ==> L in order
  {
    timeSeries := [];
    order := [];
    var rest := timeSeriesMap.Keys;
    while rest != {}
      invariant rest <= timeSeriesMap.Keys
      invariant |timeSeries| == |order|
      invariant |order| + |rest| == |timeSeriesMap.Keys|
      invariant forall j :: 0 <= j < |order| ==>
        order[j] in timeSeriesMap && order[j] !in rest && timeSeries[j] == timeSeriesMap[order[j]]
      invariant forall j, k :: 0 <= j < k < |order| ==> order[j] != order[k]
      invariant forall L :: L in timeSeriesMap && L !in rest ==> L in order
      decreases |rest|
    {
      var fingerprint :| fingerprint in rest;
      timeSeries := timeSeries + [timeSeriesMap[fingerprint]];
      order := order + [fingerprint];
      rest := rest - {fingerprint};
    }
  }

  /** m maps each label set of items to its series: its labels and, in order, its samples. */
  ghost predicate FingerprintMap(items: seq<Sample>, m: map<LabelSet, Prompb.TimeSeries>)
  {
    && m.Keys == LabelSetsOf(items)
    && forall L :: L in m ==>
      && DistinctNames(m[L].labels)
      && Metric(m[L].labels) == L
      && m[L].samples == Group(items, L)
  }

  lemma FingerprintMapStep(items: seq<Sample>, i: nat, before: map<LabelSet, Prompb.TimeSeries>,
                           after: map<LabelSet, Prompb.TimeSeries>)
    requires i < |items|
    requires FingerprintMap(items[..i], before)
    requires var s := items[i];
      && s.labels in after
      && DistinctNames(after[s.labels].labels)
      && Metric(after[s.labels].labels) == s.labels
      && after[s.labels].samples
           == (if s.labels in before then before[s.labels].samples else []) + [Prompb.Sample(s.value, s.timestamp)]
      && forall L :: L in after && L != s.labels ==> L in before && after[L] == before[L]
    requires before.Keys <= after.Keys
    ensures FingerprintMap(items[..i + 1], after)
  {
    var prefix := items[..i + 1];
    var s := items[i];
    assert prefix[..i] == items[..i] && prefix[i] == s;
    assert LabelSetsOf(prefix) == LabelSetsOf(items[..i]) + {s.labels};
    assert after.Keys == before.Keys + {s.labels};
    forall L | L in after
      ensures && DistinctNames(after[L].labels)
              && Metric(after[L].labels) == L
              && after[L].samples == Group(prefix, L)
    {
      assert Group(prefix, L)
        == Group(items[..i], L) + (if s.labels == L then [Prompb.Sample(s.value, s.timestamp)] else []);
      if L == s.labels && L !in before {
        GroupAbsent(items[..i], L);
      }
    }
  }

  lemma RegroupingOfMap(items: seq<Sample>, m: map<LabelSet, Prompb.TimeSeries>, order: seq<LabelSet>,
                        ts: seq<Prompb.TimeSeries>)
    requires FingerprintMap(items, m)
    requires |ts| == |order| == |m.Keys|
    requires forall j :: 0 <= j < |order| ==> order[j] in m && ts[j] == m[order[j]]
    requires forall j, k :: 0 <= j < k < |order| ==> order[j] != order[k]
    requires forall L :: L in m ==> L in order
    ensures IsRegrouping(items, Prompb.QueryResult(ts))
  {
    var keys := LabelSetsOf(items);
    assert |ts| == |keys|;
    MapSeries(items, m, order, ts);
    forall j, k | 0 <= j < k < |ts| ensures Metric(ts[j].labels) != Metric(ts[k].labels) {
      assert Metric(ts[j].labels) == order[j] && Metric(ts[k].labels) == order[k];
    }
    forall L | L in keys ensures exists j :: 0 <= j < |ts| && Metric(ts[j].labels) == L {
      KeyListed(ts, order, L);
    }
  }

  lemma MapSeries(items: seq<Sample>, m: map<LabelSet, Prompb.TimeSeries>, order: seq<LabelSet>,
                  ts: seq<Prompb.TimeSeries>)
    requires FingerprintMap(items, m)
    requires |ts| == |order|
    requires forall j :: 0 <= j < |order| ==> order[j] in m && ts[j] == m[order[j]]
    ensures forall j :: 0 <= j < |ts| ==> Metric(ts[j].labels) == order[j] && SeriesOf(items, ts[j])
  {
  }

  lemma KeyListed(ts: seq<Prompb.TimeSeries>, order: seq<LabelSet>, L: LabelSet)
    requires |ts| == |order| && L in order
    requires forall j :: 0 <= j < |ts| ==> Metric(ts[j].labels) == order[j]
    ensures exists j :: 0 <= j < |ts| && Metric(ts[j].labels) == L
  {
    var j :| 0 <= j < |order| && order[j] == L;
    assert Metric(ts[j].labels) == L;
  }

  // ---------------------------------------------------------------------
  // Counting the regrouped samples
  // ---------------------------------------------------------------------

  /** The number of documents whose label set lies in S. */
  ghost function CountWithin(items: seq<Sample>, S: set<LabelSet>): nat
  {
    if |items| == 0 then 0
    else CountWithin(items[..|items| - 1], S) + (if items[|items| - 1].labels in S then 1 else 0)
  }

  /** The label sets of a list of series. */
  ghost function SeriesKeys(ts: seq<Prompb.TimeSeries>): set<LabelSet>
  {
    if |ts| == 0 then {} else SeriesKeys(ts[..|ts| - 1]) + {Metric(ts[|ts| - 1].labels)}
  }

  lemma {:induction false} CountWithinInsert(items: seq<Sample>, S: set<LabelSet>, L: LabelSet)
    requires L !in S
    ensures CountWithin(items, S + {L}) == CountWithin(items, S) + |Group(items, L)|
  {
    if |items| > 0 { CountWithinInsert(items[..|items| - 1], S, L); }
  }

  lemma {:induction false} CountWithinNone(items: seq<Sample>)
    ensures CountWithin(items, {}) == 0
  {
    if |items| > 0 { CountWithinNone(items[..|items| - 1]); }
  }

  lemma {:induction false} CountWithinAll(items: seq<Sample>, S: set<LabelSet>)
    requires LabelSetsOf(items) <= S
    ensures CountWithin(items, S) == |items|
  {
    if |items| > 0 { CountWithinAll(items[..|items| - 1], S); }
  }

  lemma {:induction false} SeriesKeysMembers(ts: seq<Prompb.TimeSeries>, L: LabelSet)
    ensures L in SeriesKeys(ts) <==> exists j :: 0 <= j < |ts| && Metric(ts[j].labels) == L
  {
    var n := |ts|;
    if n > 0 {
      var prefix := ts[..n - 1];
      SeriesKeysMembers(prefix, L);
      if L in SeriesKeys(prefix) {
        var j :| 0 <= j < |prefix| && Metric(prefix[j].labels) == L;
        assert ts[j] == prefix[j];
      }
      if exists j :: 0 <= j < n && Metric(ts[j].labels) == L {
        var j :| 0 <= j < n && Metric(ts[j].labels) == L;
        if j < n - 1 { assert prefix[j] == ts[j]; }
      }
    }
  }

  lemma {:induction false} SampleCountByGroups(items: seq<Sample>, ts: seq<Prompb.TimeSeries>)
    requires forall j :: 0 <= j < |ts| ==> ts[j].samples == Group(items, Metric(ts[j].labels))
    requires forall j, k :: 0 <= j < k < |ts| ==> Metric(ts[j].labels) != Metric(ts[k].labels)
    ensures SampleCount(ts) == CountWithin(items, SeriesKeys(ts))
  {
    var n := |ts|;
    if n > 0 {
      var prefix := ts[..n - 1];
      var L := Metric(ts[n - 1].labels);
      assert forall j :: 0 <= j < |prefix| ==> prefix[j] == ts[j];
      SampleCountByGroups(items, prefix);
      SeriesKeysMembers(prefix, L);
      CountWithinInsert(items, SeriesKeys(prefix), L);
      assert SeriesKeys(ts) == SeriesKeys(prefix) + {L};
      assert |ts[n - 1].samples| == |Group(items, L)|;
    } else {
      CountWithinNone(items);
    }
  }

  /** Regrouping loses and duplicates nothing: the output holds as many samples as the input. */
  lemma RegroupingTotal(items: seq<Sample>, result: Prompb.QueryResult)
    requires IsRegrouping(items, result)
    ensures SampleCount(result.timeseries) == |items|
  {
    var ts := result.timeseries;
    SampleCountByGroups(items, ts);
    forall L | L in SeriesKeys(ts) ensures L in LabelSetsOf(items) {
      SeriesKeysMembers(ts, L);
    }
    forall L | L in LabelSetsOf(items) ensures L in SeriesKeys(ts) {
      SeriesKeysMembers(ts, L);
    }
    CountWithinAll(items, SeriesKeys(ts));
  }

  // ---------------------------------------------------------------------
  // Round trip: regrouping the flattened batch
  // ---------------------------------------------------------------------

  /** The samples of a series as stored: NaN replaced by 0. */
  ghost function Normalized(samples: seq<Prompb.Sample>): seq<Prompb.Sample>
  {
    if |samples| == 0 then []
    else
      var last := samples[|samples| - 1];
      Normalized(samples[..|samples| - 1]) + [Prompb.Sample(Normalize(last.value), last.timestamp)]
  }

  /** No two series of the batch have the same label set. */
  ghost predicate DistinctSeries(timeSeries: seq<Prompb.TimeSeries>)
  {
    forall i, j :: 0 <= i < j < |timeSeries| ==> Metric(timeSeries[i].labels) != Metric(timeSeries[j].labels)
  }

  lemma {:induction false} GroupAppend(a: seq<Sample>, b: seq<Sample>, L: LabelSet)
    ensures Group(a + b, L) == Group(a, L) + Group(b, L)
  {
    if |b| > 0 {
      assert (a + b)[..|a + b| - 1] == a + b[..|b| - 1];
      GroupAppend(a, b[..|b| - 1], L);
    } else {
      assert a + b == a;
    }
  }

  lemma {:induction false} LabelSetsAppend(a: seq<Sample>, b: seq<Sample>)
    ensures LabelSetsOf(a + b) == LabelSetsOf(a) + LabelSetsOf(b)
  {
    if |b| > 0 {
      assert (a + b)[..|a + b| - 1] == a + b[..|b| - 1];
      LabelSetsAppend(a, b[..|b| - 1]);
    } else {
      assert a + b == a;
    }
  }

  lemma {:induction false} GroupDocs(metric: LabelSet, samples: seq<Prompb.Sample>, L: LabelSet)
    ensures Group(Docs(metric, samples), L) == if metric == L then Normalized(samples) else []
  {
    if |samples| > 0 {
      var n := |samples|;
      var d := Docs(metric, samples);
      DocsLength(metric, samples[..n - 1]);
      assert d[..|d| - 1] == Docs(metric, samples[..n - 1]);
      GroupDocs(metric, samples[..n - 1], L);
    }
  }

  lemma {:induction false} LabelSetsDocs(metric: LabelSet, samples: seq<Prompb.Sample>)
    ensures LabelSetsOf(Docs(metric, samples)) == if |samples| == 0 then {} else {metric}
  {
    if |samples| > 0 {
      var n := |samples|;
      var d := Docs(metric, samples);
      DocsLength(metric, samples[..n - 1]);
      assert d[..|d| - 1] == Docs(metric, samples[..n - 1]);
      LabelSetsDocs(metric, samples[..n - 1]);
    }
  }

  /** The label sets of the series of a batch that have at least one sample. */
  ghost function StoredKeys(timeSeries: seq<Prompb.TimeSeries>): set<LabelSet>
  {
    if |timeSeries| == 0 then {}
    else
      var last := timeSeries[|timeSeries| - 1];
      StoredKeys(timeSeries[..|timeSeries| - 1]) + (if |last.samples| > 0 then {Metric(last.labels)} else {})
  }

  lemma {:induction false} StoredKeysMembers(timeSeries: seq<Prompb.TimeSeries>, L: LabelSet)
    ensures L in StoredKeys(timeSeries) <==>
      exists i :: 0 <= i < |timeSeries| && |timeSeries[i].samples| > 0 && Metric(timeSeries[i].labels) == L
  {
    var n := |timeSeries|;
    if n > 0 {
      var prefix := timeSeries[..n - 1];
      StoredKeysMembers(prefix, L);
      if L in StoredKeys(prefix) {
        var i :| 0 <= i < |prefix| && |prefix[i].samples| > 0 && Metric(prefix[i].labels) == L;
        assert timeSeries[i] == prefix[i];
      }
      if exists i :: 0 <= i < n && |timeSeries[i].samples| > 0 && Metric(timeSeries[i].labels) == L {
        var i :| 0 <= i < n && |timeSeries[i].samples| > 0 && Metric(timeSeries[i].labels) == L;
        if i < n - 1 { assert prefix[i] == timeSeries[i]; }
      }
    }
  }

  /** The label sets stored by a batch are those of its series that have at least one sample. */
  lemma {:induction false} FlattenLabelSets(timeSeries: seq<Prompb.TimeSeries>)
    ensures LabelSetsOf(Flatten(timeSeries)) == StoredKeys(timeSeries)
  {
    var n := |timeSeries|;
    if n > 0 {
      var prefix := timeSeries[..n - 1];
      var last := timeSeries[n - 1];
      FlattenLabelSets(prefix);
      LabelSetsAppend(Flatten(prefix), Docs(Metric(last.labels), last.samples));
      LabelSetsDocs(Metric(last.labels), last.samples);
    }
  }

  lemma {:induction false} FlattenGroupAbsent(timeSeries: seq<Prompb.TimeSeries>, L: LabelSet)
    requires forall i :: 0 <= i < |timeSeries| ==> Metric(timeSeries[i].labels) != L
    ensures Group(Flatten(timeSeries), L) == []
  {
    var n := |timeSeries|;
    if n > 0 {
      var prefix := timeSeries[..n - 1];
      var last := timeSeries[n - 1];
      assert forall i :: 0 <= i < n - 1 ==> prefix[i] == timeSeries[i];
      FlattenGroupAbsent(prefix, L);
      GroupAppend(Flatten(prefix), Docs(Metric(last.labels), last.samples), L);
      GroupDocs(Metric(last.labels), last.samples, L);
    }
  }

  lemma DistinctSeriesPrefix(timeSeries: seq<Prompb.TimeSeries>)
    requires DistinctSeries(timeSeries) && |timeSeries| > 0
    ensures DistinctSeries(timeSeries[..|timeSeries| - 1])
  {
    var prefix := timeSeries[..|timeSeries| - 1];
    forall i, j | 0 <= i < j < |prefix| ensures Metric(prefix[i].labels) != Metric(prefix[j].labels) {
      assert prefix[i] == timeSeries[i] && prefix[j] == timeSeries[j];
    }
  }

  /** With distinct label sets, the documents of series i are exactly its samples, NaN replaced by 0. */
  lemma {:induction false} FlattenGroup(timeSeries: seq<Prompb.TimeSeries>, i: nat)
    requires DistinctSeries(timeSeries) && i < |timeSeries|
    ensures Group(Flatten(timeSeries), Metric(timeSeries[i].labels)) == Normalized(timeSeries[i].samples)
  {
    var n := |timeSeries|;
    var prefix := timeSeries[..n - 1];
    var last := timeSeries[n - 1];
    var L := Metric(timeSeries[i].labels);
    GroupAppend(Flatten(prefix), Docs(Metric(last.labels), last.samples), L);
    GroupDocs(Metric(last.labels), last.samples, L);
    DistinctSeriesPrefix(timeSeries);
    if i < n - 1 {
      assert prefix[i] == timeSeries[i];
      FlattenGroup(prefix, i);
      assert Metric(last.labels) != L;
    } else {
      forall j | 0 <= j < |prefix| ensures Metric(prefix[j].labels) != L {
        assert prefix[j] == timeSeries[j];
      }
      FlattenGroupAbsent(prefix, L);
    }
  }

  /** Some series of ts has label set L and exactly the given samples. */
  ghost predicate HasSeries(ts: seq<Prompb.TimeSeries>, L: LabelSet, samples: seq<Prompb.Sample>)
  {
    exists j :: 0 <= j < |ts| && Metric(ts[j].labels) == L && ts[j].samples == samples
  }

  /** Some series of the batch with at least one sample has label set L and stores exactly the given samples. */
  ghost predicate StoredFrom(timeSeries: seq<Prompb.TimeSeries>, L: LabelSet, samples: seq<Prompb.Sample>)
  {
    exists i :: 0 <= i < |timeSeries| && |timeSeries[i].samples| > 0
      && Metric(timeSeries[i].labels) == L && Normalized(timeSeries[i].samples) == samples
  }

  /**
   * Regrouping a flattened batch whose series have distinct label sets gives
   * back every series that has samples, with its label set and its samples
   * in order (NaN replaced by 0), and nothing else.
   */
  lemma RegroupRoundTrip(timeSeries: seq<Prompb.TimeSeries>, result: Prompb.QueryResult)
    requires DistinctSeries(timeSeries)
    requires IsRegrouping(Flatten(timeSeries), result)
    ensures forall i :: 0 <= i < |timeSeries| && |timeSeries[i].samples| > 0 ==>
      HasSeries(result.timeseries, Metric(timeSeries[i].labels), Normalized(timeSeries[i].samples))
    ensures forall j :: 0 <= j < |result.timeseries| ==>
      StoredFrom(timeSeries, Metric(result.timeseries[j].labels), result.timeseries[j].samples)
  {
    forall i | 0 <= i < |timeSeries| && |timeSeries[i].samples| > 0
      ensures HasSeries(result.timeseries, Metric(timeSeries[i].labels), Normalized(timeSeries[i].samples))
    {
      RegroupKeeps(timeSeries, result, i);
    }
    forall j | 0 <= j < |result.timeseries|
      ensures StoredFrom(timeSeries, Metric(result.timeseries[j].labels), result.timeseries[j].samples)
    {
      RegroupStored(timeSeries, result, j);
    }
  }

  lemma RegroupKeeps(timeSeries: seq<Prompb.TimeSeries>, result: Prompb.QueryResult, i: nat)
    requires DistinctSeries(timeSeries)
    requires IsRegrouping(Flatten(timeSeries), result)
    requires i < |timeSeries| && |timeSeries[i].samples| > 0
    ensures HasSeries(result.timeseries, Metric(timeSeries[i].labels), Normalized(timeSeries[i].samples))
  {
    var items := Flatten(timeSeries);
    var ts := result.timeseries;
    var L := Metric(timeSeries[i].labels);
    FlattenLabelSets(timeSeries);
    StoredKeysMembers(timeSeries, L);
    assert L in LabelSetsOf(items);
    var j :| 0 <= j < |ts| && Metric(ts[j].labels) == L;
    assert SeriesOf(items, ts[j]);
    FlattenGroup(timeSeries, i);
  }

  lemma RegroupStored(timeSeries: seq<Prompb.TimeSeries>, result: Prompb.QueryResult, j: nat)
    requires DistinctSeries(timeSeries)
    requires IsRegrouping(Flatten(timeSeries), result)
    requires j < |result.timeseries|
    ensures StoredFrom(timeSeries, Metric(result.timeseries[j].labels), result.timeseries[j].samples)
  {
    var items := Flatten(timeSeries);
    var ts := result.timeseries;
    var L := Metric(ts[j].labels);
    assert SeriesOf(items, ts[j]);
    FlattenLabelSets(timeSeries);
    StoredKeysMembers(timeSeries, L);
    var i :| 0 <= i < |timeSeries| && |timeSeries[i].samples| > 0 && Metric(timeSeries[i].labels) == L;
    FlattenGroup(timeSeries, i);
  }
}
