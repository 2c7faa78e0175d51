/** Aggregation kinds, metric descriptors, the metric registry and the
    per-metric accumulator (store_struct.go). */
module StoreStruct {
  import opened Prelude
  import opened Errors

  // The aggregation kinds, numbered in declaration order as Go's iota does.
  const BaseMetric := 0
  const SumMetric := 1
  const AvgMetric := 2
  const CountMetric := 3
  const CountSumMetric := 4
  const CountAvgMetric := 5
  const QuantileMetric := 6

  /** The kinds the package knows about; any other integer is "unexpected". */
  predicate IsKind(t: int) {
    BaseMetric <= t <= QuantileMetric
  }

  /** The quantile sketch of a value: no t-digest at all (a nil pointer), or a
      t-digest that has been fed `inserted`, in order. */
  datatype Sketch = NoSketch | Digest(inserted: seq<real>)

  /** SpecValue: the accumulator of one persistent metric in one bucket. */
  datatype SpecValue = SpecValue(sum: real, count: int64, otd: Sketch)

  /** newBaseSpecValue: zero sum, zero count, no digest. */
  function NewBaseSpecValue(): (r: SpecValue)
    ensures r.sum == 0.0 && r.count == 0 && r.otd.NoSketch?
  {
    SpecValue(0.0, 0, NoSketch)
  }

  /** newQuantileSpecValue: zero sum, zero count, an empty digest. */
  function NewQuantileSpecValue(): (r: SpecValue)
    ensures r.sum == 0.0 && r.count == 0 && r.otd.Digest? && r.otd.inserted == []
  {
    SpecValue(0.0, 0, Digest([]))
  }

  /** initSpecValue: a fresh accumulator for a kind, or an error for a kind
      outside the enumeration. */
  function InitSpecValue(t: int): (r: Result<SpecValue, Error>)
    ensures r.Ok? <==> IsKind(t)
    ensures r.Err? ==> r.error == ErrUnexpectMetricType
    ensures r.Ok? ==> r.value.sum == 0.0 && r.value.count == 0
    ensures r.Ok? ==> r.value.otd == (if t == QuantileMetric then Digest([]) else NoSketch)
  {
    if t == BaseMetric || t == SumMetric || t == AvgMetric || t == CountMetric
       || t == CountSumMetric || t == CountAvgMetric then
      Ok(NewBaseSpecValue())
    else if t == QuantileMetric then
      Ok(NewQuantileSpecValue())
    else
      Err(ErrUnexpectMetricType)
  }

  /** MetricName: the descriptor of a persistent metric. Each entry of
      `sortedTags` is one of Go's `[]byte` encodings, a byte string. */
  datatype MetricName = MetricName(
    name: string,
    tags: map<string, string>,
    describe: string,
    kind: int,
    sortedTags: seq<string>)
  {
    /** GetSortedTags: the stored encoding, not regenerated from `tags`. */
    function GetSortedTags(): (r: seq<string>)
      ensures r == sortedTags
    {
      sortedTags
    }
  }

  /** initMetricName: the descriptor holds what it was given, and no sorted
      encoding has been produced yet. */
  function InitMetricName(name: string, t: int, describe: string, tags: map<string, string>): (m: MetricName)
    ensures m.name == name && m.kind == t && m.describe == describe && m.tags == tags
    ensures m.GetSortedTags() == []
  {
    MetricName(name, tags, describe, t, [])
  }

  /** MetricNameMap: identities to descriptors (`Map`), names to identities
      (`CallNameMap`) and the last identity handed out (`LastID`). */
  class MetricNameMap {
    var byId: map<int, MetricName>
    var callNames: map<string, int>
    var lastId: int

    /** Every bound name points at a known identity, and every known identity
        was handed out, so lies in 1..lastId. */
    ghost predicate Valid()
      reads this
    {
      && 0 <= lastId
      && (forall n :: n in callNames ==> callNames[n] in byId)
      && (forall id :: id in byId ==> 1 <= id <= lastId)
    }

    /** NewMetricNameMap */
    constructor ()
      ensures Valid()
      ensures byId == map[] && callNames == map[] && lastId == 0
    {
      byId := map[];
      callNames := map[];
      lastId := 0;
    }
  }
}
