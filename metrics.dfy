/**
 * Gauge metric families as the collector builds them: a name, a help text,
 * the label names (always ending in the target label) and the samples added
 * so far, each with one value per label name.
 */
module Metrics {
  import opened Values

  /** The label every family carries last, naming the probed target. */
  const TargetLabel: string := "commvault_target"

  datatype Sample = Sample(labels: seq<Json>, value: int)

  datatype MetricFamily = MetricFamily(name: string, documentation: string, labelNames: seq<string>, samples: seq<Sample>)

  /** The label values of one sample before the target's name is appended, and its value. */
  datatype Row = Row(labels: seq<Json>, value: int)

  /**
   * `add_target_label`: the target label is appended unless the list already
   * holds it. The result keeps the given names, in order, and holds the
   * target label exactly once more than it was absent.
   */
  function AddTargetLabel(labels: seq<string>): (r: seq<string>)
    ensures TargetLabel in r
    ensures |labels| <= |r| <= |labels| + 1 && r[..|labels|] == labels
    ensures forall x :: x in r <==> x in labels || x == TargetLabel
    ensures |r| == |labels| + 1 <==> TargetLabel !in labels
  {
    if TargetLabel in labels then labels else labels + [TargetLabel]
  }

  /** Adding the target label twice is adding it once. */
  lemma AddTargetLabelIdempotent(labels: seq<string>)
    ensures AddTargetLabel(AddTargetLabel(labels)) == AddTargetLabel(labels)
  {
  }

  /** For the label lists the collector passes, which never name the target, the target label is last. */
  lemma TargetLabelLast(labels: seq<string>)
    requires TargetLabel !in labels
    ensures var r := AddTargetLabel(labels); |r| == |labels| + 1 && r[|labels|] == TargetLabel
  {
  }

  /** `add_target_label(GaugeMetricFamily, name, documentation, labels)`: an empty family. */
  function NewGauge(name: string, documentation: string, labels: seq<string>): (f: MetricFamily)
    ensures f.samples == [] && f.labelNames == AddTargetLabel(labels)
  {
    MetricFamily(name, documentation, AddTargetLabel(labels), [])
  }

  /** The family's fixed part: everything but its samples. */
  function Schema(f: MetricFamily): MetricFamily {
    f.(samples := [])
  }

  /** `metric_family.add_metric(labels + [target], value)`: one sample appended to the family. */
  function WithTarget(f: MetricFamily, labels: seq<Json>, value: int, target: string): MetricFamily {
    f.(samples := f.samples + [Sample(labels + [Str(target)], value)])
  }

  /** Every sample has one value per label name, and its last value is the target's name. */
  predicate Tagged(f: MetricFamily, target: string) {
    forall k :: 0 <= k < |f.samples| ==>
      0 < |f.samples[k].labels| == |f.labelNames| && f.samples[k].labels[|f.labelNames| - 1] == Str(target)
  }

  /** The family has `arity` label names before the target label, and every sample ends with the target's name. */
  predicate Holds(f: MetricFamily, arity: nat, target: string) {
    |f.labelNames| == arity + 1 && Tagged(f, target)
  }

  /** The samples `rows` become once the target's name is appended to each. */
  function Tag(rows: seq<Row>, target: string): (r: seq<Sample>)
    ensures |r| == |rows|
    ensures forall k :: 0 <= k < |rows| ==>
      |r[k].labels| == |rows[k].labels| + 1 && r[k].labels[..|rows[k].labels|] == rows[k].labels &&
      r[k].labels[|rows[k].labels|] == Str(target) && r[k].value == rows[k].value
  {
    seq(|rows|, k requires 0 <= k < |rows| => Sample(rows[k].labels + [Str(target)], rows[k].value))
  }

  /** The family after the rows have been added one by one. */
  function AddRows(f: MetricFamily, rows: seq<Row>, target: string): MetricFamily {
    f.(samples := f.samples + Tag(rows, target))
  }

  /** Tagging distributes over concatenation, so adding rows in two batches is adding them at once. */
  lemma TagAppend(a: seq<Row>, b: seq<Row>, target: string)
    ensures Tag(a + b, target) == Tag(a, target) + Tag(b, target)
  {
    assert forall k :: 0 <= k < |a + b| ==> (a + b)[k] == if k < |a| then a[k] else b[k - |a|];
  }

  /** Adding one row more is `add_metric` with the target appended. */
  lemma AddRowsStep(f: MetricFamily, rows: seq<Row>, row: Row, target: string)
    ensures AddRows(f, rows + [row], target) == WithTarget(AddRows(f, rows, target), row.labels, row.value, target)
  {
    TagAppend(rows, [row], target);
  }

  /** Every row carries `arity` label values. */
  predicate OfArity(rows: seq<Row>, arity: nat) {
    forall k :: 0 <= k < |rows| ==> |rows[k].labels| == arity
  }

  /** Adding rows of the family's arity keeps its fixed part and its tagging, and adds exactly those samples. */
  lemma AddRowsHolds(f: MetricFamily, rows: seq<Row>, arity: nat, target: string)
    requires Holds(f, arity, target) && OfArity(rows, arity)
    ensures Holds(AddRows(f, rows, target), arity, target)
    ensures Schema(AddRows(f, rows, target)) == Schema(f)
    ensures |AddRows(f, rows, target).samples| == |f.samples| + |rows|
  {
    var g := AddRows(f, rows, target);
    forall k | 0 <= k < |g.samples|
      ensures 0 < |g.samples[k].labels| == |g.labelNames| && g.samples[k].labels[|g.labelNames| - 1] == Str(target)
    {
      if k >= |f.samples| {
        var j := k - |f.samples|;
        assert g.samples[k] == Sample(rows[j].labels + [Str(target)], rows[j].value);
      }
    }
  }

  /** Adding two batches of rows one after the other is adding their concatenation. */
  lemma AddRowsAppend(f: MetricFamily, a: seq<Row>, b: seq<Row>, target: string)
    ensures AddRows(AddRows(f, a, target), b, target) == AddRows(f, a + b, target)
  {
    TagAppend(a, b, target);
  }

  /** `_add_metric_with_target` with one value per label name but the last keeps a family tagged, with one sample more. */
  lemma WithTargetHolds(f: MetricFamily, labels: seq<Json>, value: int, target: string)
    requires Holds(f, |labels|, target)
    ensures var g := WithTarget(f, labels, value, target);
      Holds(g, |labels|, target) && Schema(g) == Schema(f) && |g.samples| == |f.samples| + 1 &&
      g.samples[|f.samples|] == Sample(labels + [Str(target)], value)
  {
    var g := WithTarget(f, labels, value, target);
    assert forall k :: 0 <= k < |f.samples| ==> g.samples[k] == f.samples[k];
  }
}
