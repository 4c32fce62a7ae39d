/** The dashboard's performance trend chart
    (src/components/dashboard/PerformanceTrendChart.tsx): the window of data
    points for the selected date range and the set of metrics drawn as lines. */
module PerformanceTrendChart {

  import opened Wrappers
  import opened Seqs
  import opened ToggleList

  /** Lines 7-14. */
  datatype ChartData = ChartData(
    date: string,
    casesOpened: int,
    casesResolved: int,
    avgResponseTime: real,
    odr: real,
    asinCount: int)

  datatype Axis = LeftAxis | RightAxis

  /** A row of lines 26-62, without colour and value formatter; `label` is a reserved word here. */
  datatype Metric = Metric(key: string, caption: string, axis: Axis)

  datatype DateRange = DateRange(caption: string, value: nat)

  /** Lines 20-24. */
  const DateRanges: seq<DateRange> := [DateRange("7D", 7), DateRange("30D", 30), DateRange("90D", 90)]

  /** Lines 26-62. */
  const Metrics: seq<Metric> := [
    Metric("casesOpened", "Cases Opened", RightAxis),
    Metric("casesResolved", "Cases Resolved", RightAxis),
    Metric("avgResponseTime", "Avg Response Time (hrs)", LeftAxis),
    Metric("odr", "ODR (%)", LeftAxis),
    Metric("asinCount", "ASINs Monitored", RightAxis)
  ]

  /** The ranges a button can select. */
  predicate IsOfferedRange(range: nat)
  {
    exists i :: 0 <= i < |DateRanges| && DateRanges[i].value == range
  }

  lemma OfferedRanges(range: nat)
    ensures IsOfferedRange(range) <==> range == 7 || range == 30 || range == 90
  {
    if range == 7 { assert DateRanges[0].value == range; }
    if range == 30 { assert DateRanges[1].value == range; }
    if range == 90 { assert DateRanges[2].value == range; }
  }

  /** Line 69: `data.slice(-selectedRange)`, the most recent points in their
      original order. */
  function FilteredData(data: seq<ChartData>, range: nat): (r: seq<ChartData>)
    requires range > 0
    ensures |r| == (if range < |data| then range else |data|)
    ensures r == data[|data| - |r|..]
  {
    LastN(data, range)
  }

  /** A longer range shows a window that ends with the shorter one. */
  lemma LongerRangeExtendsWindow(data: seq<ChartData>, shorter: nat, longer: nat)
    requires 0 < shorter <= longer
    ensures |FilteredData(data, shorter)| <= |FilteredData(data, longer)|
    ensures FilteredData(data, longer)[|FilteredData(data, longer)| - |FilteredData(data, shorter)|..]
         == FilteredData(data, shorter)
  {
    var a, b := FilteredData(data, longer), FilteredData(data, shorter);
    assert a[|a| - |b|..] == data[|data| - |b|..];
  }

  predicate HasKey(m: Metric, key: string)
  {
    m.key == key
  }

  /** `k` is the first position of a metric with that key. */
  predicate FirstMetric(metrics: seq<Metric>, key: string, k: int)
  {
    0 <= k < |metrics| && metrics[k].key == key && forall i :: 0 <= i < k ==> metrics[i].key != key
  }

  /** `metrics.find(m => m.key === key)` (lines 85 and 168). */
  function FindMetric(metrics: seq<Metric>, key: string): (r: Option<Metric>)
    ensures r.None? <==> forall i :: 0 <= i < |metrics| ==> metrics[i].key != key
    ensures r.Some? ==> r.value in metrics && r.value.key == key
    ensures forall k :: FirstMetric(metrics, key, k) ==> r == Some(metrics[k])
  {
    var r := Find(m => HasKey(m, key), metrics);
    assert r.Some? ==> exists k :: FirstMetric(metrics, key, k) && r.value == metrics[k];
    r
  }

  /** Lines 167-184: one line per selected key, in selection order, skipping
      a key with no metric in the table (`metrics` is the table of lines
      26-62, `Metrics`). */
  function DrawnLines(metrics: seq<Metric>, selected: seq<string>): (r: seq<Metric>)
    ensures |r| <= |selected|
  {
    if selected == [] then []
    else
      (match FindMetric(metrics, selected[0])
       case None => []
       case Some(m) => [m])
      + DrawnLines(metrics, selected[1..])
  }

  predicate KeysDistinct(metrics: seq<Metric>)
  {
    forall i, j :: 0 <= i < j < |metrics| ==> metrics[i].key != metrics[j].key
  }

  /** The five metric keys of the table are distinct. */
  lemma MetricKeysDistinct()
    ensures KeysDistinct(Metrics)
  {
  }

  /** With distinct keys, a key finds its own metric. */
  lemma FindListedMetric(metrics: seq<Metric>, m: Metric)
    requires KeysDistinct(metrics) && m in metrics
    ensures FindMetric(metrics, m.key) == Some(m)
  {
    var k :| 0 <= k < |metrics| && metrics[k] == m;
    FindFirst(m' => HasKey(m', m.key), metrics, k);
  }

  /** A line is drawn exactly for a metric of the table whose key is selected. */
  lemma {:induction false} DrawnLinesMembers(metrics: seq<Metric>, selected: seq<string>, m: Metric)
    requires KeysDistinct(metrics)
    ensures m in DrawnLines(metrics, selected) <==> m in metrics && m.key in selected
  {
    if selected != [] {
      DrawnLinesMembers(metrics, selected[1..], m);
      if m in metrics {
        FindListedMetric(metrics, m);
      }
      assert selected == [selected[0]] + selected[1..];
    }
  }

  class TrendChart {
    var selectedRange: nat
    var selectedMetrics: seq<string>

    /** The range is one the buttons offer, and no metric key is selected twice. */
    predicate Valid()
      reads this
    {
      IsOfferedRange(selectedRange) && NoDuplicates(selectedMetrics)
    }

    /** Lines 65-66. */
    constructor ()
      ensures Valid()
      ensures selectedRange == 30 && selectedMetrics == ["casesOpened", "casesResolved"]
    {
      selectedRange, selectedMetrics := 30, ["casesOpened", "casesResolved"];
      assert DateRanges[1].value == 30;
    }

    function Window(data: seq<ChartData>): seq<ChartData>
      requires Valid()
      reads this
    {
      FilteredData(data, selectedRange)
    }

    /** Line 110: a range button sets its own value. */
    method SelectRange(i: nat)
      requires Valid() && i < |DateRanges|
      modifies this
      ensures Valid()
      ensures selectedRange == DateRanges[i].value && selectedMetrics == old(selectedMetrics)
    {
      selectedRange := DateRanges[i].value;
    }

    /** Lines 71-77: the key's badge flips, every other badge keeps its state. */
    method ToggleMetric(key: string)
      requires Valid()
      modifies this
      ensures Valid()
      ensures selectedMetrics == Toggle(old(selectedMetrics), key)
      ensures key in selectedMetrics <==> key !in old(selectedMetrics)
      ensures forall other :: other != key ==> (other in selectedMetrics <==> other in old(selectedMetrics))
      ensures selectedRange == old(selectedRange)
    {
      ToggleKeepsNoDuplicates(selectedMetrics, key);
      forall other | other != key
        ensures other in Toggle(selectedMetrics, key) <==> other in selectedMetrics
      {
        ToggleOthers(selectedMetrics, key, other);
      }
      selectedMetrics := Toggle(selectedMetrics, key);
    }
  }
}
