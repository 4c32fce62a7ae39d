/** The violations page (src/components/violations/ViolationsMain.tsx): the
    filter state, the cases passing it and the KPI figures computed from them.
    The current time is a parameter `now` in milliseconds since the epoch. */
module ViolationsMain {

  import opened Seqs
  import opened Text
  import opened Calendar
  import opened IssueTable
  import opened MockData
  import opened ViolationsFilterControls

  /** The search box (lines 35-43): an empty query imposes nothing; otherwise
      the lower-cased query occurs in the ASIN, product, type or id. */
  predicate SearchMatches(issue: Issue, search: string)
  {
    search == "" ||
    Contains(Lower(issue.asin), Lower(search)) ||
    Contains(Lower(issue.product), Lower(search)) ||
    Contains(Lower(issue.issueType), Lower(search)) ||
    Contains(Lower(issue.id), Lower(search))
  }

  /** Lines 33-56: search, then statuses and severities (the impact level),
      each list imposing nothing while empty. */
  predicate PageMatches(issue: Issue, f: FilterState)
  {
    SearchMatches(issue, f.search) &&
    (|f.statuses| == 0 || StatusLabel(issue.status) in f.statuses) &&
    (|f.severities| == 0 || ImpactLabel(issue.impact) in f.severities)
  }

  function FilteredIssues(issues: seq<Issue>, f: FilterState): seq<Issue>
  {
    Filter(i => PageMatches(i, f), issues)
  }

  /** A case is listed exactly when each of the three criteria admits it; the
      list keeps the fixture's order. */
  lemma FilteredIssuesMembers(issues: seq<Issue>, f: FilterState)
    ensures IsSubsequence(FilteredIssues(issues, f), issues)
    ensures forall x :: x in FilteredIssues(issues, f) <==>
      x in issues &&
      (f.search == "" ||
       Contains(Lower(x.asin), Lower(f.search)) || Contains(Lower(x.product), Lower(f.search)) ||
       Contains(Lower(x.issueType), Lower(f.search)) || Contains(Lower(x.id), Lower(f.search))) &&
      (|f.statuses| == 0 || StatusLabel(x.status) in f.statuses) &&
      (|f.severities| == 0 || ImpactLabel(x.impact) in f.severities)
  {
    FilterMembers(i => PageMatches(i, f), issues);
    FilterIsSubsequence(i => PageMatches(i, f), issues);
  }

  /** The date range, marketplace and brand selections are kept in the state
      and counted by the filter bar, but never narrow the case list. */
  lemma FilterIgnoresDateMarketplaceBrand(issues: seq<Issue>, f: FilterState,
                                          dateRange: string, marketplaces: seq<string>, brands: seq<string>)
    ensures FilteredIssues(issues, f.(dateRange := dateRange, marketplaces := marketplaces, brands := brands))
         == FilteredIssues(issues, f)
  {
    var g := f.(dateRange := dateRange, marketplaces := marketplaces, brands := brands);
    FilterExt(i => PageMatches(i, g), i => PageMatches(i, f), issues);
  }

  /** The default filters list every case. */
  lemma DefaultFiltersKeepAll(issues: seq<Issue>)
    ensures FilteredIssues(issues, DefaultFilters) == issues
  {
    FilterAll(i => PageMatches(i, DefaultFilters), issues);
  }

  /** Re-applying the filter to its own output changes nothing. */
  lemma FilteredIssuesIdempotent(issues: seq<Issue>, f: FilterState)
    ensures FilteredIssues(FilteredIssues(issues, f), f) == FilteredIssues(issues, f)
  {
    FilterIdempotent(i => PageMatches(i, f), issues);
  }

  predicate IsOpen(issue: Issue)
  {
    issue.status != Resolved
  }

  predicate IsResolved(issue: Issue)
  {
    issue.status == Resolved
  }

  /** Line 62: a High-impact case that is not resolved. */
  predicate IsOpenCritical(issue: Issue)
  {
    issue.impact == High && IsOpen(issue)
  }

  /** `Math.floor((now - opened) / msPerDay)`: whole days since the opening
      day's UTC midnight. Dafny's `/` is floor division for a positive divisor. */
  function DaysSinceOpened(issue: Issue, now: int): (d: int)
    ensures d * MsPerDay <= now - DayStart(issue.openedDay) < (d + 1) * MsPerDay
  {
    (now - DayStart(issue.openedDay)) / MsPerDay
  }

  /** Lines 63-67: an open case at least ten days old. */
  predicate SlaAtRisk(issue: Issue, now: int)
  {
    IsOpen(issue) && DaysSinceOpened(issue, now) >= 10
  }

  /** A case becomes at risk at the first millisecond of the tenth day after
      its opening day, and stays at risk until it is resolved. */
  lemma SlaAtRiskThreshold(issue: Issue, now: int)
    ensures SlaAtRisk(issue, now) <==> IsOpen(issue) && now >= DayStart(issue.openedDay + 10)
  {
    var d := DaysSinceOpened(issue, now);
    if d >= 10 {
      assert 10 * MsPerDay <= d * MsPerDay;
    } else {
      assert (d + 1) * MsPerDay <= 10 * MsPerDay;
    }
  }

  function SumAtRiskSales(issues: seq<Issue>): int
  {
    if issues == [] then 0 else issues[0].atRiskSales + SumAtRiskSales(issues[1..])
  }

  lemma SumThree(a: Issue, b: Issue, c: Issue)
    ensures SumAtRiskSales([a, b, c]) == a.atRiskSales + b.atRiskSales + c.atRiskSales
  {
    assert [a, b, c][1..] == [b, c] && [b, c][1..] == [c] && [c][1..] == [];
    assert SumAtRiskSales([c]) == c.atRiskSales;
    assert SumAtRiskSales([b, c]) == b.atRiskSales + c.atRiskSales;
  }

  datatype KpiMetrics = KpiMetrics(
    openViolations: nat,
    openCritical: nat,
    slaAtRisk: nat,
    meanTimeToResolution: real,
    atRiskSales: int,
    repeatViolationRate: int)

  /** Lines 60-87. The mean resolution time is the fixed 2.3 whenever the
      unfiltered fixture holds a resolved case, and the repeat rate is the
      fixed 29. */
  function Kpis(filtered: seq<Issue>, all: seq<Issue>, now: int): KpiMetrics
  {
    var open := Filter(IsOpen, filtered);
    KpiMetrics(
      |open|,
      |Filter(IsOpenCritical, filtered)|,
      |Filter(i => SlaAtRisk(i, now), filtered)|,
      if |Filter(IsResolved, all)| > 0 then 2.3 else 0.0,
      SumAtRiskSales(open),
      29)
  }

  /** Critical and at-risk cases are open cases; open and resolved cases
      together are all the listed cases. */
  lemma KpiBounds(filtered: seq<Issue>, all: seq<Issue>, now: int)
    ensures Kpis(filtered, all, now).openCritical <= Kpis(filtered, all, now).openViolations <= |filtered|
    ensures Kpis(filtered, all, now).slaAtRisk <= Kpis(filtered, all, now).openViolations
    ensures Kpis(filtered, all, now).openViolations + |Filter(IsResolved, filtered)| == |filtered|
  {
    FilterMonotone(IsOpenCritical, IsOpen, filtered);
    FilterMonotone(i => SlaAtRisk(i, now), IsOpen, filtered);
    FilterPartition(IsOpen, IsResolved, filtered);
  }

  /** When every listed case is resolved, nothing is open, critical, at risk
      or counted in the at-risk sales. */
  lemma AllResolvedKpis(filtered: seq<Issue>, all: seq<Issue>, now: int)
    requires forall i :: 0 <= i < |filtered| ==> filtered[i].status == Resolved
    ensures Kpis(filtered, all, now).openViolations == 0
    ensures Kpis(filtered, all, now).openCritical == 0
    ensures Kpis(filtered, all, now).slaAtRisk == 0
    ensures Kpis(filtered, all, now).atRiskSales == 0
  {
    FilterMonotone(IsOpen, i => false, filtered);
    FilterMonotone(IsOpenCritical, i => false, filtered);
    FilterMonotone(i => SlaAtRisk(i, now), i => false, filtered);
    FilterNone(filtered);
  }

  lemma {:induction false} FilterNone(s: seq<Issue>)
    ensures |Filter(i => false, s)| == 0
  {
    if s != [] {
      FilterNone(s[1..]);
    }
  }

  /** The fields of the fixture the KPIs read: six cases, C001, C002 and C004
      open (C001 and C004 High), the other three resolved. */
  predicate FixtureShape(m: seq<Issue>)
  {
    |m| == 6
    && m[0].status == AwaitingClientDocs && m[0].impact == High
    && m[1].status == POASubmitted && m[1].impact == Medium
    && m[2].status == Resolved && m[3].status == New && m[3].impact == High
    && m[4].status == Resolved && m[5].status == Resolved
    && m[0].openedDay == 20346 && m[1].openedDay == 20343 && m[3].openedDay == 20347
    && m[0].atRiskSales == 175194 && m[1].atRiskSales == 121681 && m[3].atRiskSales == 228079
  }

  lemma FixtureFields()
    ensures FixtureShape(MockIssues)
  {
  }

  /** `Filter` over a list of three, one element at a time. */
  lemma FilterThree<T>(p: T -> bool, a: T, b: T, c: T)
    ensures Filter(p, [a, b, c]) ==
      (if p(a) then [a] else []) + (if p(b) then [b] else []) + (if p(c) then [c] else [])
  {
    FilterCons(p, c, []);
    assert [c] == [c] + [];
    FilterCons(p, b, [c]);
    assert [b, c] == [b] + [c];
    FilterCons(p, a, [b, c]);
    assert [a, b, c] == [a] + [b, c];
  }

  /** `Filter` over a list of six, one element at a time. */
  lemma FilterSix<T>(p: T -> bool, a: T, b: T, c: T, d: T, e: T, f: T)
    ensures Filter(p, [a, b, c, d, e, f]) == Filter(p, [a, b, c]) + Filter(p, [d, e, f])
  {
    assert [a, b, c, d, e, f] == [a, b, c] + [d, e, f];
    FilterConcat(p, [a, b, c], [d, e, f]);
  }

  lemma ShapeOpen(m: seq<Issue>)
    requires FixtureShape(m)
    ensures Filter(IsOpen, m) == [m[0], m[1], m[3]]
  {
    assert m == [m[0], m[1], m[2], m[3], m[4], m[5]];
    FilterSix(IsOpen, m[0], m[1], m[2], m[3], m[4], m[5]);
    FilterThree(IsOpen, m[0], m[1], m[2]);
    FilterThree(IsOpen, m[3], m[4], m[5]);
  }

  lemma ShapeOpenCritical(m: seq<Issue>)
    requires FixtureShape(m)
    ensures Filter(IsOpenCritical, m) == [m[0], m[3]]
  {
    assert m == [m[0], m[1], m[2], m[3], m[4], m[5]];
    FilterSix(IsOpenCritical, m[0], m[1], m[2], m[3], m[4], m[5]);
    FilterThree(IsOpenCritical, m[0], m[1], m[2]);
    FilterThree(IsOpenCritical, m[3], m[4], m[5]);
  }

  lemma ShapeResolved(m: seq<Issue>)
    requires FixtureShape(m)
    ensures |Filter(IsResolved, m)| == 3
  {
    assert m == [m[0], m[1], m[2], m[3], m[4], m[5]];
    FilterSix(IsResolved, m[0], m[1], m[2], m[3], m[4], m[5]);
    FilterThree(IsResolved, m[0], m[1], m[2]);
    FilterThree(IsResolved, m[3], m[4], m[5]);
  }

  lemma ShapeSla(m: seq<Issue>, now: int)
    requires FixtureShape(m) && now == 20353 * MsPerDay
    ensures Filter(i => SlaAtRisk(i, now), m) == [m[1]]
  {
    SlaAtRiskThreshold(m[0], now);
    SlaAtRiskThreshold(m[1], now);
    SlaAtRiskThreshold(m[3], now);
    assert m == [m[0], m[1], m[2], m[3], m[4], m[5]];
    FilterSix(i => SlaAtRisk(i, now), m[0], m[1], m[2], m[3], m[4], m[5]);
    FilterThree(i => SlaAtRisk(i, now), m[0], m[1], m[2]);
    FilterThree(i => SlaAtRisk(i, now), m[3], m[4], m[5]);
  }

  /** With the default filters on the fixture, at midnight UTC of
      2025-09-22 (day 20353): three open cases (C001, C002, C004), two of them
      High, one (C002, opened 2025-09-12) ten days old, and
      175194 + 121681 + 228079 = 524954 in sales at risk. */
  lemma FixtureKpis()
    ensures Kpis(FilteredIssues(MockIssues, DefaultFilters), MockIssues, 20353 * MsPerDay)
         == KpiMetrics(3, 2, 1, 2.3, 524954, 29)
  {
    var m := MockIssues;
    DefaultFiltersKeepAll(m);
    FixtureFields();
    ShapeOpen(m);
    ShapeOpenCritical(m);
    ShapeResolved(m);
    ShapeSla(m, 20353 * MsPerDay);
    SumThree(m[0], m[1], m[3]);
  }

  /** The page's own state. */
  class ViolationsPage {
    var filters: FilterState

    constructor ()
      ensures filters == DefaultFilters
    {
      filters := DefaultFilters;
    }

    /** `handleFilterChange`: merges a partial update into the state. */
    method HandleFilterChange(patch: FilterPatch)
      modifies this
      ensures filters == Merge(old(filters), patch)
    {
      filters := Merge(filters, patch);
    }

    /** The cases handed to the table, from the fixture. */
    method Listed() returns (r: seq<Issue>)
      ensures r == FilteredIssues(MockIssues, filters)
      ensures IsSubsequence(r, MockIssues)
    {
      r := FilteredIssues(MockIssues, filters);
      FilteredIssuesMembers(MockIssues, filters);
    }
  }
}
