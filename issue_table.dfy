/** The violation/case table (src/components/issues/IssueTable.tsx): the case
    record, the table's own search and status filter, the click-to-sort state
    and the field/direction comparator handed to the runtime's stable sort. */
module IssueTable {

  import opened Seqs
  import opened Text
  import opened Sorting
  import opened Calendar

  datatype CaseStatus = New | AwaitingClientDocs | POASubmitted | Resolved

  function StatusLabel(s: CaseStatus): string
  {
    match s
    case New => "New"
    case AwaitingClientDocs => "Awaiting Client Docs"
    case POASubmitted => "POA Submitted"
    case Resolved => "Resolved"
  }

  datatype Impact = Low | Medium | High

  function ImpactLabel(i: Impact): string
  {
    match i
    case Low => "Low"
    case Medium => "Medium"
    case High => "High"
  }

  datatype LogEntry = LogEntry(ts: string, event: string)

  /** A case record. `openedDay` is a day number: the ISO date `opened` denotes
      midnight UTC of that day, `DayStart(openedDay)`. */
  datatype Issue = Issue(
    id: string,
    asin: string,
    product: string,
    issueType: string,
    status: CaseStatus,
    openedDay: int,
    atRiskSales: int,
    impact: Impact,
    log: seq<LogEntry>)

  datatype SortField = ByImpact | ByAtRiskSales | ByOpened | ByProduct

  datatype SortDirection = Asc | Desc

  datatype SortState = SortState(field: SortField, direction: SortDirection)

  /** The sort state before any click: impact, descending. */
  const InitialSortState := SortState(ByImpact, Desc)

  /** `handleSort`: the clicked field becomes active; the direction becomes
      ascending only when that field was already active and descending. */
  function NextSortState(prev: SortState, field: SortField): (r: SortState)
    ensures r.field == field
    ensures r.direction == Asc <==> prev.field == field && prev.direction == Desc
  {
    SortState(field, if prev.field == field && prev.direction == Desc then Asc else Desc)
  }

  /** Clicking the same header again and again alternates the direction,
      starting with descending when the field was not active before. */
  lemma {:induction false} RepeatedClicksAlternate(prev: SortState, field: SortField)
    ensures NextSortState(NextSortState(prev, field), field).direction
            != NextSortState(prev, field).direction
    ensures prev.field != field ==> NextSortState(prev, field).direction == Desc
  {
  }

  /** The table's filter (lines 51-57): the lower-cased query occurs in the
      lower-cased ASIN or product name, and the status drop-down is "all" or
      the status label itself. */
  predicate TableMatches(issue: Issue, search: string, statusFilter: string)
  {
    (Contains(Lower(issue.asin), Lower(search)) || Contains(Lower(issue.product), Lower(search))) &&
    (statusFilter == "all" || StatusLabel(issue.status) == statusFilter)
  }

  function TableFilter(issues: seq<Issue>, search: string, statusFilter: string): seq<Issue>
  {
    Filter(i => TableMatches(i, search, statusFilter), issues)
  }

  /** An issue is shown exactly when it is an input issue, the query occurs in
      its ASIN or its product name (its type and id are not searched) and the
      status filter is "all" or its status. The result keeps the input order. */
  lemma TableFilterMembers(issues: seq<Issue>, search: string, statusFilter: string)
    ensures IsSubsequence(TableFilter(issues, search, statusFilter), issues)
    ensures forall x :: x in TableFilter(issues, search, statusFilter) <==>
      x in issues &&
      (Contains(Lower(x.asin), Lower(search)) || Contains(Lower(x.product), Lower(search))) &&
      (statusFilter == "all" || StatusLabel(x.status) == statusFilter)
  {
    FilterMembers(i => TableMatches(i, search, statusFilter), issues);
    FilterIsSubsequence(i => TableMatches(i, search, statusFilter), issues);
  }

  /** With an empty query and "all" statuses every issue is shown, in order. */
  lemma TableFilterKeepsAll(issues: seq<Issue>)
    ensures TableFilter(issues, "", "all") == issues
  {
    forall x | x in issues ensures TableMatches(x, "", "all") {
      ContainsEmpty(Lower(x.asin));
    }
    FilterAll(i => TableMatches(i, "", "all"), issues);
  }

  function ImpactRank(i: Impact): int
  {
    match i
    case High => 3
    case Medium => 2
    case Low => 1
  }

  /** The comparator of lines 60-84: negative puts `a` first, positive puts `b`
      first. Descending order compares `b` with `a` for the numeric fields and
      negates the product comparison. */
  function Compare(st: SortState, a: Issue, b: Issue): int
  {
    match st.field
    case ByImpact =>
      var diff := ImpactRank(b.impact) - ImpactRank(a.impact);
      if st.direction == Desc then diff else -diff
    case ByAtRiskSales =>
      var diff := b.atRiskSales - a.atRiskSales;
      if st.direction == Desc then diff else -diff
    case ByOpened =>
      var diff := DayStart(b.openedDay) - DayStart(a.openedDay);
      if st.direction == Desc then diff else -diff
    case ByProduct =>
      var diff := LexCompare(a.product, b.product);
      if st.direction == Desc then -diff else diff
  }

  lemma CompareAntisymmetric(st: SortState, a: Issue, b: Issue)
    ensures Compare(st, a, b) == -Compare(st, b, a)
  {
    if st.field == ByProduct {
      LexCompareAntisymmetric(a.product, b.product);
    }
  }

  lemma CompareTransitive(st: SortState, a: Issue, b: Issue, c: Issue)
    requires Compare(st, a, b) <= 0 && Compare(st, b, c) <= 0
    ensures Compare(st, a, c) <= 0
  {
    if st.field == ByProduct {
      if st.direction == Asc {
        LexCompareTransitive(a.product, b.product, c.product);
      } else {
        LexCompareAntisymmetric(a.product, b.product);
        LexCompareAntisymmetric(b.product, c.product);
        LexCompareAntisymmetric(a.product, c.product);
        LexCompareTransitive(c.product, b.product, a.product);
      }
    }
  }

  /** The comparator as the function value handed to `Array.prototype.sort`. */
  function Comparator(st: SortState): (Issue, Issue) -> int
  {
    (a: Issue, b: Issue) => Compare(st, a, b)
  }

  /** Each sort state's comparator is antisymmetric and transitive, which is
      what the stable sort's guarantees rest on. */
  lemma ComparatorIsPreorder(st: SortState)
    ensures forall a, b :: Comparator(st)(a, b) == -Comparator(st)(b, a)
    ensures forall a, b, c :: Comparator(st)(a, b) <= 0 && Comparator(st)(b, c) <= 0 ==> Comparator(st)(a, c) <= 0
  {
    forall a, b ensures Comparator(st)(a, b) == -Comparator(st)(b, a) {
      CompareAntisymmetric(st, a, b);
    }
    forall a, b, c | Comparator(st)(a, b) <= 0 && Comparator(st)(b, c) <= 0
      ensures Comparator(st)(a, c) <= 0
    {
      CompareTransitive(st, a, b, c);
    }
  }

  /** The order the sort state asks for, field by field: impact by rank High 3,
      Medium 2, Low 1; at-risk sales and opening day numerically; product
      lexicographically; descending reverses each. */
  predicate FieldOrder(st: SortState, a: Issue, b: Issue)
  {
    match st.field
    case ByImpact =>
      if st.direction == Desc then ImpactRank(a.impact) >= ImpactRank(b.impact)
      else ImpactRank(a.impact) <= ImpactRank(b.impact)
    case ByAtRiskSales =>
      if st.direction == Desc then a.atRiskSales >= b.atRiskSales
      else a.atRiskSales <= b.atRiskSales
    case ByOpened =>
      if st.direction == Desc then a.openedDay >= b.openedDay
      else a.openedDay <= b.openedDay
    case ByProduct =>
      if st.direction == Desc then LexCompare(a.product, b.product) >= 0
      else LexCompare(a.product, b.product) <= 0
  }

  lemma CompareFieldOrder(st: SortState, a: Issue, b: Issue)
    ensures Compare(st, a, b) <= 0 <==> FieldOrder(st, a, b)
  {
    if st.field == ByProduct && st.direction == Desc {
      LexCompareAntisymmetric(a.product, b.product);
    }
  }

  /** The rows sorted under a sort state: a rearrangement of the input, in the
      field order the state names, with tied rows in their input order. */
  lemma SortedRows(st: SortState, s: seq<Issue>)
    ensures multiset(InsertionSort(Comparator(st), s)) == multiset(s)
    ensures var r := InsertionSort(Comparator(st), s);
      forall i, j :: 0 <= i < j < |r| ==> FieldOrder(st, r[i], r[j])
    ensures forall z :: TiedWith(Comparator(st), InsertionSort(Comparator(st), s), z)
                     == TiedWith(Comparator(st), s, z)
  {
    ComparatorIsPreorder(st);
    InsertionSortPermutation(Comparator(st), s);
    InsertionSortSorted(Comparator(st), s);
    var r := InsertionSort(Comparator(st), s);
    forall i, j | 0 <= i < j < |r| ensures FieldOrder(st, r[i], r[j]) {
      assert Comparator(st)(r[i], r[j]) <= 0;
      CompareFieldOrder(st, r[i], r[j]);
    }
    forall z ensures TiedWith(Comparator(st), r, z) == TiedWith(Comparator(st), s, z) {
      InsertionSortStable(Comparator(st), s, z);
    }
  }

  /** The rows the table shows (lines 50-85): the issues passing the table's
      filter, copied into a fresh array and sorted there by the current sort
      state's comparator. */
  method FilteredAndSortedIssues(issues: seq<Issue>, search: string, statusFilter: string, st: SortState)
    returns (rows: seq<Issue>)
    ensures rows == InsertionSort(Comparator(st), TableFilter(issues, search, statusFilter))
    ensures multiset(rows) == multiset(TableFilter(issues, search, statusFilter))
    ensures forall i, j :: 0 <= i < j < |rows| ==> FieldOrder(st, rows[i], rows[j])
    ensures forall z :: TiedWith(Comparator(st), rows, z)
                     == TiedWith(Comparator(st), TableFilter(issues, search, statusFilter), z)
  {
    var filtered := TableFilter(issues, search, statusFilter);
    var a := new Issue[|filtered|](k requires 0 <= k < |filtered| => filtered[k]);
    assert a[..] == filtered;
    SortInPlace(a, Comparator(st));
    rows := a[..];
    SortedRows(st, filtered);
  }

  /** The table component's own state. */
  class IssueTableView {
    var search: string
    var statusFilter: string
    var sortState: SortState

    constructor ()
      ensures search == "" && statusFilter == "all" && sortState == InitialSortState
    {
      search := "";
      statusFilter := "all";
      sortState := InitialSortState;
    }

    method HandleSort(field: SortField)
      modifies this
      ensures sortState == NextSortState(old(sortState), field)
      ensures search == old(search) && statusFilter == old(statusFilter)
    {
      sortState := SortState(field, if sortState.field == field && sortState.direction == Desc then Asc else Desc);
    }

    method SetSearch(value: string)
      modifies this
      ensures search == value
      ensures statusFilter == old(statusFilter) && sortState == old(sortState)
    {
      search := value;
    }

    method SetStatusFilter(value: string)
      modifies this
      ensures statusFilter == value
      ensures search == old(search) && sortState == old(sortState)
    {
      statusFilter := value;
    }

    /** The rows rendered for the `issues` prop under the current state. */
    method Rows(issues: seq<Issue>) returns (rows: seq<Issue>)
      ensures rows == InsertionSort(Comparator(sortState), TableFilter(issues, search, statusFilter))
    {
      rows := FilteredAndSortedIssues(issues, search, statusFilter, sortState);
    }
  }
}
