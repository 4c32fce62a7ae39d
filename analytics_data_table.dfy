/** The detailed violation table of the analytics page
    (src/components/analytics/AnalyticsDataTable.tsx): a fixed list of
    violation records, three filter inputs that must all admit a row, and the
    badge variants chosen for the status and priority columns. */
module AnalyticsDataTable {

  import opened Wrappers
  import opened Seqs
  import opened Text

  /** Lines 10-20. Status and priority are kept as the raw strings the badge
      lookups receive, so that the fallback branches stay reachable. */
  datatype ViolationData = ViolationData(
    id: string,
    asin: string,
    product: string,
    violationType: string,
    status: string,
    dateReported: string,
    dateResolved: Option<string>,
    protectedRevenue: int,
    priority: string)

  /** The variants of the badge component that the two lookups use. */
  datatype BadgeVariant = Default | Destructive | Secondary | Outline

  /** The five records of lines 22-75. */
  const MockViolations: seq<ViolationData> := [
    ViolationData("V001", "B08X123ABC", "Wireless Bluetooth Headphones", "IP Complaint",
                  "Resolved", "2024-11-15", Some("2024-11-20"), 15400, "High"),
    ViolationData("V002", "B09Y456DEF", "Premium Phone Case Set", "Safety Issue",
                  "In Progress", "2024-11-18", None, 8200, "High"),
    ViolationData("V003", "B07Z789GHI", "Portable Bluetooth Speaker", "Product Quality",
                  "Active", "2024-11-22", None, 12100, "Medium"),
    ViolationData("V004", "B06W234JKL", "Tempered Glass Screen Protector", "IP Complaint",
                  "Resolved", "2024-10-28", Some("2024-11-05"), 3800, "Low"),
    ViolationData("V005", "B05T567MNO", "Wireless Charging Pad", "Safety Issue",
                  "Active", "2024-11-25", None, 9600, "High")
  ]

  /** Lines 83-86: the lower-cased term occurs in the ASIN, product or type.
      There is no guard for an empty term; the empty string occurs anywhere. */
  predicate SearchMatches(v: ViolationData, term: string)
  {
    Contains(Lower(v.asin), Lower(term)) ||
    Contains(Lower(v.product), Lower(term)) ||
    Contains(Lower(v.violationType), Lower(term))
  }

  /** Lines 83-91: search, status and type must all admit the row. */
  predicate RowMatches(v: ViolationData, term: string, statusFilter: string, typeFilter: string)
  {
    SearchMatches(v, term) &&
    (statusFilter == "all" || v.status == statusFilter) &&
    (typeFilter == "all" || v.violationType == typeFilter)
  }

  /** Lines 82-92; the footer's "Showing n of m" is `|r|` of `|data|`. */
  function FilteredData(data: seq<ViolationData>, term: string, statusFilter: string, typeFilter: string): (r: seq<ViolationData>)
    ensures |r| <= |data|
  {
    Filter(v => RowMatches(v, term, statusFilter, typeFilter), data)
  }

  /** A row is shown exactly when all three criteria admit it, and the rows
      keep the order of the data. */
  lemma FilteredDataMembers(data: seq<ViolationData>, term: string, statusFilter: string, typeFilter: string)
    ensures IsSubsequence(FilteredData(data, term, statusFilter, typeFilter), data)
    ensures forall v :: v in FilteredData(data, term, statusFilter, typeFilter) <==>
      v in data &&
      (Contains(Lower(v.asin), Lower(term)) || Contains(Lower(v.product), Lower(term)) ||
       Contains(Lower(v.violationType), Lower(term))) &&
      (statusFilter == "all" || v.status == statusFilter) &&
      (typeFilter == "all" || v.violationType == typeFilter)
  {
    FilterMembers(v => RowMatches(v, term, statusFilter, typeFilter), data);
    FilterIsSubsequence(v => RowMatches(v, term, statusFilter, typeFilter), data);
  }

  /** The empty term matches every row. */
  lemma EmptySearchMatches(v: ViolationData)
    ensures SearchMatches(v, "")
  {
    ContainsEmpty(Lower(v.asin));
  }

  /** An empty term with both selects at "all" shows every row, in order. */
  lemma InitialInputsShowAll(data: seq<ViolationData>)
    ensures FilteredData(data, "", "all", "all") == data
  {
    forall i | 0 <= i < |data|
      ensures RowMatches(data[i], "", "all", "all")
    {
      EmptySearchMatches(data[i]);
    }
    FilterAll(v => RowMatches(v, "", "all", "all"), data);
  }

  /** Lines 94-105. */
  function StatusBadgeVariant(status: string): (r: BadgeVariant)
    ensures r == Destructive <==> status == "Active"
    ensures r == Default <==> status == "Resolved"
    ensures r == Secondary <==> status == "In Progress"
  {
    match status
    case "Active" => Destructive
    case "Resolved" => Default
    case "In Progress" => Secondary
    case _ => Outline
  }

  /** Lines 107-118: "Low" and every unknown priority share the fallback. */
  function PriorityBadgeVariant(priority: string): (r: BadgeVariant)
    ensures r == Destructive <==> priority == "High"
    ensures r == Secondary <==> priority == "Medium"
    ensures r != Default
  {
    match priority
    case "High" => Destructive
    case "Medium" => Secondary
    case "Low" => Outline
    case _ => Outline
  }

  /** The status badge falls back to "outline" exactly for a status outside
      the three the record type allows; the priority badge also for "Low". */
  lemma BadgeFallbacks(status: string, priority: string)
    ensures StatusBadgeVariant(status) == Outline <==> status !in ["Active", "Resolved", "In Progress"]
    ensures PriorityBadgeVariant(priority) == Outline <==> priority !in ["High", "Medium"]
  {
  }

  /** With the initial inputs the footer reads "Showing 5 of 5", and the type
      select set to "IP Complaint" leaves V001 and V004. */
  lemma FixtureRows()
    ensures |FilteredData(MockViolations, "", "all", "all")| == |MockViolations| == 5
    ensures FilteredData(MockViolations, "", "all", "IP Complaint") == [MockViolations[0], MockViolations[3]]
  {
    InitialInputsShowAll(MockViolations);
    var p := v => RowMatches(v, "", "all", "IP Complaint");
    forall i | 0 <= i < 5
      ensures p(MockViolations[i]) <==> i == 0 || i == 3
    {
      EmptySearchMatches(MockViolations[i]);
    }
    var s := MockViolations;
    assert s == [s[0]] + ([s[1]] + ([s[2]] + ([s[3]] + ([s[4]] + []))));
    FilterCons(p, s[0], [s[1]] + ([s[2]] + ([s[3]] + ([s[4]] + []))));
    FilterCons(p, s[1], [s[2]] + ([s[3]] + ([s[4]] + [])));
    FilterCons(p, s[2], [s[3]] + ([s[4]] + []));
    FilterCons(p, s[3], [s[4]] + []);
    FilterCons(p, s[4], []);
  }
}
