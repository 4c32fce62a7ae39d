/** The dashboard page (src/pages/Index.tsx): the page-level state the
    handlers set, the header title looked up from the current page id, and the
    per-type case counts folded from the case list. */
module IndexPage {

  import opened Wrappers
  import opened Seqs
  import opened IssueTable
  import MockData

  /** One entry of the per-type breakdown: a case type and how many cases
      have it. */
  datatype TypeCount = TypeCount(name: string, value: int)

  function Names(acc: seq<TypeCount>): (r: seq<string>)
    ensures |r| == |acc|
    ensures forall j :: 0 <= j < |acc| ==> r[j] == acc[j].name
  {
    seq(|acc|, j requires 0 <= j < |acc| => acc[j].name)
  }

  /** The sum of the entries' values. */
  function Total(acc: seq<TypeCount>): int
  {
    if acc == [] then 0 else Total(acc[..|acc| - 1]) + acc[|acc| - 1].value
  }

  /** Raising one entry's value by `d` raises the total by `d`. */
  lemma {:induction false} TotalUpdate(acc: seq<TypeCount>, k: int, d: int)
    requires 0 <= k < |acc|
    ensures Total(acc[k := TypeCount(acc[k].name, acc[k].value + d)]) == Total(acc) + d
  {
    var acc' := acc[k := TypeCount(acc[k].name, acc[k].value + d)];
    if k < |acc| - 1 {
      assert acc'[..|acc'| - 1] == acc[..|acc| - 1][k := TypeCount(acc[k].name, acc[k].value + d)];
      TotalUpdate(acc[..|acc| - 1], k, d);
    } else {
      assert acc'[..|acc'| - 1] == acc[..|acc| - 1];
    }
  }

  /** The type of every case, in list order. */
  function Types(issues: seq<Issue>): (r: seq<string>)
    ensures |r| == |issues|
    ensures forall j :: 0 <= j < |issues| ==> r[j] == issues[j].issueType
  {
    seq(|issues|, j requires 0 <= j < |issues| => issues[j].issueType)
  }

  /** Each entry's value is the number of occurrences of its name in `s`. */
  predicate HasCounts(acc: seq<TypeCount>, s: seq<string>)
  {
    forall j :: 0 <= j < |acc| ==> acc[j].value == Count(s, acc[j].name)
  }

  /** The entries are the distinct types of `s` in order, each with its count. */
  predicate CountsOf(acc: seq<TypeCount>, s: seq<string>)
  {
    Names(acc) == Distinct(s) && HasCounts(acc, s)
  }

  lemma FoundCounts(acc: seq<TypeCount>, s: seq<string>, k: int)
    requires HasCounts(acc, s) && NoDuplicates(Names(acc)) && 0 <= k < |acc|
    ensures HasCounts(acc[k := TypeCount(acc[k].name, acc[k].value + 1)], s + [acc[k].name])
  {
    var t := acc[k].name;
    var acc' := acc[k := TypeCount(t, acc[k].value + 1)];
    forall j | 0 <= j < |acc'| ensures acc'[j].value == Count(s + [t], acc'[j].name) {
      CountConcat(s, [t], acc'[j].name);
      if j != k {
        assert acc'[j].name == Names(acc)[j] != Names(acc)[k];
      }
    }
  }

  lemma NewCounts(acc: seq<TypeCount>, s: seq<string>, t: string)
    requires HasCounts(acc, s) && t !in Names(acc) && t !in s
    ensures HasCounts(acc + [TypeCount(t, 1)], s + [t])
  {
    var acc' := acc + [TypeCount(t, 1)];
    forall j | 0 <= j < |acc'| ensures acc'[j].value == Count(s + [t], acc'[j].name) {
      CountConcat(s, [t], acc'[j].name);
      if j < |acc| {
        assert acc'[j].name == Names(acc)[j] != t;
      }
    }
  }

  /** A case whose type already has an entry: raising that entry by one
      accounts for the case. */
  lemma FoundStep(acc: seq<TypeCount>, s: seq<string>, k: int, s': seq<string>)
    requires CountsOf(acc, s) && 0 <= k < |acc| && s' == s + [acc[k].name]
    ensures CountsOf(acc[k := TypeCount(acc[k].name, acc[k].value + 1)], s')
  {
    var t := acc[k].name;
    var acc' := acc[k := TypeCount(t, acc[k].value + 1)];
    assert t in s by { assert Names(acc)[k] == t; }
    DistinctSnoc(s, t);
    assert Names(acc') == Names(acc);
    FoundCounts(acc, s, k);
  }

  /** A case whose type has no entry yet: a new entry with count 1 accounts
      for it. */
  lemma NewStep(acc: seq<TypeCount>, s: seq<string>, t: string, s': seq<string>)
    requires CountsOf(acc, s) && t !in Names(acc) && s' == s + [t]
    ensures CountsOf(acc + [TypeCount(t, 1)], s')
  {
    var acc' := acc + [TypeCount(t, 1)];
    assert t !in s;
    DistinctSnoc(s, t);
    assert Names(acc') == Names(acc) + [t];
    NewCounts(acc, s, t);
  }

  /** The position of the first entry named `t`, or `|acc|` when there is none
      (`acc.find(item => item.name === t)`). */
  function FindEntry(acc: seq<TypeCount>, t: string): (k: nat)
    ensures k <= |acc|
    ensures forall j :: 0 <= j < k ==> acc[j].name != t
    ensures k < |acc| ==> acc[k].name == t
  {
    if acc == [] || acc[0].name == t then 0 else 1 + FindEntry(acc[1..], t)
  }

  /** One step of the reduce: a found entry has its count raised by one,
      otherwise an entry with count 1 is appended. */
  function Step(acc: seq<TypeCount>, t: string): seq<TypeCount>
  {
    var k := FindEntry(acc, t);
    if k < |acc| then acc[k := TypeCount(t, acc[k].value + 1)] else acc + [TypeCount(t, 1)]
  }

  /** The reduce over the cases' types, from the empty list. */
  function Fold(types: seq<string>): seq<TypeCount>
  {
    if types == [] then [] else Step(Fold(types[..|types| - 1]), types[|types| - 1])
  }

  /** One step of the reduce adds one to the total. */
  lemma StepTotal(acc: seq<TypeCount>, t: string)
    ensures Total(Step(acc, t)) == Total(acc) + 1
  {
    var k := FindEntry(acc, t);
    if k < |acc| {
      assert acc[k].name == t;
      assert Step(acc, t) == acc[k := TypeCount(acc[k].name, acc[k].value + 1)];
      TotalUpdate(acc, k, 1);
    } else {
      var acc' := acc + [TypeCount(t, 1)];
      assert acc'[..|acc'| - 1] == acc;
    }
  }

  /** One step of the reduce keeps the entries in step with the types seen. */
  lemma StepCounts(acc: seq<TypeCount>, s: seq<string>, t: string)
    requires CountsOf(acc, s)
    ensures CountsOf(Step(acc, t), s + [t])
  {
    var k := FindEntry(acc, t);
    if k < |acc| {
      assert acc[k].name == t;
      assert Step(acc, t) == acc[k := TypeCount(acc[k].name, acc[k].value + 1)];
      FoundStep(acc, s, k, s + [t]);
    } else {
      assert t !in Names(acc) by {
        forall j | 0 <= j < |acc| ensures Names(acc)[j] != t { }
      }
      NewStep(acc, s, t, s + [t]);
    }
  }

  /** The fold has one entry per distinct type, in order of first appearance,
      each counting that type, and the counts add up to the number of types. */
  lemma {:induction false} FoldCounts(types: seq<string>)
    ensures CountsOf(Fold(types), types)
    ensures Total(Fold(types)) == |types|
  {
    if types == [] {
      assert Names([]) == [];
    } else {
      var s := types[..|types| - 1];
      assert types == s + [types[|types| - 1]];
      FoldCounts(s);
      StepCounts(Fold(s), s, types[|types| - 1]);
      StepTotal(Fold(s), types[|types| - 1]);
    }
  }

  /** The reduce behind `violationData`, over the cases' types: for each type
      the list is searched for an entry with that name; a found entry has its
      count raised by one in place, otherwise a new entry with count 1 is
      appended. */
  method CountTypes(types: seq<string>) returns (acc: seq<TypeCount>)
    ensures acc == Fold(types)
  {
    acc := [];
    var i := 0;
    while i < |types|
      invariant 0 <= i <= |types|
      invariant acc == Fold(types[..i])
    {
      var t := types[i];
      assert types[..i + 1][..i] == types[..i];
      var k := 0;
      while k < |acc| && acc[k].name != t
        invariant 0 <= k <= |acc|
        invariant forall j :: 0 <= j < k ==> acc[j].name != t
      {
        k := k + 1;
      }
      if k < |acc| {
        acc := acc[k := TypeCount(t, acc[k].value + 1)];
      } else {
        acc := acc + [TypeCount(t, 1)];
      }
      i := i + 1;
    }
    assert types[..|types|] == types;
  }

  /** `violationData`: the cases folded into (type, count) entries. The result
      has one entry per distinct type in order of first appearance, each
      counting the cases of its type, and the counts are at least one and add
      up to the number of cases. */
  method ViolationData(issues: seq<Issue>) returns (acc: seq<TypeCount>)
    ensures Names(acc) == Distinct(Types(issues))
    ensures forall j :: 0 <= j < |acc| ==> acc[j].value == Count(Types(issues), acc[j].name)
    ensures forall j :: 0 <= j < |acc| ==> acc[j].value >= 1
    ensures Total(acc) == |issues|
  {
    acc := CountTypes(Types(issues));
    FoldCounts(Types(issues));
    forall j | 0 <= j < |acc| ensures acc[j].value >= 1 {
      assert Names(acc)[j] in Types(issues);
    }
  }

  /** The types of the six fixture cases, in list order. */
  lemma FixtureTypes()
    ensures Types(MockData.MockIssues) ==
            ["IP Complaint", "Product Condition Complaint", "Listing Violation",
             "IP Complaint", "Food & Safety Issue", "Product Condition Complaint"]
  {
  }

  /** How often a value occurs in a list of six: one for each position holding it. */
  lemma CountSix<T>(a: T, b: T, c: T, d: T, e: T, f: T, x: T)
    ensures Count([a, b, c, d, e, f], x) ==
            (if a == x then 1 else 0) + (if b == x then 1 else 0) + (if c == x then 1 else 0)
            + (if d == x then 1 else 0) + (if e == x then 1 else 0) + (if f == x then 1 else 0)
  {
    var s := [a, b, c, d, e, f];
    assert s[1..] == [b, c, d, e, f];
    assert Count([f], x) == (if f == x then 1 else 0) by { assert [f][1..] == []; }
    assert Count([e, f], x) == (if e == x then 1 else 0) + Count([f], x) by { assert [e, f][1..] == [f]; }
    assert Count([d, e, f], x) == (if d == x then 1 else 0) + Count([e, f], x) by {
      assert [d, e, f][1..] == [e, f];
    }
    assert Count([c, d, e, f], x) == (if c == x then 1 else 0) + Count([d, e, f], x) by {
      assert [c, d, e, f][1..] == [d, e, f];
    }
    assert Count([b, c, d, e, f], x) == (if b == x then 1 else 0) + Count([c, d, e, f], x) by {
      assert [b, c, d, e, f][1..] == [c, d, e, f];
    }
  }

  /** Two different values are their own distinct list. */
  lemma DistinctOfTwo<T>(a: T, b: T)
    requires a != b
    ensures Distinct([a, b]) == [a, b]
  {
    DistinctSnoc([], a);
    assert [a] == [] + [a];
    DistinctSnoc([a], b);
    assert [a, b] == [a] + [b];
  }

  /** Three different values are their own distinct list. */
  lemma DistinctOfThree<T>(a: T, b: T, c: T)
    requires a != b && a != c && b != c
    ensures Distinct([a, b, c]) == [a, b, c]
  {
    DistinctOfTwo(a, b);
    DistinctSnoc([a, b], c);
    assert [a, b, c] == [a, b] + [c];
  }

  /** Appending a value that is already present leaves the distinct list as
      it was. */
  lemma DistinctSnocPresent<T>(s: seq<T>, x: T, k: int)
    requires 0 <= k < |s| && s[k] == x
    ensures Distinct(s + [x]) == Distinct(s)
  {
    DistinctSnoc(s, x);
  }

  /** The distinct values of a list shaped like the fixture's types. */
  lemma DistinctOfShape<T>(ip: T, pc: T, lv: T, fs: T)
    requires ip != pc && ip != lv && ip != fs && pc != lv && pc != fs && lv != fs
    ensures Distinct([ip, pc, lv, ip, fs, pc]) == [ip, pc, lv, fs]
  {
    DistinctOfThree(ip, pc, lv);
    DistinctSnocPresent([ip, pc, lv], ip, 0);
    assert [ip, pc, lv] + [ip] == [ip, pc, lv, ip];
    DistinctSnoc([ip, pc, lv, ip], fs);
    assert [ip, pc, lv, ip] + [fs] == [ip, pc, lv, ip, fs];
    DistinctSnocPresent([ip, pc, lv, ip, fs], pc, 1);
    assert [ip, pc, lv, ip, fs] + [pc] == [ip, pc, lv, ip, fs, pc];
  }

  /** The fixture's breakdown: IP Complaint 2, Product Condition Complaint 2,
      Listing Violation 1, Food & Safety Issue 1, in that order. */
  lemma FixtureTypeCounts()
    ensures Distinct(Types(MockData.MockIssues)) ==
            ["IP Complaint", "Product Condition Complaint", "Listing Violation", "Food & Safety Issue"]
    ensures Count(Types(MockData.MockIssues), "IP Complaint") == 2
    ensures Count(Types(MockData.MockIssues), "Product Condition Complaint") == 2
    ensures Count(Types(MockData.MockIssues), "Listing Violation") == 1
    ensures Count(Types(MockData.MockIssues), "Food & Safety Issue") == 1
  {
    var ip, pc, lv, fs := "IP Complaint", "Product Condition Complaint",
                          "Listing Violation", "Food & Safety Issue";
    FixtureTypes();
    DistinctOfShape(ip, pc, lv, fs);
    CountSix(ip, pc, lv, ip, fs, pc, ip);
    CountSix(ip, pc, lv, ip, fs, pc, pc);
    CountSix(ip, pc, lv, ip, fs, pc, lv);
    CountSix(ip, pc, lv, ip, fs, pc, fs);
  }

  /** The page ids the title table knows. */
  predicate IsPageId(page: string)
  {
    page == "dashboard" || page == "issues" || page == "agent" || page == "analytics"
    || page == "resources" || page == "ticket" || page == "settings"
  }

  /** `pageTitle`: the header title of the current page; an id the table does
      not know shows "Dashboard". */
  function PageTitle(page: string): (title: string)
    ensures !IsPageId(page) ==> title == "Dashboard"
    ensures title == "Dashboard" <==> page == "dashboard" || !IsPageId(page)
  {
    match page
    case "dashboard" => "Dashboard"
    case "issues" => "Violations"
    case "agent" => "Account Health Agent"
    case "analytics" => "Analytics"
    case "resources" => "Resources"
    case "ticket" => "Submit Ticket"
    case "settings" => "Settings"
    case _ => "Dashboard"
  }

  /** Different known pages have different titles. */
  lemma {:induction false} PageTitleInjective(p: string, q: string)
    requires IsPageId(p) && IsPageId(q) && p != q
    ensures PageTitle(p) != PageTitle(q)
  {
  }

  /** The page-level state: which page is shown, whether the sidebar is open,
      and the case whose details the modal shows. */
  class IndexView {
    var sidebarOpen: bool
    var currentPage: string
    var selectedIssue: Option<Issue>
    var modalOpen: bool

    constructor ()
      ensures !sidebarOpen && currentPage == "dashboard"
      ensures selectedIssue == None && !modalOpen
    {
      sidebarOpen := false;
      currentPage := "dashboard";
      selectedIssue := None;
      modalOpen := false;
    }

    function Title(): string
      reads this
    {
      PageTitle(currentPage)
    }

    /** `handleNavigation`: the chosen page is shown and the sidebar closes;
        the modal state is untouched. */
    method HandleNavigation(page: string)
      modifies this
      ensures currentPage == page && !sidebarOpen
      ensures selectedIssue == old(selectedIssue) && modalOpen == old(modalOpen)
      ensures IsPageId(page) && page != "dashboard" ==> Title() != "Dashboard"
    {
      currentPage := page;
      sidebarOpen := false;
    }

    /** `handleViewCase`: the case becomes the selected one and the modal
        opens; the page and sidebar are untouched. */
    method HandleViewCase(issue: Issue)
      modifies this
      ensures selectedIssue == Some(issue) && modalOpen
      ensures currentPage == old(currentPage) && sidebarOpen == old(sidebarOpen)
    {
      selectedIssue := Some(issue);
      modalOpen := true;
    }

    /** The header's menu button flips the sidebar. */
    method ToggleSidebar()
      modifies this
      ensures sidebarOpen == !old(sidebarOpen)
      ensures currentPage == old(currentPage)
      ensures selectedIssue == old(selectedIssue) && modalOpen == old(modalOpen)
    {
      sidebarOpen := !sidebarOpen;
    }

    /** The dialog reports that it opened or closed; the selected case stays. */
    method SetModalOpen(open: bool)
      modifies this
      ensures modalOpen == open
      ensures selectedIssue == old(selectedIssue)
      ensures currentPage == old(currentPage) && sidebarOpen == old(sidebarOpen)
    {
      modalOpen := open;
    }
  }
}
