# Seller account-health dashboard: a verified model of its rules

The dashboard shows Amazon seller policy cases. A case (an "issue") has an ASIN, a product, a violation type, a status, an impact level, an opened date, an at-risk sales figure and an SLA. Around those cases it has filters, sorts, counters, checklists and small calculators. This project models those rules in Dafny and proves what each one promises. It does not model the JSX.

Dafny modules, one per source file:

- **Wrappers, Seqs, Text, Sorting, Calendar, ToggleList.** The runtime operations the components rely on:
  - `filter`, distinct lists, `find`, `slice(-n)`, `includes`, `toLowerCase` on ASCII, `trim`, `split`;
  - `localeCompare`, read as code-point order;
  - the stable `Array.prototype.sort(compareFn)`, as an in-place insertion sort on an array, proved equal to a functional insertion sort;
  - ISO dates as day numbers;
  - the shared add-if-absent / remove-if-present toggle rule.
- **IssueTable.** The case table. A search and a status filter are applied, then the sort by field and direction, and `handleSort`'s direction toggle.
- **MockData, ViolationsMain and ViolationsFilterControls.** The violations page:
  - the search, status and severity filter;
  - the KPI aggregates (open, critical open, SLA at risk, sales at risk);
  - the partial filter merge;
  - the filter bar's toggle, clear and active-count rules.
  - The case fixture serves as a concrete test vector.
- **AnalyticsDataTable, ResourceGrid, PolicyUpdateFeed, InteractiveTools and ResourcesMain.** The predicate filters of the analytics and resources views:
  - the badge mappings;
  - read marking;
  - the distinct category and marketplace lists;
  - the first-three truncation;
  - tool selection;
  - the resource tag chips.
- **PerformanceTrendChart, POAChecklist, EvidenceWizard and SalesEstimator.** The dashboard tools:
  - the chart's last-N window and metric toggles;
  - the plan-of-action checklist and its required-item completion;
  - the evidence wizard's bounded step counter and evidence completeness;
  - the at-risk sales estimator's loss formulas, urgency level and ordered recommendations.
- **AccountHealthAgent.** The chat. A send is split around the remote call: `BeginSend` appends the user message and builds the request with the ten-message history, and `CompleteSend` appends the reply for the outcome it is given. Replies are cut into paragraphs.
- **StatusChip, ImpactBadge, AccountHealthGauge and IndexPage.** The total classification functions with their fallbacks, the health thresholds, the per-type count reduction, the page-title lookup and the page's navigation state.

Where the source changes state, and only there, the model is a `class`. This covers IssueTable's sort state, the filter state of the pages, the checklist, the wizard, the estimator form, the chat and the page. Each method's `ensures` gives the new value of every field it may change, and a `Valid()` invariant is kept where the component has one. `SalesEstimator.Estimator.CalculateImpact` states its new result through the estimate of the chosen catalogue entry, and `SalesEstimator.EstimateUnique` shows that this is a single value.

Loops of the source are methods with loop invariants, proved against a specification function:
- the in-place sort;
- the `reduce` of the violation-type counts.

The estimator's urgency reassignment and its `unshift`/`push` assembly of the recommendations are straight-line code. `SalesEstimator.ComputeEstimate` performs them step by step and is proved to produce the closed-form list `SalesEstimator.RecommendationsFor`, whose order and contents `SalesEstimator.RecommendationsShape` describes.

## Model

| member | source | states |
|---|---|---|
| Seqs.FilterMember | src/components/issues/IssueTable.tsx:51-57 | `filter` keeps a value exactly when it occurs in the input and passes the predicate |
| Seqs.FilterMembers | src/components/issues/IssueTable.tsx:51-57 | the same membership law for every value at once |
| Seqs.FilterIsSubsequence | src/components/issues/IssueTable.tsx:51 | `filter` keeps the input order: its result is obtained by dropping elements |
| Seqs.FilterAll | src/components/violations/ViolationsMain.tsx:33-56 | `filter` returns the whole list exactly when every element passes |
| Seqs.FilterIdempotent | src/components/violations/ViolationsMain.tsx:33-56 | filtering a filtered list again with the same predicate changes nothing |
| Seqs.FilterKeepsNoDuplicates | src/components/resources/tools/POAChecklist.tsx:129 | a filtered duplicate-free list stays duplicate-free |
| Seqs.SharesAnyMembers | src/components/resources/ResourceGrid.tsx:148 | `selected.some(f => tags.includes(f))` holds as soon as one selected value is a tag |
| Seqs.Count | src/pages/Index.tsx:69-77 | an occurrence count is at most the length and is zero exactly when the value is absent |
| Seqs.Distinct | src/components/resources/PolicyUpdateFeed.tsx:110 | `Array.from(new Set(xs))`: only values of the input, every input value, no duplicates, no longer than the input |
| Seqs.DistinctMembers | src/components/resources/PolicyUpdateFeed.tsx:110-111 | the distinct list holds exactly the input's values |
| Seqs.DistinctInFirstAppearanceOrder | src/components/resources/tools/POAChecklist.tsx:115 | the distinct list is in order of first appearance, as a `Set` iterates |
| Seqs.DistinctOfMap | src/components/resources/tools/POAChecklist.tsx:115 | `Array.from(new Set(xs.map(f)))`, used for the checklist categories and the policy feed's categories and marketplaces (PolicyUpdateFeed.tsx:110-111): duplicate-free, exactly the values of the field, in first-appearance order |
| Seqs.Find | src/components/resources/tools/EvidenceWizard.tsx:153 | `find` returns nothing iff no element satisfies the predicate, otherwise the first element that does |
| Seqs.FindFirst | src/components/resources/InteractiveTools.tsx:111 | when index k is the first to satisfy the predicate, `find` returns the element at k |
| Seqs.LastN | src/components/dashboard/PerformanceTrendChart.tsx:69 | `slice(-n)`: the last n elements, the whole list when n is 0 or at least the length |
| Text.LowerChar | src/components/violations/ViolationsMain.tsx:36 | `toLowerCase` maps A-Z to a-z (code point plus 32) and keeps every other character |
| Text.Lower | src/components/issues/IssueTable.tsx:53-54 | lower-casing keeps the length and lower-cases character by character |
| Text.LowerIdempotent | src/components/ui/impact-badge.tsx:48 | lower-casing twice is lower-casing once |
| Text.Contains | src/components/violations/ViolationsMain.tsx:38-41 | `includes`: the query occurs as a contiguous block; ContainsEmpty and ContainsSelf state that the empty query and the string itself are always found |
| Text.ContainsEmpty | src/components/issues/IssueTable.tsx:53 | `includes("")` holds for every string, so an empty query matches every record |
| Text.ContainsSelf | src/components/resources/ResourceGrid.tsx:139 | every string includes itself |
| Text.LexCompare | src/components/issues/IssueTable.tsx:79 | the string comparison returns -1, 0 or 1 |
| Text.LexCompareAntisymmetric | src/components/issues/IssueTable.tsx:79 | comparing b with a gives the negated result of comparing a with b |
| Text.LexCompareZero | src/components/issues/IssueTable.tsx:79 | the comparison is zero exactly for equal strings |
| Text.LexCompareTransitive | src/components/issues/IssueTable.tsx:79 | "not after" is transitive |
| Sorting.InsertionSort | src/components/issues/IssueTable.tsx:60 | the stable sort keeps the length |
| Sorting.InsertionSortPermutation | src/components/issues/IssueTable.tsx:60 | the sort's output is a rearrangement of its input |
| Sorting.InsertionSortSorted | src/components/issues/IssueTable.tsx:60 | for an antisymmetric, transitive comparator the output is ordered: every earlier element compares at most equal to every later one |
| Sorting.InsertionSortStable | src/components/issues/IssueTable.tsx:60 | the sort is stable: the elements that tie with any value keep their input order |
| Sorting.InsertAt | src/components/issues/IssueTable.tsx:60 | one pass of the in-place sort moves a[i] left past the greater elements of the sorted prefix and leaves the rest alone |
| Sorting.SortInPlace | src/components/issues/IssueTable.tsx:60 | sorting the array in place leaves the stable sort of its old contents |
| Calendar.DayStart | src/components/issues/IssueTable.tsx:74 | `new Date(iso).getTime()` of a date: a whole number of days in milliseconds, that day's number |
| Calendar.DayOf | src/components/violations/ViolationsMain.tsx:65 | the floor of a timestamp divided by a day: the day the timestamp falls in |
| Calendar.DayStartMonotone | src/components/issues/IssueTable.tsx:73-76 | day starts are ordered as the days are, and reading one back gives its day |
| ToggleList.Toggle | src/components/violations/ViolationsFilterControls.tsx:38-40 | toggling makes the value present iff it was absent; an absent value is appended; a present one is removed everywhere, shortening the list by its count |
| ToggleList.ToggleOthers | src/components/resources/ResourcesMain.tsx:27-33 | toggling one value leaves every other value's membership as it was |
| ToggleList.FilterCount | src/components/violations/ViolationsFilterControls.tsx:38-40 | removing every occurrence of a value shortens the list by its count |
| ToggleList.ToggleTwice | src/components/dashboard/PerformanceTrendChart.tsx:71-77 | toggling an absent value on and then off restores the list exactly |
| ToggleList.ToggleKeepsNoDuplicates | src/components/resources/tools/POAChecklist.tsx:126-132 | a duplicate-free list stays duplicate-free under toggling |
| IssueTable.NextSortState | src/components/issues/IssueTable.tsx:43-48 | the clicked field becomes the sort field; the direction turns ascending exactly when that field was already active and descending, otherwise descending |
| IssueTable.RepeatedClicksAlternate | src/components/issues/IssueTable.tsx:43-48 | clicking the same header twice flips the direction; clicking a new header always starts descending |
| IssueTable.TableFilter | src/components/issues/IssueTable.tsx:51-57 | the table's filter; TableFilterMembers states which cases it keeps and that order is kept, TableFilterKeepsAll that the initial inputs keep all |
| IssueTable.TableFilterMembers | src/components/issues/IssueTable.tsx:51-57 | a case is shown iff it is an input case, the lower-cased query occurs in its lower-cased ASIN or product name, and the status filter is "all" or its status; order is kept |
| IssueTable.TableFilterKeepsAll | src/components/issues/IssueTable.tsx:36-37 | with the initial empty query and "all" status every case is shown in input order |
| IssueTable.Compare | src/components/issues/IssueTable.tsx:60-84 | the sort comparator; CompareAntisymmetric and CompareTransitive make it a preorder for every sort state, CompareFieldOrder gives the order it sorts by |
| IssueTable.CompareAntisymmetric | src/components/issues/IssueTable.tsx:60-84 | the comparator for every field and direction is antisymmetric: compare(a, b) = -compare(b, a) |
| IssueTable.CompareTransitive | src/components/issues/IssueTable.tsx:60-84 | the comparator is transitive on "not after" for every field and direction |
| IssueTable.ComparatorIsPreorder | src/components/issues/IssueTable.tsx:60 | the comparator value passed to sort is antisymmetric and transitive for every sort state |
| IssueTable.CompareFieldOrder | src/components/issues/IssueTable.tsx:61-81 | compare(a, b) <= 0 iff a is in the field's order before b: impact rank High 3 > Medium 2 > Low 1, at-risk sales, opening day, product name; descending reverses |
| IssueTable.SortedRows | src/components/issues/IssueTable.tsx:60-84 | the sorted rows are a permutation of the filtered rows, ordered by the field order pairwise, and tied rows keep their input order (stable sort) |
| IssueTable.FilteredAndSortedIssues | src/components/issues/IssueTable.tsx:50-85 | the rows shown are the filtered cases sorted in place by the comparator: a permutation of the filter's result, in field order, stable among ties |
| IssueTable.IssueTableView.constructor | src/components/issues/IssueTable.tsx:36-41 | the table starts with an empty search, status "all" and sort by impact descending |
| IssueTable.IssueTableView.HandleSort | src/components/issues/IssueTable.tsx:43-48 | the sort state becomes the next sort state for the clicked field; search and status filter are unchanged |
| IssueTable.IssueTableView.SetSearch | src/components/issues/IssueTable.tsx:113 | typing replaces the search text and nothing else |
| IssueTable.IssueTableView.SetStatusFilter | src/components/issues/IssueTable.tsx:122 | choosing a status replaces the status filter and nothing else |
| IssueTable.IssueTableView.Rows | src/components/issues/IssueTable.tsx:50-85 | the rendered rows are the sorted filter of the issues prop under the current state |
| ViolationsFilterControls.Merge | src/components/violations/ViolationsMain.tsx:89-91 | `{ ...prev, ...patch }`: an empty update keeps the state; for the search, the date range and each of the four lists, a key present in the update overrides and an absent one keeps its value |
| ViolationsFilterControls.MergeIdempotent | src/components/violations/ViolationsMain.tsx:89-91 | applying the same update twice equals applying it once |
| ViolationsFilterControls.SearchChange | src/components/violations/ViolationsFilterControls.tsx:28-30 | the update sets the search to the value, holds no other key, and merged into any state changes only its search |
| ViolationsFilterControls.DateRangeChange | src/components/violations/ViolationsFilterControls.tsx:32-34 | the date handler sends an update that carries only the new date range |
| ViolationsFilterControls.ListPatch | src/components/violations/ViolationsFilterControls.tsx:41 | `{ [filterKey]: newArray }` replaces exactly that list and leaves the other lists, date range and search unchanged |
| ViolationsFilterControls.ToggleArrayFilter | src/components/violations/ViolationsFilterControls.tsx:36-42 | the key's new list is the toggle of its old one (ToggleList.ToggleOthers: every other value keeps its membership); the value is in it iff it was not before; an absent value is appended; every other key is unchanged |
| ViolationsFilterControls.ClearFilters | src/components/violations/ViolationsFilterControls.tsx:44-53 | clearing gives the default filters ("Last 30d", empty lists, empty search) from any state |
| ViolationsFilterControls.ActiveFilterCount | src/components/violations/ViolationsFilterControls.tsx:55-61 | the count on the Clear button; ActiveFilterCountZero (zero iff at the defaults), ToggleCount and ClearResetsCount state how it moves |
| ViolationsFilterControls.ActiveFilterCountZero | src/components/violations/ViolationsFilterControls.tsx:55-61 | the active-filter count is zero exactly when the filters are the defaults, so the Clear button (lines 171-178) shows iff some filter is set |
| ViolationsFilterControls.ToggleCount | src/components/violations/ViolationsFilterControls.tsx:36-61 | toggling a value on adds one to the active-filter count; toggling it off subtracts its number of occurrences |
| ViolationsFilterControls.ClearResetsCount | src/components/violations/ViolationsFilterControls.tsx:44-61 | after Clear the active-filter count is zero |
| ViolationsMain.FilteredIssues | src/components/violations/ViolationsMain.tsx:32-57 | the page's filter; FilteredIssuesMembers states which cases it keeps, FilterIgnoresDateMarketplaceBrand, DefaultFiltersKeepAll and FilteredIssuesIdempotent its other laws |
| ViolationsMain.FilteredIssuesMembers | src/components/violations/ViolationsMain.tsx:32-57 | a case is listed iff the empty search or its lower-cased ASIN, product, type or id contains the lower-cased query, and each non-empty status and severity list holds its status and impact; fixture order is kept |
| ViolationsMain.FilterIgnoresDateMarketplaceBrand | src/components/violations/ViolationsMain.tsx:33-56 | the date range, marketplace and brand selections never change the listed cases |
| ViolationsMain.DefaultFiltersKeepAll | src/components/violations/ViolationsMain.tsx:22-29 | the initial filters list every case |
| ViolationsMain.FilteredIssuesIdempotent | src/components/violations/ViolationsMain.tsx:32-57 | filtering the listed cases again with the same filters changes nothing |
| ViolationsMain.DaysSinceOpened | src/components/violations/ViolationsMain.tsx:65 | the floor of (now minus the opening day's UTC-midnight timestamp) over a day: the whole days elapsed |
| ViolationsMain.SlaAtRisk | src/components/violations/ViolationsMain.tsx:63-67 | an open case at least ten whole days old; SlaAtRiskThreshold states the exact millisecond it starts |
| ViolationsMain.SlaAtRiskThreshold | src/components/violations/ViolationsMain.tsx:63-67 | a case is SLA-at-risk iff it is not resolved and now is at or after midnight UTC of its opening day plus ten |
| ViolationsMain.SumAtRiskSales | src/components/violations/ViolationsMain.tsx:74 | the `reduce` sum of the at-risk sales; SumThree and AllResolvedKpis state its values |
| ViolationsMain.SumThree | src/components/violations/ViolationsMain.tsx:74 | the at-risk sales sum of three cases is the sum of their amounts |
| ViolationsMain.Kpis | src/components/violations/ViolationsMain.tsx:60-87 | the KPI cards; KpiBounds states the bounds between the counts, AllResolvedKpis the all-resolved case and FixtureKpis the fixture's values |
| ViolationsMain.KpiBounds | src/components/violations/ViolationsMain.tsx:60-87 | critical cases and SLA-at-risk cases are at most the open cases, which are at most the listed cases; open plus resolved is all listed cases |
| ViolationsMain.AllResolvedKpis | src/components/violations/ViolationsMain.tsx:60-87 | when every listed case is resolved, the open, critical and SLA-at-risk counts and the at-risk sales are all zero |
| ViolationsMain.FilterNone | src/components/violations/ViolationsMain.tsx:61-67 | a predicate that rejects everything keeps nothing |
| ViolationsMain.FixtureFields | src/data/mockData.ts:18-99 | the fixture holds six cases; C001, C002 and C004 are open, C001 and C004 High, the others resolved, with the opening dates and amounts the KPIs read |
| ViolationsMain.FilterThree | src/components/violations/ViolationsMain.tsx:61 | filtering three values keeps each one that passes, in order |
| ViolationsMain.FilterSix | src/components/violations/ViolationsMain.tsx:61 | filtering six values is filtering the first three and then the last three |
| ViolationsMain.ShapeOpen | src/components/violations/ViolationsMain.tsx:61 | the open cases of the fixture are C001, C002 and C004 |
| ViolationsMain.ShapeOpenCritical | src/components/violations/ViolationsMain.tsx:62 | the open High-impact cases of the fixture are C001 and C004 |
| ViolationsMain.ShapeResolved | src/components/violations/ViolationsMain.tsx:70 | the fixture holds three resolved cases |
| ViolationsMain.ShapeSla | src/components/violations/ViolationsMain.tsx:63-67 | on 2025-09-22 the only SLA-at-risk case of the fixture is C002 |
| ViolationsMain.FixtureKpis | src/components/violations/ViolationsMain.tsx:60-87 | with the default filters on 2025-09-22 the KPIs are 3 open, 2 critical, 1 SLA-at-risk, 2.3 mean time, 524954 at-risk sales and repeat rate 29 |
| ViolationsMain.ViolationsPage.constructor | src/components/violations/ViolationsMain.tsx:22-29 | the page starts with the default filters |
| ViolationsMain.ViolationsPage.HandleFilterChange | src/components/violations/ViolationsMain.tsx:89-91 | an update from the filter bar is merged into the filters |
| ViolationsMain.ViolationsPage.Listed | src/components/violations/ViolationsMain.tsx:109-112 | the table gets the fixture filtered by the current filters, in fixture order |
| IndexPage.Names | src/pages/Index.tsx:70 | the names of the accumulator, entry by entry |
| IndexPage.TotalUpdate | src/pages/Index.tsx:72 | adding d to one entry's value adds d to the sum of the values |
| IndexPage.Types | src/pages/Index.tsx:69-74 | the violation types of the cases, one per case, in order |
| IndexPage.FoundCounts | src/pages/Index.tsx:71-72 | bumping the entry whose name is the next type keeps every value equal to its type's count |
| IndexPage.NewCounts | src/pages/Index.tsx:73-75 | pushing a new type with value 1 keeps every value equal to its type's count |
| IndexPage.FoundStep | src/pages/Index.tsx:71-72 | the bump step keeps the accumulator equal to the distinct types with their counts |
| IndexPage.NewStep | src/pages/Index.tsx:73-75 | the push step keeps the accumulator equal to the distinct types with their counts |
| IndexPage.FindEntry | src/pages/Index.tsx:70 | `acc.find(item => item.name === type)`: the first index holding the type, or the length when none does |
| IndexPage.Step | src/pages/Index.tsx:70-76 | one reduce step, bump or push; StepTotal, FoundStep, NewStep and StepCounts state that it adds one and keeps the counts |
| IndexPage.StepTotal | src/pages/Index.tsx:70-76 | each reduce step adds one to the sum of the values |
| IndexPage.StepCounts | src/pages/Index.tsx:70-76 | each reduce step, bump or push, keeps the accumulator equal to the distinct types seen so far with their counts |
| IndexPage.Fold | src/pages/Index.tsx:69-77 | the reduce from the empty list; FoldCounts states its result, CountTypes computes it in a loop |
| IndexPage.FoldCounts | src/pages/Index.tsx:69-77 | the reduce yields each distinct type once, in order of first appearance, with its number of cases; the values sum to the number of cases |
| IndexPage.CountTypes | src/pages/Index.tsx:69-77 | the loop that bumps the found entry in place or pushes a new one computes the reduce |
| IndexPage.ViolationData | src/pages/Index.tsx:69-77 | the chart data names each distinct violation type once, in order of first appearance, with its number of cases (at least one); the values sum to the number of cases |
| IndexPage.FixtureTypes | src/data/mockData.ts:18-99 | the fixture's types, case by case |
| IndexPage.CountSix | src/pages/Index.tsx:72 | a count over six values adds one per value that matches |
| IndexPage.DistinctOfTwo | src/pages/Index.tsx:74 | two different values are both kept |
| IndexPage.DistinctOfThree | src/pages/Index.tsx:74 | three different values are all kept |
| IndexPage.DistinctSnocPresent | src/pages/Index.tsx:71-72 | appending a value already seen adds no entry |
| IndexPage.DistinctOfShape | src/pages/Index.tsx:69-77 | the type sequence shape of the fixture has four distinct types in first-appearance order |
| IndexPage.FixtureTypeCounts | src/pages/Index.tsx:69-77 | on the fixture: IP Complaint 2, Product Condition Complaint 2, Listing Violation 1, Food & Safety Issue 1 |
| IndexPage.PageTitle | src/pages/Index.tsx:58-66 | an unknown page id is titled "Dashboard", and the title is "Dashboard" exactly for "dashboard" or an unknown id |
| IndexPage.PageTitleInjective | src/pages/Index.tsx:58-66 | different known page ids get different titles |
| IndexPage.IndexView.constructor | src/pages/Index.tsx:43-46 | the page starts with the sidebar closed, on "dashboard", no selected case and the modal closed |
| IndexPage.IndexView.HandleNavigation | src/pages/Index.tsx:48-51 | navigating sets the page and closes the sidebar, leaving the selection and modal alone; a known page other than the dashboard gets its own title |
| IndexPage.IndexView.HandleViewCase | src/pages/Index.tsx:53-56 | viewing a case selects it and opens the modal; page and sidebar are unchanged |
| IndexPage.IndexView.ToggleSidebar | src/pages/Index.tsx:92 | the menu button flips the sidebar and nothing else |
| IndexPage.IndexView.SetModalOpen | src/pages/Index.tsx:244 | the dialog's open change sets the modal flag and nothing else; the selection stays |
| StatusChip.GetStatusType | src/components/ui/status-chip.tsx:57-70 | the converter never yields "escalated"; the chip shows the input as its label exactly when the input is one of the four legacy labels; any other string becomes "new" |
| StatusChip.StatusLabel | src/components/ui/status-chip.tsx:12-38 | the chip captions; StatusLabelInjective and StatusRoundTrip state that they are distinct and read back |
| StatusChip.StatusLabelInjective | src/components/ui/status-chip.tsx:12-38 | the five chip labels are pairwise different |
| StatusChip.StatusRoundTrip | src/components/ui/status-chip.tsx:12-70 | a legacy label converts to the chip showing that label; every status type but "escalated" is recovered from its label; "Escalated" converts to "new" |
| StatusChip.CaseStatusChip | src/components/issues/IssueTable.tsx:15 | every status a case can hold is a legacy label and its chip shows it unchanged |
| ImpactBadge.ImpactLabel | src/components/ui/impact-badge.tsx:12-28 | the badge captions; ImpactRoundTrip states that each level is read back from its caption |
| ImpactBadge.ImpactCode | src/components/ui/impact-badge.tsx:4 | the impact codes are already lower case |
| ImpactBadge.GetImpactLevel | src/components/ui/impact-badge.tsx:47-58 | the lower-cased input is an impact code exactly when the result's code equals it; any other input gives "low" |
| ImpactBadge.CaseInsensitive | src/components/ui/impact-badge.tsx:48 | strings equal up to letter case convert to the same level, as their lower-cased form does |
| ImpactBadge.HighInAnyCase | src/components/ui/impact-badge.tsx:48-54 | "HIGH", "High" and "high" all convert to high |
| ImpactBadge.ImpactRoundTrip | src/components/ui/impact-badge.tsx:12-58 | every level is recovered from its badge label and from its code, and the badge shows the label it was given |
| ImpactBadge.GetImpactLevelIdempotent | src/components/ui/impact-badge.tsx:47-58 | converting the code of a converted level gives that level again |
| ImpactBadge.CaseImpactBadge | src/components/issues/IssueTable.tsx:18 | each impact a case can hold converts to the badge with the same label |
| AccountHealthGauge.StatusName | src/components/dashboard/AccountHealthGauge.tsx:27-30 | the status captions |
| AccountHealthGauge.StatusNameInjective | src/components/dashboard/AccountHealthGauge.tsx:27-30 | the four captions are pairwise different, so each names one band |
| AccountHealthGauge.GetHealthStatus | src/components/dashboard/AccountHealthGauge.tsx:26-31 | the status is Excellent iff the score is at least 900, Good iff in [700, 900), Fair iff in [500, 700), Poor iff below 500 |
| AccountHealthGauge.HealthStatusMonotone | src/components/dashboard/AccountHealthGauge.tsx:26-31 | a higher score never gives a worse status |
| AccountHealthGauge.ThresholdsReached | src/components/dashboard/AccountHealthGauge.tsx:27-30 | the status rank is the number of thresholds 500, 700 and 900 the score reaches |
| AccountHealthGauge.Gauge.constructor | src/components/dashboard/AccountHealthGauge.tsx:10-15 | the gauge keeps the score, takes the given maximum or 1000 when the prop is left out, and starts with animated score 0 |
| AccountHealthGauge.Gauge.ReceiveScore | src/components/dashboard/AccountHealthGauge.tsx:17-22 | a new score prop replaces the score; the animated score waits for the timer; the status follows the new score at once |
| AccountHealthGauge.Gauge.TimerFires | src/components/dashboard/AccountHealthGauge.tsx:18-20 | the timer copies the score into the animated score; the status does not change |
| AnalyticsDataTable.FilteredData | src/components/analytics/AnalyticsDataTable.tsx:236 | the "Showing n of m" count: the filtered rows are never more than the fixture rows |
| AnalyticsDataTable.FilteredDataMembers | src/components/analytics/AnalyticsDataTable.tsx:82-92 | a row is shown iff the lower-cased term occurs in its lower-cased ASIN, product or violation type, the status select is "all" or its status, and the type select is "all" or its type; order is kept |
| AnalyticsDataTable.EmptySearchMatches | src/components/analytics/AnalyticsDataTable.tsx:83-86 | an empty search term matches every row |
| AnalyticsDataTable.InitialInputsShowAll | src/components/analytics/AnalyticsDataTable.tsx:78-92 | with the initial empty term and both selects at "all" every row is shown, in order |
| AnalyticsDataTable.StatusBadgeVariant | src/components/analytics/AnalyticsDataTable.tsx:94-105 | Active gives destructive, Resolved default, In Progress secondary, each exactly for that status |
| AnalyticsDataTable.PriorityBadgeVariant | src/components/analytics/AnalyticsDataTable.tsx:107-118 | High gives destructive and Medium secondary, each exactly for that priority; default is never used |
| AnalyticsDataTable.BadgeFallbacks | src/components/analytics/AnalyticsDataTable.tsx:94-118 | the status badge is outline iff the status is not one of the three; the priority badge is outline iff the priority is neither High nor Medium |
| AnalyticsDataTable.FixtureRows | src/components/analytics/AnalyticsDataTable.tsx:22-92 | on the fixture the footer reads 5 of 5, and the type "IP Complaint" leaves V001 and V004 |
| ResourceGrid.FilteredResources | src/components/resources/ResourceGrid.tsx:174 | the "n resources available" count never exceeds the library size |
| ResourceGrid.FilteredResourcesMembers | src/components/resources/ResourceGrid.tsx:135-161 | a resource is shown iff the query is empty or occurs lower-cased in its title, description or category; no tags are selected or one selected tag is among its tags; and, in the recent view, it was updated no earlier than seven days before now; order is kept |
| ResourceGrid.SelectedTagAdmits | src/components/resources/ResourceGrid.tsx:147-151 | one selected tag among the resource's tags is enough to pass the tag check |
| ResourceGrid.NoFiltersKeepAll | src/components/resources/ResourceGrid.tsx:135-161 | with no query, no tags and no recent flag the whole library is shown, in order |
| ResourceGrid.RecentNarrows | src/components/resources/ResourceGrid.tsx:153-158 | the recent view never shows more resources than the full view with the same query and tags |
| ResourceGrid.RecentShrinksOverTime | src/components/resources/ResourceGrid.tsx:154-157 | as now moves later the recent view can only lose resources |
| ResourceGrid.ResourceGridView.constructor | src/components/resources/ResourceGrid.tsx:133 | nothing is read at first |
| ResourceGrid.ResourceGridView.MarkAsRead | src/components/resources/ResourceGrid.tsx:163-165 | the id is appended to the read list, so it reads as read (line 181), and every other id's read status is unchanged |
| PolicyUpdateFeed.RiskLabelInjective | src/components/resources/PolicyUpdateFeed.tsx:15 | the four risk levels have pairwise different codes, so the risk select matches exactly one level |
| PolicyUpdateFeed.FilteredUpdates | src/components/resources/PolicyUpdateFeed.tsx:97-108 | the filter never yields more updates than the feed holds |
| PolicyUpdateFeed.FilteredUpdatesMembers | src/components/resources/PolicyUpdateFeed.tsx:97-108 | an update is shown iff the marketplace selection is "all", equal to its marketplace, or its marketplace is "Global"; the risk and category selections are each "all" or equal; order is kept |
| PolicyUpdateFeed.GlobalNeverExcluded | src/components/resources/PolicyUpdateFeed.tsx:98 | a "Global" update passing the risk and category checks is shown whatever marketplace is selected |
| PolicyUpdateFeed.AllSelectionsKeepAll | src/components/resources/PolicyUpdateFeed.tsx:93-108 | with all three selections at "all" every update is shown, in order |
| PolicyUpdateFeed.Categories | src/components/resources/PolicyUpdateFeed.tsx:110 | `Array.from(new Set(...))` of the categories; CategoryOptions states its contents and order |
| PolicyUpdateFeed.CategoryOptions | src/components/resources/PolicyUpdateFeed.tsx:110 | the category options are duplicate-free, are exactly the categories of the updates, in first-appearance order |
| PolicyUpdateFeed.Marketplaces | src/components/resources/PolicyUpdateFeed.tsx:111 | the same for marketplaces; MarketplaceOptions states its contents and order |
| PolicyUpdateFeed.MarketplaceOptions | src/components/resources/PolicyUpdateFeed.tsx:111 | the marketplace options are duplicate-free, are exactly the marketplaces of the updates, in first-appearance order |
| PolicyUpdateFeed.PolicyUpdateFeedView.constructor | src/components/resources/PolicyUpdateFeed.tsx:93-95 | all three selections start at "all" |
| PolicyUpdateFeed.PolicyUpdateFeedView.SelectMarketplace | src/components/resources/PolicyUpdateFeed.tsx:138 | choosing a marketplace sets that selection only |
| PolicyUpdateFeed.PolicyUpdateFeedView.SelectRisk | src/components/resources/PolicyUpdateFeed.tsx:153 | choosing a risk level sets that selection only |
| PolicyUpdateFeed.PolicyUpdateFeedView.SelectCategory | src/components/resources/PolicyUpdateFeed.tsx:169 | choosing a category sets that selection only |
| PolicyUpdateFeed.PolicyUpdateFeedView.ClearFilters | src/components/resources/PolicyUpdateFeed.tsx:247-251 | "Clear filters" resets all three selections to "all", after which every update is shown |
| InteractiveTools.FilteredTools | src/components/resources/InteractiveTools.tsx:89-107 | the filter never yields more tools than the catalogue holds |
| InteractiveTools.FilteredToolsMembers | src/components/resources/InteractiveTools.tsx:89-107 | a tool is shown iff the query is empty or occurs lower-cased in its title or description, and no tags are selected or one selected tag is among its tags; order is kept |
| InteractiveTools.NoFiltersKeepAll | src/components/resources/InteractiveTools.tsx:89-107 | with no query and no tags every tool passes, in order |
| InteractiveTools.DisplayTools | src/components/resources/InteractiveTools.tsx:109 | with showAll every filtered tool is shown, otherwise the first min(3, n) of them, as a prefix |
| InteractiveTools.ShowViewAll | src/components/resources/InteractiveTools.tsx:141 | the "View All Tools" condition; ViewAllIffTruncated states it holds exactly when the preview truncates |
| InteractiveTools.ViewAllIffTruncated | src/components/resources/InteractiveTools.tsx:141 | "View All Tools" is shown exactly when the preview leaves tools out |
| InteractiveTools.FindTool | src/components/resources/InteractiveTools.tsx:111 | the lookup by id finds nothing iff no tool has the id, and otherwise the first tool with that id |
| InteractiveTools.ToolIds | src/components/resources/InteractiveTools.tsx:26-78 | the ids of the catalogue, tool by tool |
| InteractiveTools.FindListedTool | src/components/resources/InteractiveTools.tsx:111 | with distinct ids, looking up a listed tool's id finds that tool |
| InteractiveTools.ActiveComponent | src/components/resources/InteractiveTools.tsx:111 | a component is shown only when a tool is active, and it is the component of a tool with the active id |
| InteractiveTools.ToolsHaveDistinctIds | src/components/resources/InteractiveTools.tsx:26-78 | the six tools have distinct, non-empty ids |
| InteractiveTools.FixturePreview | src/components/resources/InteractiveTools.tsx:26-141 | unfiltered, the preview is the first three tools, all of which can be opened, and "View All Tools" is shown |
| InteractiveTools.InteractiveToolsView.constructor | src/components/resources/InteractiveTools.tsx:87 | no tool is active at first |
| InteractiveTools.InteractiveToolsView.ClickCard | src/components/resources/InteractiveTools.tsx:156 | clicking a card activates its tool only when it has a component, and otherwise changes nothing |
| InteractiveTools.InteractiveToolsView.Back | src/components/resources/InteractiveTools.tsx:119 | Back clears the active tool |
| InteractiveTools.OpenTool | src/components/resources/InteractiveTools.tsx:111-156 | clicking the card of a listed tool with a component makes it active and shows exactly its component |
| ResourcesMain.TabGrid | src/components/resources/ResourcesMain.tsx:76-150 | a resource grid is shown exactly on the "all" and "recent" tabs, and what it shows is an order-preserving selection of the library |
| ResourcesMain.RecentTabNarrows | src/components/resources/ResourcesMain.tsx:84-148 | the "recent" tab never shows more resources than the "all" tab under the same search and tags |
| ResourcesMain.InitialTabShowsAll | src/components/resources/ResourcesMain.tsx:13-15 | in the initial state the "all" tab lists the whole library |
| ResourcesMain.ResourcesPage.constructor | src/components/resources/ResourcesMain.tsx:13-15 | the page starts with an empty query, no tags and tab "all" (the same at ResourcesMainTest.tsx:11-13) |
| ResourcesMain.ResourcesPage.ToggleFilter | src/components/resources/ResourcesMain.tsx:27-33 | the list becomes the toggle of the tag: its membership flips, every other tag keeps its membership, no duplicate arises, and query and tab are unchanged (the same rule at ResourcesMainTest.tsx:25-31) |
| ResourcesMain.ResourcesPage.ToggleFilterTwice | src/components/resources/ResourcesMain.tsx:27-33 | two clicks on an unselected chip restore the selection exactly |
| ResourcesMain.ResourcesPage.SetSearchQuery | src/components/resources/ResourcesMain.tsx:50 | typing sets the query only |
| ResourcesMain.ResourcesPage.SetActiveTab | src/components/resources/ResourcesMain.tsx:76 | choosing a tab sets the tab only |
| PerformanceTrendChart.OfferedRanges | src/components/dashboard/PerformanceTrendChart.tsx:20-24 | the range buttons offer exactly 7, 30 and 90 days |
| PerformanceTrendChart.FilteredData | src/components/dashboard/PerformanceTrendChart.tsx:69 | the chart shows the last min(range, number of points) points, in their original order |
| PerformanceTrendChart.LongerRangeExtendsWindow | src/components/dashboard/PerformanceTrendChart.tsx:69 | a longer range shows at least as many points, and its window ends with the shorter range's window |
| PerformanceTrendChart.FindMetric | src/components/dashboard/PerformanceTrendChart.tsx:168 | the metric lookup finds nothing iff no metric has the key, otherwise the first metric with that key |
| PerformanceTrendChart.DrawnLines | src/components/dashboard/PerformanceTrendChart.tsx:167-184 | no more lines are drawn than keys are selected |
| PerformanceTrendChart.MetricKeysDistinct | src/components/dashboard/PerformanceTrendChart.tsx:26-62 | the five metric keys are distinct |
| PerformanceTrendChart.FindListedMetric | src/components/dashboard/PerformanceTrendChart.tsx:168 | with distinct keys, a metric's key finds that metric |
| PerformanceTrendChart.DrawnLinesMembers | src/components/dashboard/PerformanceTrendChart.tsx:167-170 | a line is drawn for a metric exactly when it is in the table and its key is selected |
| PerformanceTrendChart.TrendChart.constructor | src/components/dashboard/PerformanceTrendChart.tsx:65-66 | the chart starts at 30 days with casesOpened and casesResolved selected |
| PerformanceTrendChart.TrendChart.SelectRange | src/components/dashboard/PerformanceTrendChart.tsx:105-110 | a range button sets the range to its own value (7, 30 or 90) and leaves the metrics alone |
| PerformanceTrendChart.TrendChart.ToggleMetric | src/components/dashboard/PerformanceTrendChart.tsx:71-77 | the key's selection flips, every other key keeps its state, no key is selected twice, and the range is unchanged |
| POAChecklist.Categories | src/components/resources/tools/POAChecklist.tsx:115 | the category buttons, `Array.from(new Set(...))`; Seqs.DistinctOfMap states their contents and order for any list |
| POAChecklist.CategoryItems | src/components/resources/tools/POAChecklist.tsx:212 | a category's items are never more than the items shown |
| POAChecklist.FilteredItems | src/components/resources/tools/POAChecklist.tsx:117-119 | the selection "all" shows every item |
| POAChecklist.FilteredItemsMembers | src/components/resources/tools/POAChecklist.tsx:117-119 | any other selection shows exactly that category's items, in list order |
| POAChecklist.RequiredItems | src/components/resources/tools/POAChecklist.tsx:121 | the required items are never more than the items |
| POAChecklist.RequiredCompleted | src/components/resources/tools/POAChecklist.tsx:122 | the number of checked required items is at most the number of required items |
| POAChecklist.ReadyToSubmit | src/components/resources/tools/POAChecklist.tsx:124 | the 100% condition of line 272 without the division; ReadyIffAllRequiredChecked states it holds iff every required item is checked |
| POAChecklist.ReadyIffAllRequiredChecked | src/components/resources/tools/POAChecklist.tsx:121-124 | the required completion is full, which shows the "Ready to Submit" card of line 272, exactly when every required item is checked |
| POAChecklist.CategoryProgress | src/components/resources/tools/POAChecklist.tsx:222-223 | a category badge's checked count never exceeds the category's size, which is the number of its items shown |
| POAChecklist.ToggleOptionalKeepsRequired | src/components/resources/tools/POAChecklist.tsx:122-132 | flipping an id no required item carries leaves the required count unchanged |
| POAChecklist.ChecklistFields | src/components/resources/tools/POAChecklist.tsx:17-109 | the list holds 13 items; items 6 and 7 are the only optional ones |
| POAChecklist.FixtureOptionalItems | src/components/resources/tools/POAChecklist.tsx:53-66 | the optional items have ids "6" and "7", no required item has either id, and 11 items are required |
| POAChecklist.RequiredCount | src/components/resources/tools/POAChecklist.tsx:121 | a 13-item list flagged like the fixture has 11 required items |
| POAChecklist.ChecklistView.constructor | src/components/resources/tools/POAChecklist.tsx:112-113 | nothing is checked at first and the category is "all" |
| POAChecklist.ChecklistView.ToggleItem | src/components/resources/tools/POAChecklist.tsx:126-132 | the id's checkbox flips and every other one keeps its state; the total moves by one; no id is checked twice; the category is unchanged |
| POAChecklist.ChecklistView.ToggleOptionalItem | src/components/resources/tools/POAChecklist.tsx:126-132 | toggling item "6" or "7" (the optional entries at lines 53-66 of the list of lines 17-109) makes the checked list its toggle and keeps the category; the total completed changes but the required completed does not |
| POAChecklist.ChecklistView.SelectCategory | src/components/resources/tools/POAChecklist.tsx:188-199 | a category button sets the category and leaves the checks alone |
| EvidenceWizard.FindProduct | src/components/resources/tools/EvidenceWizard.tsx:153 | the category lookup finds nothing iff no category has the id, and otherwise the first category with that id |
| EvidenceWizard.FindViolation | src/components/resources/tools/EvidenceWizard.tsx:158 | the violation lookup finds nothing iff no violation type has the id, and otherwise the first one with that id |
| EvidenceWizard.AvailableViolations | src/components/resources/tools/EvidenceWizard.tsx:152-155 | an unknown category id gives no violations; a known one gives the violations of the first category with that id |
| EvidenceWizard.CurrentEvidence | src/components/resources/tools/EvidenceWizard.tsx:157-160 | an unknown violation id gives no evidence; a known one gives the evidence of the first violation type with that id |
| EvidenceWizard.AvailableOfListed | src/components/resources/tools/EvidenceWizard.tsx:152-155 | in a catalogue with unique ids, every listed category's id gives exactly that category's violations |
| EvidenceWizard.EvidenceOfListed | src/components/resources/tools/EvidenceWizard.tsx:157-160 | in a catalogue with unique ids, every listed violation type's id gives exactly that type's evidence |
| EvidenceWizard.RenderedViolations | src/components/resources/tools/EvidenceWizard.tsx:248-250 | at most one choice per available id is rendered, each one a catalogued violation type |
| EvidenceWizard.RenderedViolationsIds | src/components/resources/tools/EvidenceWizard.tsx:248-250 | a choice is rendered for an id exactly when the id is available and catalogued |
| EvidenceWizard.RequiredEvidence | src/components/resources/tools/EvidenceWizard.tsx:175 | the required evidence is taken from the listed evidence in its order, and every entry of it is required |
| EvidenceWizard.UploadedRequiredEvidence | src/components/resources/tools/EvidenceWizard.tsx:176 | the uploaded required evidence is never more than the required evidence |
| EvidenceWizard.IsComplete | src/components/resources/tools/EvidenceWizard.tsx:177 | the completion flag; IsCompleteIff and UploadKeepsComplete state when it holds and that uploads keep it |
| EvidenceWizard.IsCompleteIff | src/components/resources/tools/EvidenceWizard.tsx:175-177 | the wizard is complete exactly when every required evidence type is uploaded, and trivially for an empty catalogue |
| EvidenceWizard.UploadKeepsComplete | src/components/resources/tools/EvidenceWizard.tsx:164-177 | one more upload never makes complete evidence incomplete |
| EvidenceWizard.ViolationTypesIds | src/components/resources/tools/EvidenceWizard.tsx:56-141 | the catalogue holds exactly safety, authenticity and listing-quality, in that order |
| EvidenceWizard.MissingFromShape | src/components/resources/tools/EvidenceWizard.tsx:157-160 | in such a catalogue any other id has no evidence and renders no choice |
| EvidenceWizard.UncataloguedViolations | src/components/resources/tools/EvidenceWizard.tsx:248-250 | an id outside the catalogue, such as "labeling", has no evidence and is skipped on step 2 |
| EvidenceWizard.ProductTypesFields | src/components/resources/tools/EvidenceWizard.tsx:28-54 | five categories; the second is "food" with labeling, safety, expiration and listing-quality |
| EvidenceWizard.FoodChoices | src/components/resources/tools/EvidenceWizard.tsx:152-155 | for food, step 2 lists four ids but renders only the safety and listing-quality choices |
| EvidenceWizard.FoodAvailable | src/components/resources/tools/EvidenceWizard.tsx:35-37 | the food category offers labeling, safety, expiration and listing-quality |
| EvidenceWizard.RenderedConcat | src/components/resources/tools/EvidenceWizard.tsx:248 | rendering two id lists in turn renders their concatenation |
| EvidenceWizard.FoundInShape | src/components/resources/tools/EvidenceWizard.tsx:249 | a catalogued id renders its own violation type |
| EvidenceWizard.RenderedFour | src/components/resources/tools/EvidenceWizard.tsx:248-250 | rendering four ids renders each in turn |
| EvidenceWizard.FoodRendering | src/components/resources/tools/EvidenceWizard.tsx:248-250 | in such a catalogue the food list renders the safety and listing-quality types |
| EvidenceWizard.WizardState.constructor | src/components/resources/tools/EvidenceWizard.tsx:144-147 | the wizard starts on step 1 with nothing selected or uploaded |
| EvidenceWizard.WizardState.NextStep | src/components/resources/tools/EvidenceWizard.tsx:167-169 | the step goes up by one only below 3, so it stays within 1..3; nothing else changes |
| EvidenceWizard.WizardState.PrevStep | src/components/resources/tools/EvidenceWizard.tsx:171-173 | the step goes down by one only above 1, so it stays within 1..3; nothing else changes |
| EvidenceWizard.WizardState.NextEnabled | src/components/resources/tools/EvidenceWizard.tsx:226 | the "Next Step" buttons' enabled state (lines 226 and 280); ClickNext states that only an enabled click advances |
| EvidenceWizard.WizardState.ClickNext | src/components/resources/tools/EvidenceWizard.tsx:224-280 | "Next Step" advances only when enabled: on step 1 with a category, on step 2 with a violation; otherwise nothing changes |
| EvidenceWizard.WizardState.SelectProduct | src/components/resources/tools/EvidenceWizard.tsx:210 | choosing a category sets it and nothing else |
| EvidenceWizard.WizardState.SelectViolation | src/components/resources/tools/EvidenceWizard.tsx:260 | choosing a violation sets it and nothing else |
| EvidenceWizard.WizardState.UploadEnabled | src/components/resources/tools/EvidenceWizard.tsx:346 | an upload button is enabled until its type is uploaded; HandleFileUpload states that it is disabled after the upload |
| EvidenceWizard.WizardState.HandleFileUpload | src/components/resources/tools/EvidenceWizard.tsx:162-165 | the type is appended, its button (line 346) is then disabled, and complete evidence stays complete |
| SalesEstimator.UrgencyOf | src/components/resources/tools/SalesEstimator.tsx:48-51 | the urgency bands; UrgencyMonotone and UrgencyBoundaries state their order and strict thresholds |
| SalesEstimator.UrgencyMonotone | src/components/resources/tools/SalesEstimator.tsx:48-51 | a larger monthly loss never gets a lower urgency level |
| SalesEstimator.UrgencyBoundaries | src/components/resources/tools/SalesEstimator.tsx:49-51 | the comparisons are strict: exactly 50000, 20000 and 5000 fall to the lower level, anything above 50000 is critical |
| SalesEstimator.RecommendationsFor | src/components/resources/tools/SalesEstimator.tsx:53-66 | the recommendation list in closed form; RecommendationsShape states its length and placement |
| SalesEstimator.IsEstimateOf | src/components/resources/tools/SalesEstimator.tsx:41-75 | the estimate of a sales figure and a type; ComputeEstimate is proved to meet it and EstimateUnique states it fixes one result |
| SalesEstimator.ComputeEstimate | src/components/resources/tools/SalesEstimator.tsx:41-75 | the straight-line computation with its reassigned urgency and its `unshift`/`push` calls gives the estimate of the specification: daily revenue sales/30, weekly loss 7 days of it, monthly loss the type's suppression days of it, quarterly loss those days plus 30, the urgency of the monthly loss, and the closed-form recommendation list |
| SalesEstimator.RecommendationsShape | src/components/resources/tools/SalesEstimator.tsx:53-66 | the list has 3 items plus 2 when urgency is critical plus 1 for a critical-severity type; the base items keep their order; the expedite item is first, and the backup-inventory item present, exactly when urgency is critical; the specialist item is last exactly for a critical-severity type |
| SalesEstimator.BaseIsSubsequence | src/components/resources/tools/SalesEstimator.tsx:53-66 | adding the urgent items at the front and back and the specialist item at the end keeps the three base items in order |
| SalesEstimator.SubsequenceOfSelf | src/components/resources/tools/SalesEstimator.tsx:53-66 | a list is a subsequence of itself followed by further items, as pushes onto the recommendations leave the earlier items in order |
| SalesEstimator.Estimate | src/components/resources/tools/SalesEstimator.tsx:35-75 | no estimate exactly when the sales are zero or NaN, the type is empty or no catalogue entry has that id; otherwise the estimate, losses, urgency and recommendation list, for the entry with that id |
| SalesEstimator.CatalogueIdsUnique | src/components/resources/tools/SalesEstimator.tsx:19-26 | no two violation types of the catalogue share an id |
| SalesEstimator.EstimateUnique | src/components/resources/tools/SalesEstimator.tsx:38-75 | with unique ids there is only one estimate for a sales figure and an id |
| SalesEstimator.Estimator.constructor | src/components/resources/tools/SalesEstimator.tsx:29-32 | the form starts with empty ASIN, sales and type and no result |
| SalesEstimator.Estimator.CalculateImpact | src/components/resources/tools/SalesEstimator.tsx:34-76 | rejected input leaves the shown result as it was; accepted input replaces it by the estimate, losses, urgency and recommendations, for the chosen catalogued type, a single value by EstimateUnique; the form fields are unchanged |
| SalesEstimator.Estimator.ResetCalculation | src/components/resources/tools/SalesEstimator.tsx:78-83 | clears all three fields and the result |
| Text.IsWhitespace | src/components/chat/AccountHealthAgent.tsx:69 | the characters `trim` removes, ECMAScript's white space and line terminators; TrimStartEmpty, TrimEndEmpty, TrimEmpty and AccountHealthAgent.SpaceOnlyInputNotSent state what trimming them gives |
| Text.TrimStart | src/components/chat/AccountHealthAgent.tsx:69 | the result is a suffix of the string, everything cut off is ECMAScript white space or a line terminator, and it does not start with one |
| Text.TrimEnd | src/components/chat/AccountHealthAgent.tsx:69 | the result is a prefix of the string, everything cut off is ECMAScript white space or a line terminator, and it does not end with one |
| Text.Trim | src/components/chat/AccountHealthAgent.tsx:69 | the trimmed text is one block s[i..j] of the string with only white space before and after it, and it neither starts nor ends with white space |
| Text.TrimStartEmpty | src/components/chat/AccountHealthAgent.tsx:69 | trimming the start leaves nothing exactly when every character is ECMAScript white space or a line terminator |
| Text.TrimEndEmpty | src/components/chat/AccountHealthAgent.tsx:69 | trimming the end leaves nothing exactly when every character is ECMAScript white space or a line terminator |
| Text.TrimEmpty | src/components/chat/AccountHealthAgent.tsx:69-70 | trimming leaves nothing exactly when every character is ECMAScript white space or a line terminator (including U+3000 and the other space separators), so such input is not sent |
| Text.ReplaceChar | src/components/chat/AccountHealthAgent.tsx:137 | the length is kept and every occurrence of the character, and only those, is replaced |
| Text.Split | src/components/chat/AccountHealthAgent.tsx:138 | splitting always gives at least one part |
| Text.SplitJoin | src/components/chat/AccountHealthAgent.tsx:138 | joining the parts with the separator gives the text back, no part holds the separator, and there is one more part than separators |
| AccountHealthAgent.SendContent | src/components/chat/AccountHealthAgent.tsx:69 | a non-empty quick question is sent as it is; the content is empty exactly when there is no quick question and the input is all white space |
| AccountHealthAgent.SpaceOnlyInputNotSent | src/components/chat/AccountHealthAgent.tsx:69-70 | typed input made only of the ideographic space, the em space, the no-break space or the line separator gives empty content, so nothing is sent |
| AccountHealthAgent.ShowQuickQuestions | src/components/chat/AccountHealthAgent.tsx:170 | the quick questions show while only the welcome message is there; ChatAgent.constructor and ChatAgent.SendMessage state it is shown at first and hidden after a send |
| AccountHealthAgent.History | src/components/chat/AccountHealthAgent.tsx:86-89 | the history is the last ten messages (all of them when fewer), in order, reduced to role and content |
| AccountHealthAgent.HistorySlides | src/components/chat/AccountHealthAgent.tsx:86 | once ten messages exist, one more message drops the oldest entry of the history and adds the new one at the end |
| AccountHealthAgent.Reply | src/components/chat/AccountHealthAgent.tsx:102-118 | the appended message is from the assistant and holds the reply on success and the fixed apology on failure |
| AccountHealthAgent.FormatMessageContent | src/components/chat/AccountHealthAgent.tsx:137-142 | every message renders as at least one paragraph |
| AccountHealthAgent.FormatMessageContentLines | src/components/chat/AccountHealthAgent.tsx:137-142 | the paragraphs joined by line breaks give the text with bullets replaced; no paragraph holds a line break or a bullet; there is one paragraph more than line breaks |
| AccountHealthAgent.ReplaceCount | src/components/chat/AccountHealthAgent.tsx:137-138 | replacing the bullets does not change how many line breaks the text has |
| AccountHealthAgent.SplitPartsOccur | src/components/chat/AccountHealthAgent.tsx:138 | every character of a paragraph occurs in the text it was cut from |
| AccountHealthAgent.ChatAgent.constructor | src/components/chat/AccountHealthAgent.tsx:23-26 | the chat starts with only the welcome message (lines 38-57), empty input, neither flag set, and the quick questions shown (line 170) |
| AccountHealthAgent.ChatAgent.SetInput | src/components/chat/AccountHealthAgent.tsx:271 | typing replaces the input and changes nothing else |
| AccountHealthAgent.ChatAgent.BeginSend | src/components/chat/AccountHealthAgent.tsx:68-97 | empty content or a send already under way changes nothing and sends nothing; otherwise the user message is appended, the input cleared, both flags raised, and the request carries the content and the history from before the new message |
| AccountHealthAgent.ChatAgent.CompleteSend | src/components/chat/AccountHealthAgent.tsx:102-122 | the reply or the apology is appended and both flags are lowered whatever the outcome; the input is untouched |
| AccountHealthAgent.ChatAgent.SendMessage | src/components/chat/AccountHealthAgent.tsx:68-122 | a send happens exactly when the content is non-empty and none is under way; then exactly the user message and the reply are added in that order, the history is that of the earlier messages, the flags end lowered and the quick questions are hidden; otherwise the messages stay as they were |

## Left out

- Rendering and styling: all JSX, colour, icon and class-name tables, and the purely presentational components. Only the labels that carry meaning (the status chip and impact badge labels) are modelled.
- Unicode `toLowerCase`: the model lower-cases ASCII letters only, and other characters are kept.
- The non-greedy bold and italic regular expressions of `formatMessageContent`: only the bullet replacement and the line split are modelled.
- `localeCompare` is read as lexicographic order on code points, not the locale's collation.
- `new Date` parsing, time zones and daylight saving: dates are day numbers and "now" is a millisecond timestamp parameter.
- `supabase.functions.invoke` is an outcome parameter, either replied or failed. The server function behind it (an environment key, CORS, a call to a language-model API) is network code and is not part of this model.
- Message ids and timestamps (`Date.now()`, `new Date()`) are dropped from the chat messages.
- The async interleaving of a send: the model runs `BeginSend` and `CompleteSend` as two steps. A second send while one is pending is rejected, as `isLoading` does. Events that React might deliver between the two steps are not modelled beyond that.
- `parseFloat(monthlySales)` is passed to `CalculateImpact` as an optional real, with NaN as `None`. The model does not parse the string.
- Floating-point display and percentages: `toFixed`, `toLocaleString`, `formatCurrency`, the progress percentages of EvidenceWizard.tsx:150 and POAChecklist.tsx:124, and the gauge angle of AccountHealthGauge.tsx:24. Completeness is integer equality. The estimator's formulas use exact reals, so rounding is not modelled.
- `dateRange`, `marketplaces` and `brands` are collected by the filter bar but never applied by the violations page filter. They are held and toggled, never used as constraints.
- The mock KPI values `meanTimeToResolution` (2.3) and `repeatViolationRate` (29) are constants with nothing to prove.
- The resource and policy-update fixture arrays are not copied in: their filters are proved for every list.
- Timers and effects: `setTimeout`, the gauge's animation delay, `scrollIntoView`, `window.print`, `alert`, `window.open` and `window.location`. The gauge's delay is a `TimerFires` step.
- `pageTitle` is an object lookup, so a JavaScript prototype key such as "toString" would not fall back to "Dashboard". The model treats every id other than the seven page ids as unknown.
- The stable built-in sort is modelled by insertion sort. Its result is the same for any stable sort, but the built-in's comparison order is not.
- src/components/resources/ResourcesMainTest.tsx has the same `toggleFilter` and initial state as ResourcesMain. The ResourcesMain class models both.
- EvidenceWizard.MissingFromShape, FoundInShape and FoodRendering, ViolationsMain's Shape lemmas and POAChecklist.RequiredCount are proved for any list of the fixture's shape, and that shape is stated as a precondition. The lemmas about the fixture constants apply them.
- POAChecklist.ReadyIffAllRequiredChecked: with no required items the source computes 0/0 = NaN and never shows the ready card, but the model counts that case as ready. The fixture has eleven required items.
- PerformanceTrendChart.FilteredData requires a range above zero. `slice(-0)` would return the whole list, but `selectedRange` is always 7, 30 or 90.
- POAChecklist.ToggleOptionalItem is stated only for the two optional items of the fixture ("6" and "7"), the case the lemma about the required count covers.
