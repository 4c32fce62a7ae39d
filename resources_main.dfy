/** The resources page (src/components/resources/ResourcesMain.tsx, and the
    identical state and toggle rule of src/components/resources/ResourcesMainTest.tsx):
    the search box, the selected filter tags and the active tab, and which
    resource grid the tab shows. */
module ResourcesMain {

  import opened Wrappers
  import opened Seqs
  import opened ToggleList
  import opened ResourceGrid

  /** The filter chips offered above the tabs (lines 17-25). */
  const FilterTags: seq<string> := [
    "Essential", "Policy Updates", "Templates", "Category Guides",
    "IP/Brand", "Interactive Tools", "Account Permissions"
  ]

  /** Lines 76-150: the "all" tab shows the library under the page's search
      and tags, the "recent" tab the same with the recent flag; the other two
      tabs show placeholder cards and no grid. */
  function TabGrid(tab: string, query: string, selected: seq<string>,
                   resources: seq<Resource>, now: int): (r: Option<seq<Resource>>)
    ensures r.Some? <==> tab == "all" || tab == "recent"
    ensures r.Some? ==> IsSubsequence(r.value, resources)
  {
    FilteredResourcesMembers(resources, query, selected, tab == "recent", now);
    if tab == "all" then Some(FilteredResources(resources, query, selected, false, now))
    else if tab == "recent" then Some(FilteredResources(resources, query, selected, true, now))
    else None
  }

  /** Switching from "all" to "recent" never shows more resources. */
  lemma RecentTabNarrows(query: string, selected: seq<string>, resources: seq<Resource>, now: int)
    ensures |TabGrid("recent", query, selected, resources, now).value|
         <= |TabGrid("all", query, selected, resources, now).value|
  {
    RecentNarrows(resources, query, selected, now);
  }

  /** In the initial state the "all" tab lists the whole library. */
  lemma InitialTabShowsAll(resources: seq<Resource>, now: int)
    ensures TabGrid("all", "", [], resources, now) == Some(resources)
  {
    NoFiltersKeepAll(resources, now);
  }

  class ResourcesPage {
    var searchQuery: string
    var selectedFilters: seq<string>
    var activeTab: string

    /** Toggling only ever starts from the empty list, so no tag is selected
        twice. */
    predicate Valid()
      reads this
    {
      NoDuplicates(selectedFilters)
    }

    /** Lines 13-15. */
    constructor ()
      ensures Valid()
      ensures searchQuery == "" && selectedFilters == [] && activeTab == "all"
    {
      searchQuery, selectedFilters, activeTab := "", [], "all";
    }

    /** Line 60: a chip is highlighted while its tag is selected. */
    predicate IsSelected(tag: string)
      reads this
    {
      tag in selectedFilters
    }

    /** Lines 27-33: the tag is removed if selected and appended otherwise;
        its chip flips and every other chip keeps its state. */
    method ToggleFilter(tag: string)
      requires Valid()
      modifies this
      ensures Valid()
      ensures selectedFilters == Toggle(old(selectedFilters), tag)
      ensures IsSelected(tag) <==> !old(IsSelected(tag))
      ensures forall other :: other != tag ==> (IsSelected(other) <==> old(IsSelected(other)))
      ensures searchQuery == old(searchQuery) && activeTab == old(activeTab)
    {
      ToggleKeepsNoDuplicates(selectedFilters, tag);
      forall other | other != tag
        ensures other in Toggle(selectedFilters, tag) <==> other in selectedFilters
      {
        ToggleOthers(selectedFilters, tag, other);
      }
      selectedFilters := Toggle(selectedFilters, tag);
    }

    /** Two clicks on a chip that was off leave the selection as it was. */
    method ToggleFilterTwice(tag: string)
      requires Valid() && !IsSelected(tag)
      modifies this
      ensures Valid()
      ensures selectedFilters == old(selectedFilters)
    {
      ghost var before := selectedFilters;
      ToggleFilter(tag);
      ToggleFilter(tag);
      ToggleTwice(before, tag);
    }

    method SetSearchQuery(q: string)
      modifies this
      ensures searchQuery == q
      ensures selectedFilters == old(selectedFilters) && activeTab == old(activeTab)
    {
      searchQuery := q;
    }

    method SetActiveTab(tab: string)
      modifies this
      ensures activeTab == tab
      ensures searchQuery == old(searchQuery) && selectedFilters == old(selectedFilters)
    {
      activeTab := tab;
    }

    function Grid(resources: seq<Resource>, now: int): Option<seq<Resource>>
      reads this
    {
      TabGrid(activeTab, searchQuery, selectedFilters, resources, now)
    }
  }
}
