/** The resource library grid (src/components/resources/ResourceGrid.tsx):
    the resources passing the search, tag and recency filters, and the list of
    resources the user has marked as read. */
module ResourceGrid {

  import opened Seqs
  import opened Text
  import opened Calendar

  datatype ResourceType = Guide | Template | Video | Checklist
  datatype ResourcePriority = Essential | Important | NiceToHave

  /** Lines 7-19, without the two link fields; `lastUpdated` as a day number
      (an ISO date parses to midnight UTC). */
  datatype Resource = Resource(
    id: string,
    title: string,
    description: string,
    resourceType: ResourceType,
    category: string,
    priority: ResourcePriority,
    tags: seq<string>,
    lastUpdatedDay: int,
    isNew: bool)

  /** Lines 137-144: an empty query imposes nothing; otherwise the lower-cased
      query occurs in the lower-cased title, description or category. */
  predicate QueryMatches(r: Resource, query: string)
  {
    query == "" ||
    Contains(Lower(r.title), Lower(query)) ||
    Contains(Lower(r.description), Lower(query)) ||
    Contains(Lower(r.category), Lower(query))
  }

  /** Lines 147-151: with no tag selected nothing is imposed; otherwise one
      selected tag among the resource's tags is enough. */
  predicate TagsMatch(r: Resource, selected: seq<string>)
  {
    |selected| == 0 || SharesAny(selected, r.tags)
  }

  /** Lines 154-158: updated no earlier than the moment seven days before
      `now` (the time of day of `now` is kept, as `setDate` keeps it). */
  predicate IsRecent(r: Resource, now: int)
  {
    DayStart(r.lastUpdatedDay) >= now - 7 * MsPerDay
  }

  predicate ResourceMatches(r: Resource, query: string, selected: seq<string>, onlyRecent: bool, now: int)
  {
    QueryMatches(r, query) && TagsMatch(r, selected) && (!onlyRecent || IsRecent(r, now))
  }

  /** Lines 135-161. */
  function FilteredResources(resources: seq<Resource>, query: string, selected: seq<string>,
                             onlyRecent: bool, now: int): (r: seq<Resource>)
    ensures |r| <= |resources|
  {
    Filter(x => ResourceMatches(x, query, selected, onlyRecent, now), resources)
  }

  /** A resource is shown exactly when it passes the search, shares a selected
      tag (if any is selected) and, with the recent flag, was updated within
      the last week; the grid keeps the library's order. */
  lemma FilteredResourcesMembers(resources: seq<Resource>, query: string, selected: seq<string>,
                                 onlyRecent: bool, now: int)
    ensures IsSubsequence(FilteredResources(resources, query, selected, onlyRecent, now), resources)
    ensures forall x :: x in FilteredResources(resources, query, selected, onlyRecent, now) <==>
      x in resources &&
      (query == "" || Contains(Lower(x.title), Lower(query)) ||
       Contains(Lower(x.description), Lower(query)) || Contains(Lower(x.category), Lower(query))) &&
      (|selected| == 0 || exists i :: 0 <= i < |selected| && selected[i] in x.tags) &&
      (onlyRecent ==> x.lastUpdatedDay * MsPerDay >= now - 7 * MsPerDay)
  {
    FilterMembers(x => ResourceMatches(x, query, selected, onlyRecent, now), resources);
    FilterIsSubsequence(x => ResourceMatches(x, query, selected, onlyRecent, now), resources);
  }

  /** A resource carrying one of the selected tags passes the tag check. */
  lemma SelectedTagAdmits(r: Resource, selected: seq<string>, tag: string)
    requires tag in selected && tag in r.tags
    ensures TagsMatch(r, selected)
  {
    SharesAnyMembers(selected, r.tags, tag);
  }

  /** No query, no tags and no recent flag: the whole library, in order. */
  lemma NoFiltersKeepAll(resources: seq<Resource>, now: int)
    ensures FilteredResources(resources, "", [], false, now) == resources
  {
    FilterAll(x => ResourceMatches(x, "", [], false, now), resources);
  }

  /** The recent tab never shows more than the library tab with the same
      query and tags. */
  lemma RecentNarrows(resources: seq<Resource>, query: string, selected: seq<string>, now: int)
    ensures |FilteredResources(resources, query, selected, true, now)|
         <= |FilteredResources(resources, query, selected, false, now)|
  {
    FilterMonotone(x => ResourceMatches(x, query, selected, true, now),
                   x => ResourceMatches(x, query, selected, false, now), resources);
  }

  /** As time passes the recent window can only lose resources. */
  lemma RecentShrinksOverTime(resources: seq<Resource>, query: string, selected: seq<string>,
                              earlier: int, later: int)
    requires earlier <= later
    ensures |FilteredResources(resources, query, selected, true, later)|
         <= |FilteredResources(resources, query, selected, true, earlier)|
  {
    FilterMonotone(x => ResourceMatches(x, query, selected, true, later),
                   x => ResourceMatches(x, query, selected, true, earlier), resources);
  }

  /** The grid's own state: the ids marked as read (line 133). */
  class ResourceGridView {
    var readItems: seq<string>

    constructor ()
      ensures readItems == []
    {
      readItems := [];
    }

    /** Line 181. */
    predicate IsRead(id: string)
      reads this
    {
      id in readItems
    }

    /** Lines 163-165: the id is appended, even when it is already there. */
    method MarkAsRead(id: string)
      modifies this
      ensures readItems == old(readItems) + [id]
      ensures IsRead(id)
      ensures forall other :: other != id ==> (IsRead(other) <==> old(IsRead(other)))
    {
      readItems := readItems + [id];
    }
  }
}
