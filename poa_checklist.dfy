/** The "Before You Submit" plan-of-action checklist
    (src/components/resources/tools/POAChecklist.tsx): thirteen items in five
    categories, the checked ids, the category view and the completion counts. */
module POAChecklist {

  import opened Seqs
  import opened ToggleList

  /** Lines 9-15; `item` is the line of text shown next to the checkbox. */
  datatype ChecklistItem = ChecklistItem(
    id: string,
    category: string,
    item: string,
    description: string,
    required: bool)

  /** Lines 17-109. */
  const ChecklistItems: seq<ChecklistItem> := [
    ChecklistItem("1", "Root Cause Analysis", "Identified the specific issue that caused the policy violation",
                  "Clearly state what went wrong and why it happened", true),
    ChecklistItem("2", "Root Cause Analysis", "Explained how the issue was discovered",
                  "Detail your investigation process and timeline", true),
    ChecklistItem("3", "Immediate Actions", "Removed or fixed all affected listings",
                  "Document all ASINs that were corrected or removed", true),
    ChecklistItem("4", "Immediate Actions", "Addressed customer safety concerns (if applicable)",
                  "Show how you protected customers from potential harm", true),
    ChecklistItem("5", "Supporting Evidence", "Included relevant invoices or receipts",
                  "Provide proof of legitimate sourcing", true),
    ChecklistItem("6", "Supporting Evidence", "Attached certificates or test reports",
                  "Include safety/compliance documentation as needed", false),
    ChecklistItem("7", "Supporting Evidence", "Provided supplier contact information",
                  "Include verifiable supplier details", false),
    ChecklistItem("8", "Preventive Measures", "Implemented new quality control processes",
                  "Detail specific steps to prevent recurrence", true),
    ChecklistItem("9", "Preventive Measures", "Enhanced supplier vetting procedures",
                  "Show how you'll better evaluate suppliers going forward", true),
    ChecklistItem("10", "Preventive Measures", "Created monitoring and review schedule",
                  "Establish ongoing compliance checks", true),
    ChecklistItem("11", "Format & Structure", "Written in clear, professional language",
                  "Avoid jargon and ensure readability", true),
    ChecklistItem("12", "Format & Structure", "Organized in logical sections",
                  "Follow a clear structure: issue \U{2192} actions \U{2192} prevention", true),
    ChecklistItem("13", "Format & Structure", "Included specific dates and timelines",
                  "Provide concrete timeframes for all actions", true)
  ]

  function ItemCategory(x: ChecklistItem): string
  {
    x.category
  }

  /** Line 115: the categories without repetition, in first-appearance order
      (Seqs.DistinctOfMap). */
  function Categories(items: seq<ChecklistItem>): seq<string>
  {
    Distinct(Map(ItemCategory, items))
  }

  predicate InCategory(x: ChecklistItem, category: string)
  {
    x.category == category
  }

  /** The items of one category, in list order. */
  function CategoryItems(items: seq<ChecklistItem>, category: string): (r: seq<ChecklistItem>)
    ensures |r| <= |items|
  {
    Filter(x => InCategory(x, category), items)
  }

  /** Lines 117-119. */
  function FilteredItems(items: seq<ChecklistItem>, selected: string): (r: seq<ChecklistItem>)
    ensures selected == "all" ==> r == items
  {
    if selected == "all" then items else CategoryItems(items, selected)
  }

  /** Any other selection shows exactly that category's items, in order. */
  lemma FilteredItemsMembers(items: seq<ChecklistItem>, selected: string)
    requires selected != "all"
    ensures IsSubsequence(FilteredItems(items, selected), items)
    ensures forall x :: x in FilteredItems(items, selected) <==> x in items && x.category == selected
  {
    FilterMembers(x => InCategory(x, selected), items);
    FilterIsSubsequence(x => InCategory(x, selected), items);
  }

  predicate IsChecked(x: ChecklistItem, checked: seq<string>)
  {
    x.id in checked
  }

  predicate IsRequired(x: ChecklistItem)
  {
    x.required
  }

  /** Line 121. */
  function RequiredItems(items: seq<ChecklistItem>): (r: seq<ChecklistItem>)
    ensures |r| <= |items|
  {
    Filter(IsRequired, items)
  }

  /** Line 122: the required items whose id is checked. */
  function RequiredCompleted(items: seq<ChecklistItem>, checked: seq<string>): (n: nat)
    ensures n <= |RequiredItems(items)|
  {
    |Filter(x => IsChecked(x, checked), RequiredItems(items))|
  }

  /** Lines 124 and 272: the completion percentage reaches 100 exactly when
      every required item is checked, written here without the division. */
  predicate ReadyToSubmit(items: seq<ChecklistItem>, checked: seq<string>)
  {
    RequiredCompleted(items, checked) == |RequiredItems(items)|
  }

  lemma ReadyIffAllRequiredChecked(items: seq<ChecklistItem>, checked: seq<string>)
    ensures ReadyToSubmit(items, checked) <==>
      forall x :: x in items && x.required ==> x.id in checked
  {
    var req := RequiredItems(items);
    FilterKeepsLength(x => IsChecked(x, checked), req);
    FilterMembers(IsRequired, items);
    forall x | x in items && x.required && ReadyToSubmit(items, checked)
      ensures x.id in checked
    {
      var i :| 0 <= i < |req| && req[i] == x;
    }
    if forall x :: x in items && x.required ==> x.id in checked {
      forall i | 0 <= i < |req| ensures IsChecked(req[i], checked) {
        assert req[i] in req;
      }
    }
  }

  /** Lines 222-223: a category badge's checked count and size; the count
      never exceeds the size. */
  function CategoryProgress(filtered: seq<ChecklistItem>, category: string, checked: seq<string>): (r: (nat, nat))
    ensures r.0 <= r.1 == |CategoryItems(filtered, category)|
  {
    var inCategory := CategoryItems(filtered, category);
    (|Filter(x => IsChecked(x, checked), inCategory)|, |inCategory|)
  }

  /** Flipping an id that no required item carries leaves the required count
      as it was. */
  lemma ToggleOptionalKeepsRequired(items: seq<ChecklistItem>, checked: seq<string>, id: string)
    requires forall i :: 0 <= i < |items| && items[i].required ==> items[i].id != id
    ensures RequiredCompleted(items, Toggle(checked, id)) == RequiredCompleted(items, checked)
  {
    var req := RequiredItems(items);
    FilterMembers(IsRequired, items);
    forall j | 0 <= j < |req|
      ensures IsChecked(req[j], Toggle(checked, id)) == IsChecked(req[j], checked)
    {
      assert req[j] in req;
      ToggleOthers(checked, id, req[j].id);
    }
    FilterExt(x => IsChecked(x, Toggle(checked, id)), x => IsChecked(x, checked), req);
  }

  /** The facts about the item list that the counts depend on. */
  lemma ChecklistFields()
    ensures |ChecklistItems| == 13
    ensures forall i :: 0 <= i < 13 ==> (ChecklistItems[i].required <==> i != 5 && i != 6)
    ensures ChecklistItems[5].id == "6" && ChecklistItems[6].id == "7"
    ensures forall i :: 0 <= i < 13 && i != 5 && i != 6 ==>
      ChecklistItems[i].id != "6" && ChecklistItems[i].id != "7"
  {
  }

  /** The two optional items are those with ids "6" and "7", and eleven of the
      thirteen items are required. */
  lemma FixtureOptionalItems()
    ensures forall i :: 0 <= i < |ChecklistItems| ==> (!ChecklistItems[i].required <==> i == 5 || i == 6)
    ensures ChecklistItems[5].id == "6" && ChecklistItems[6].id == "7"
    ensures forall i :: 0 <= i < |ChecklistItems| && ChecklistItems[i].required ==>
      ChecklistItems[i].id != "6" && ChecklistItems[i].id != "7"
    ensures |RequiredItems(ChecklistItems)| == 11
  {
    ChecklistFields();
    RequiredCount(ChecklistItems);
  }

  /** Eleven required items out of thirteen, for any list flagged like the
      fixture. */
  lemma RequiredCount(s: seq<ChecklistItem>)
    requires |s| == 13
    requires forall i :: 0 <= i < 13 ==> (s[i].required <==> i != 5 && i != 6)
    ensures |RequiredItems(s)| == 11
  {
    var a, b, c := s[..5], s[5..7], s[7..];
    assert s == a + b + c;
    FilterConcat(IsRequired, a + b, c);
    FilterConcat(IsRequired, a, b);
    FilterAll(IsRequired, a);
    FilterAll(IsRequired, c);
    assert Filter(IsRequired, b) == [] by {
      FilterCons(IsRequired, b[0], [b[1]]);
      FilterCons(IsRequired, b[1], []);
      assert b == [b[0]] + [b[1]];
    }
  }

  class ChecklistView {
    var checkedItems: seq<string>
    var selectedCategory: string

    predicate Valid()
      reads this
    {
      NoDuplicates(checkedItems)
    }

    /** Lines 112-113. */
    constructor ()
      ensures Valid()
      ensures checkedItems == [] && selectedCategory == "all"
    {
      checkedItems, selectedCategory := [], "all";
    }

    /** Line 123: `totalCompleted`. */
    function TotalCompleted(): nat
      reads this
    {
      |checkedItems|
    }

    /** Lines 126-132: the id's checkbox flips, every other one keeps its
        state, and the total moves by one. */
    method ToggleItem(id: string)
      requires Valid()
      modifies this
      ensures Valid()
      ensures checkedItems == Toggle(old(checkedItems), id)
      ensures id in checkedItems <==> id !in old(checkedItems)
      ensures forall other :: other != id ==> (other in checkedItems <==> other in old(checkedItems))
      ensures TotalCompleted() == if id in old(checkedItems) then old(TotalCompleted()) - 1 else old(TotalCompleted()) + 1
      ensures selectedCategory == old(selectedCategory)
    {
      ToggleKeepsNoDuplicates(checkedItems, id);
      forall other | other != id
        ensures other in Toggle(checkedItems, id) <==> other in checkedItems
      {
        ToggleOthers(checkedItems, id, other);
      }
      if id in checkedItems {
        CountNoDuplicates(checkedItems, id);
      }
      checkedItems := Toggle(checkedItems, id);
    }

    /** Ticking an optional item of the list ("6" or "7") moves the total but
        not the required count. */
    method ToggleOptionalItem(id: string)
      requires Valid() && (id == "6" || id == "7")
      modifies this
      ensures Valid()
      ensures checkedItems == Toggle(old(checkedItems), id) && selectedCategory == old(selectedCategory)
      ensures TotalCompleted() != old(TotalCompleted())
      ensures RequiredCompleted(ChecklistItems, checkedItems) == old(RequiredCompleted(ChecklistItems, checkedItems))
    {
      FixtureOptionalItems();
      ToggleOptionalKeepsRequired(ChecklistItems, checkedItems, id);
      ToggleItem(id);
    }

    /** Lines 190 and 199: the "All" button and a category button. */
    method SelectCategory(category: string)
      modifies this
      ensures selectedCategory == category && checkedItems == old(checkedItems)
    {
      selectedCategory := category;
    }
  }
}
