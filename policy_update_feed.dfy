/** The policy update feed (src/components/resources/PolicyUpdateFeed.tsx):
    three selections narrowing the list of policy updates, the distinct
    categories and marketplaces offered by the selects, and the reset. */
module PolicyUpdateFeed {

  import opened Seqs

  datatype RiskLevel = Low | Medium | High | Critical

  /** The string values of `riskLevel`, which the risk select compares with. */
  function RiskLabel(r: RiskLevel): string
  {
    match r
    case Low => "low"
    case Medium => "medium"
    case High => "high"
    case Critical => "critical"
  }

  /** Distinct levels have distinct labels, so selecting a label admits one
      level only. */
  lemma RiskLabelInjective(a: RiskLevel, b: RiskLevel)
    ensures RiskLabel(a) == RiskLabel(b) <==> a == b
  {
  }

  /** Lines 8-18; `date` stays the ISO string it is only displayed as. */
  datatype PolicyUpdate = PolicyUpdate(
    id: string,
    title: string,
    summary: string,
    date: string,
    marketplace: string,
    category: string,
    riskLevel: RiskLevel,
    officialUrl: string,
    affectedCategories: seq<string>)

  /** Line 98: a "Global" update passes whatever marketplace is selected. */
  predicate MarketplaceMatches(u: PolicyUpdate, marketplace: string)
  {
    marketplace == "all" || u.marketplace == marketplace || u.marketplace == "Global"
  }

  /** Lines 97-108. */
  predicate UpdateMatches(u: PolicyUpdate, marketplace: string, risk: string, category: string)
  {
    MarketplaceMatches(u, marketplace) &&
    (risk == "all" || RiskLabel(u.riskLevel) == risk) &&
    (category == "all" || u.category == category)
  }

  function FilteredUpdates(updates: seq<PolicyUpdate>, marketplace: string, risk: string, category: string): (r: seq<PolicyUpdate>)
    ensures |r| <= |updates|
  {
    Filter(u => UpdateMatches(u, marketplace, risk, category), updates)
  }

  /** An update is listed exactly when the three checks all pass, and the
      list keeps the feed's order. */
  lemma FilteredUpdatesMembers(updates: seq<PolicyUpdate>, marketplace: string, risk: string, category: string)
    ensures IsSubsequence(FilteredUpdates(updates, marketplace, risk, category), updates)
    ensures forall u :: u in FilteredUpdates(updates, marketplace, risk, category) <==>
      u in updates &&
      (marketplace == "all" || u.marketplace == marketplace || u.marketplace == "Global") &&
      (risk == "all" || RiskLabel(u.riskLevel) == risk) &&
      (category == "all" || u.category == category)
  {
    FilterMembers(u => UpdateMatches(u, marketplace, risk, category), updates);
    FilterIsSubsequence(u => UpdateMatches(u, marketplace, risk, category), updates);
  }

  /** The marketplace select never hides a Global update: it is listed as soon
      as the risk and category checks admit it. */
  lemma GlobalNeverExcluded(updates: seq<PolicyUpdate>, u: PolicyUpdate, marketplace: string, risk: string, category: string)
    requires u in updates && u.marketplace == "Global"
    requires risk == "all" || RiskLabel(u.riskLevel) == risk
    requires category == "all" || u.category == category
    ensures u in FilteredUpdates(updates, marketplace, risk, category)
  {
    FilterMember(x => UpdateMatches(x, marketplace, risk, category), updates, u);
  }

  /** All three selections at "all": every update, in order. */
  lemma AllSelectionsKeepAll(updates: seq<PolicyUpdate>)
    ensures FilteredUpdates(updates, "all", "all", "all") == updates
  {
    FilterAll(u => UpdateMatches(u, "all", "all", "all"), updates);
  }

  function UpdateCategory(u: PolicyUpdate): string
  {
    u.category
  }

  function UpdateMarketplace(u: PolicyUpdate): string
  {
    u.marketplace
  }

  /** Line 110: `Array.from(new Set(updates.map(u => u.category)))`. */
  function Categories(updates: seq<PolicyUpdate>): seq<string>
  {
    Distinct(Map(UpdateCategory, updates))
  }

  /** Line 111, the same for marketplaces. */
  function Marketplaces(updates: seq<PolicyUpdate>): seq<string>
  {
    Distinct(Map(UpdateMarketplace, updates))
  }

  /** The category options are duplicate-free, hold exactly the categories of
      the updates, and come in the order those first appear. */
  lemma CategoryOptions(updates: seq<PolicyUpdate>)
    ensures NoDuplicates(Categories(updates))
    ensures forall c :: c in Categories(updates) <==> exists i :: 0 <= i < |updates| && updates[i].category == c
    ensures InFirstAppearanceOrder(Categories(updates), Map(UpdateCategory, updates))
  {
    DistinctOfMap(UpdateCategory, updates);
  }

  /** The marketplace options, likewise. */
  lemma MarketplaceOptions(updates: seq<PolicyUpdate>)
    ensures NoDuplicates(Marketplaces(updates))
    ensures forall m :: m in Marketplaces(updates) <==> exists i :: 0 <= i < |updates| && updates[i].marketplace == m
    ensures InFirstAppearanceOrder(Marketplaces(updates), Map(UpdateMarketplace, updates))
  {
    DistinctOfMap(UpdateMarketplace, updates);
  }

  /** The three selections of lines 93-95. */
  class PolicyUpdateFeedView {
    var selectedMarketplace: string
    var selectedRisk: string
    var selectedCategory: string

    constructor ()
      ensures selectedMarketplace == "all" && selectedRisk == "all" && selectedCategory == "all"
    {
      selectedMarketplace, selectedRisk, selectedCategory := "all", "all", "all";
    }

    function Listed(updates: seq<PolicyUpdate>): seq<PolicyUpdate>
      reads this
    {
      FilteredUpdates(updates, selectedMarketplace, selectedRisk, selectedCategory)
    }

    method SelectMarketplace(m: string)
      modifies this
      ensures selectedMarketplace == m
      ensures selectedRisk == old(selectedRisk) && selectedCategory == old(selectedCategory)
    {
      selectedMarketplace := m;
    }

    method SelectRisk(r: string)
      modifies this
      ensures selectedRisk == r
      ensures selectedMarketplace == old(selectedMarketplace) && selectedCategory == old(selectedCategory)
    {
      selectedRisk := r;
    }

    method SelectCategory(c: string)
      modifies this
      ensures selectedCategory == c
      ensures selectedMarketplace == old(selectedMarketplace) && selectedRisk == old(selectedRisk)
    {
      selectedCategory := c;
    }

    /** Lines 247-251: every selection back to "all", so the whole feed shows. */
    method ClearFilters(updates: seq<PolicyUpdate>)
      modifies this
      ensures selectedMarketplace == "all" && selectedRisk == "all" && selectedCategory == "all"
      ensures Listed(updates) == updates
    {
      selectedMarketplace, selectedRisk, selectedCategory := "all", "all", "all";
      AllSelectionsKeepAll(updates);
    }
  }
}
