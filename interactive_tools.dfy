/** The interactive tools panel (src/components/resources/InteractiveTools.tsx):
    the tools passing the search and tag filters, the first-three preview,
    and the tool opened by clicking its card. */
module InteractiveTools {

  import opened Wrappers
  import opened Seqs
  import opened Text

  datatype ToolPriority = Essential | Important | NiceToHave

  /** The three tools that have a component to open. */
  datatype ToolComponent = POAChecklistTool | EvidenceWizardTool | SalesEstimatorTool

  /** Lines 10-18, without the icon. */
  datatype Tool = Tool(
    id: string,
    title: string,
    description: string,
    priority: ToolPriority,
    tags: seq<string>,
    component: Option<ToolComponent>)

  /** Lines 26-78. */
  const Tools: seq<Tool> := [
    Tool("poa-checklist", "\"Before You Submit\" POA Checklist",
         "Interactive checklist that mirrors Amazon's POA expectations with PDF export capability.",
         Essential, ["Essential", "Interactive Tools"], Some(POAChecklistTool)),
    Tool("evidence-wizard", "Evidence Readiness Wizard",
         "Step-by-step guide based on product type and violation, with document upload capability.",
         Essential, ["Essential", "Interactive Tools"], Some(EvidenceWizardTool)),
    Tool("sales-estimator", "At-Risk Sales Estimator",
         "Calculate potential revenue loss during suppression periods and understand urgency.",
         Important, ["Interactive Tools"], Some(SalesEstimatorTool)),
    Tool("permissions-validator", "Account Permissions Validator",
         "Check if all necessary permissions are granted for optimal account monitoring.",
         Essential, ["Essential", "Account Permissions", "Interactive Tools"], None),
    Tool("copy-scanner", "Claim/Copy Quick Scan",
         "Paste product descriptions to get policy risk hints and compliance suggestions.",
         NiceToHave, ["Interactive Tools"], None),
    Tool("call-script", "AHS Call Script Helper",
         "Guided scripts and data points for Account Health Services calls.",
         NiceToHave, ["Interactive Tools"], None)
  ]

  /** Lines 91-97: only the title and the description are searched. */
  predicate QueryMatches(t: Tool, query: string)
  {
    query == "" ||
    Contains(Lower(t.title), Lower(query)) ||
    Contains(Lower(t.description), Lower(query))
  }

  predicate ToolMatches(t: Tool, query: string, selected: seq<string>)
  {
    QueryMatches(t, query) && (|selected| == 0 || SharesAny(selected, t.tags))
  }

  /** Lines 89-107. */
  function FilteredTools(tools: seq<Tool>, query: string, selected: seq<string>): (r: seq<Tool>)
    ensures |r| <= |tools|
  {
    Filter(t => ToolMatches(t, query, selected), tools)
  }

  /** A tool passes exactly when the search and, with tags selected, one of
      its tags admit it; the order of the tool list is kept. */
  lemma FilteredToolsMembers(tools: seq<Tool>, query: string, selected: seq<string>)
    ensures IsSubsequence(FilteredTools(tools, query, selected), tools)
    ensures forall t :: t in FilteredTools(tools, query, selected) <==>
      t in tools &&
      (query == "" || Contains(Lower(t.title), Lower(query)) || Contains(Lower(t.description), Lower(query))) &&
      (|selected| == 0 || exists i :: 0 <= i < |selected| && selected[i] in t.tags)
  {
    FilterMembers(t => ToolMatches(t, query, selected), tools);
    FilterIsSubsequence(t => ToolMatches(t, query, selected), tools);
  }

  lemma NoFiltersKeepAll(tools: seq<Tool>)
    ensures FilteredTools(tools, "", []) == tools
  {
    FilterAll(t => ToolMatches(t, "", []), tools);
  }

  /** Line 109: `showAll ? filteredTools : filteredTools.slice(0, 3)`. */
  function DisplayTools(filtered: seq<Tool>, showAll: bool): (r: seq<Tool>)
    ensures showAll ==> r == filtered
    ensures !showAll ==> |r| == (if |filtered| < 3 then |filtered| else 3)
    ensures r == filtered[..|r|]
  {
    if showAll then filtered
    else if |filtered| <= 3 then filtered
    else filtered[..3]
  }

  /** Line 141. */
  predicate ShowViewAll(filtered: seq<Tool>, showAll: bool)
  {
    !showAll && |filtered| > 3
  }

  /** "View All Tools" appears exactly when the preview leaves tools out. */
  lemma ViewAllIffTruncated(filtered: seq<Tool>, showAll: bool)
    ensures ShowViewAll(filtered, showAll) <==> |DisplayTools(filtered, showAll)| < |filtered|
  {
  }

  predicate HasId(t: Tool, id: string)
  {
    t.id == id
  }

  /** `k` is the first position of a tool with that id. */
  predicate FirstTool(tools: seq<Tool>, id: string, k: int)
  {
    0 <= k < |tools| && tools[k].id == id && forall i :: 0 <= i < k ==> tools[i].id != id
  }

  /** `tools.find(t => t.id === id)`: the first tool with that id. */
  function FindTool(tools: seq<Tool>, id: string): (r: Option<Tool>)
    ensures r.None? <==> forall i :: 0 <= i < |tools| ==> tools[i].id != id
    ensures r.Some? ==> r.value in tools && r.value.id == id
    ensures forall k :: FirstTool(tools, id, k) ==> r == Some(tools[k])
  {
    var r := Find(t => HasId(t, id), tools);
    assert r.Some? ==> exists k :: FirstTool(tools, id, k) && r.value == tools[k];
    r
  }

  function ToolIds(tools: seq<Tool>): (r: seq<string>)
    ensures |r| == |tools| && forall i :: 0 <= i < |r| ==> r[i] == tools[i].id
  {
    seq(|tools|, i requires 0 <= i < |tools| => tools[i].id)
  }

  /** With distinct ids, looking a listed tool up by its id finds that tool. */
  lemma FindListedTool(tools: seq<Tool>, t: Tool)
    requires NoDuplicates(ToolIds(tools)) && t in tools
    ensures FindTool(tools, t.id) == Some(t)
  {
    var k :| 0 <= k < |tools| && tools[k] == t;
    forall i | 0 <= i < k ensures !HasId(tools[i], t.id) {
      assert ToolIds(tools)[i] != ToolIds(tools)[k];
    }
    FindFirst(t' => HasId(t', t.id), tools, k);
  }

  /** Line 111: the component of the tool whose id is `activeTool`; no tool
      is open while `activeTool` is null (or the falsy empty string). */
  function ActiveComponent(tools: seq<Tool>, activeTool: Option<string>): (r: Option<ToolComponent>)
    ensures r.Some? ==>
      activeTool.Some? &&
      exists i :: 0 <= i < |tools| && tools[i].id == activeTool.value && tools[i].component == r
  {
    match activeTool
    case None => None
    case Some(id) =>
      if id == "" then None
      else match FindTool(tools, id)
        case None => None
        case Some(t) => t.component
  }

  /** A catalogue a card click can open tools from: ids are distinct and
      none is the empty string. */
  predicate WellKeyed(tools: seq<Tool>)
  {
    NoDuplicates(ToolIds(tools)) && forall i :: 0 <= i < |tools| ==> tools[i].id != ""
  }

  /** The tool list has distinct, non-empty ids, so opening a card shows its
      own tool. */
  lemma ToolsHaveDistinctIds()
    ensures WellKeyed(Tools)
  {
    var ids := ToolIds(Tools);
    assert ids == ["poa-checklist", "evidence-wizard", "sales-estimator",
                   "permissions-validator", "copy-scanner", "call-script"];
  }

  /** Unfiltered, the preview shows the three tools that can be opened and
      offers "View All Tools" for the other three. */
  lemma FixturePreview()
    ensures DisplayTools(FilteredTools(Tools, "", []), false) == Tools[..3]
    ensures forall t :: t in DisplayTools(FilteredTools(Tools, "", []), false) ==> t.component.Some?
    ensures ShowViewAll(FilteredTools(Tools, "", []), false)
  {
    NoFiltersKeepAll(Tools);
  }

  /** The panel's own state, `activeTool` (line 87). */
  class InteractiveToolsView {
    var activeTool: Option<string>

    constructor ()
      ensures activeTool == None
    {
      activeTool := None;
    }

    /** Line 156: a card opens its tool only when the tool has a component. */
    method ClickCard(tool: Tool)
      modifies this
      ensures tool.component.Some? ==> activeTool == Some(tool.id)
      ensures tool.component.None? ==> activeTool == old(activeTool)
    {
      if tool.component.Some? {
        activeTool := Some(tool.id);
      }
    }

    /** Line 119. */
    method Back()
      modifies this
      ensures activeTool == None
    {
      activeTool := None;
    }
  }

  /** Clicking a listed card of a tool with a component opens that component. */
  method OpenTool(view: InteractiveToolsView, tools: seq<Tool>, t: Tool) returns (shown: Option<ToolComponent>)
    requires WellKeyed(tools) && t in tools && t.component.Some?
    modifies view
    ensures view.activeTool == Some(t.id)
    ensures shown == ActiveComponent(tools, view.activeTool) == t.component
  {
    view.ClickCard(t);
    FindListedTool(tools, t);
    assert t.id != "" by {
      var j :| 0 <= j < |tools| && tools[j] == t;
    }
    shown := ActiveComponent(tools, view.activeTool);
  }
}
