/** The impact badge (src/components/ui/impact-badge.tsx): the three impact
    levels with their captions, and the case-insensitive conversion from the
    case records' impact strings. */
module ImpactBadge {

  import opened Text
  import IssueTable

  datatype ImpactLevel = Low | Medium | High

  /** The caption `impactConfig` shows for each level. */
  function ImpactLabel(l: ImpactLevel): string
  {
    match l
    case Low => "Low"
    case Medium => "Medium"
    case High => "High"
  }

  /** The lower-case tag that names each level. */
  function ImpactCode(l: ImpactLevel): (code: string)
    ensures Lower(code) == code
  {
    match l
    case Low => "low"
    case Medium => "medium"
    case High => "high"
  }

  predicate IsImpactCode(s: string)
  {
    s == "low" || s == "medium" || s == "high"
  }

  /** `getImpactLevel`: the string is lower-cased, and a lower-cased tag names
      its level; anything else falls back to "low". */
  function GetImpactLevel(s: string): (r: ImpactLevel)
    ensures IsImpactCode(Lower(s)) <==> ImpactCode(r) == Lower(s)
    ensures !IsImpactCode(Lower(s)) ==> r == Low
  {
    match Lower(s)
    case "low" => Low
    case "medium" => Medium
    case "high" => High
    case _ => Low
  }

  /** Only the lower-cased form matters: strings that differ in the case of
      their letters get the same level. */
  lemma CaseInsensitive(s: string, t: string)
    requires Lower(s) == Lower(t)
    ensures GetImpactLevel(s) == GetImpactLevel(t)
    ensures GetImpactLevel(s) == GetImpactLevel(Lower(s))
  {
    LowerIdempotent(s);
  }

  /** "HIGH", "High" and "high" all name the high level. */
  lemma HighInAnyCase()
    ensures GetImpactLevel("HIGH") == High
    ensures GetImpactLevel("High") == High
    ensures GetImpactLevel("high") == High
  {
    assert Lower("HIGH") == "high";
    assert Lower("High") == "high";
    assert Lower("high") == "high";
  }

  /** Converting a caption and showing the level's caption gives the caption
      back; converting a level's tag gives the level back. */
  lemma ImpactRoundTrip(l: ImpactLevel)
    ensures GetImpactLevel(ImpactLabel(l)) == l
    ensures ImpactLabel(GetImpactLevel(ImpactLabel(l))) == ImpactLabel(l)
    ensures GetImpactLevel(ImpactCode(l)) == l
  {
    match l
    case Low => assert Lower("Low") == "low";
    case Medium => assert Lower("Medium") == "medium";
    case High => assert Lower("High") == "high";
  }

  /** Feeding the converted level back into the conversion changes nothing. */
  lemma GetImpactLevelIdempotent(s: string)
    ensures GetImpactLevel(ImpactCode(GetImpactLevel(s))) == GetImpactLevel(s)
  {
    ImpactRoundTrip(GetImpactLevel(s));
  }

  /** The badge in the case table shows each case's own impact. */
  lemma CaseImpactBadge(i: IssueTable.Impact)
    ensures ImpactLabel(GetImpactLevel(IssueTable.ImpactLabel(i))) == IssueTable.ImpactLabel(i)
  {
    match i
    case Low => ImpactRoundTrip(Low);
    case Medium => ImpactRoundTrip(Medium);
    case High => ImpactRoundTrip(High);
  }
}
