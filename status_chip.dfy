/** The case-status chip (src/components/ui/status-chip.tsx): the five chip
    kinds with their captions, and the conversion from the case records'
    legacy status strings to a chip kind. */
module StatusChip {

  import IssueTable

  datatype StatusType = New | AwaitingDocs | PoaSubmitted | Resolved | Escalated

  /** The caption `statusConfig` shows for each chip kind. */
  function StatusLabel(t: StatusType): string
  {
    match t
    case New => "New"
    case AwaitingDocs => "Awaiting Client Docs"
    case PoaSubmitted => "POA Submitted"
    case Resolved => "Resolved"
    case Escalated => "Escalated"
  }

  /** The four legacy status strings the conversion recognises. */
  predicate IsLegacyLabel(s: string)
  {
    s == "New" || s == "Awaiting Client Docs" || s == "POA Submitted" || s == "Resolved"
  }

  /** `getStatusType`: a recognised legacy string becomes the chip whose caption
      it is; anything else falls back to the "new" chip. "escalated" is never
      produced. */
  function GetStatusType(s: string): (r: StatusType)
    ensures r != Escalated
    ensures IsLegacyLabel(s) <==> StatusLabel(r) == s
    ensures !IsLegacyLabel(s) ==> r == New
  {
    match s
    case "New" => New
    case "Awaiting Client Docs" => AwaitingDocs
    case "POA Submitted" => PoaSubmitted
    case "Resolved" => Resolved
    case _ => New
  }

  /** The captions of the five chips are pairwise different, so a caption
      names its chip. */
  lemma StatusLabelInjective(t: StatusType, u: StatusType)
    ensures StatusLabel(t) == StatusLabel(u) ==> t == u
  {
  }

  /** Converting a recognised string and showing the chip's caption gives the
      string back; converting a chip's caption gives the chip back, except for
      "Escalated", which the conversion does not know. */
  lemma StatusRoundTrip(s: string, t: StatusType)
    ensures IsLegacyLabel(s) ==> StatusLabel(GetStatusType(s)) == s
    ensures t != Escalated ==> GetStatusType(StatusLabel(t)) == t
    ensures GetStatusType(StatusLabel(Escalated)) == New
  {
    if t != Escalated {
      assert IsLegacyLabel(StatusLabel(t));
      StatusLabelInjective(GetStatusType(StatusLabel(t)), t);
    }
  }

  /** Every status a case record can hold is shown on the chip under its own
      caption: the table's chip never falls back for a real case. */
  lemma CaseStatusChip(c: IssueTable.CaseStatus)
    ensures IsLegacyLabel(IssueTable.StatusLabel(c))
    ensures StatusLabel(GetStatusType(IssueTable.StatusLabel(c))) == IssueTable.StatusLabel(c)
  {
  }
}
