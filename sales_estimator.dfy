/** The at-risk sales estimator (src/components/resources/tools/SalesEstimator.tsx):
    projected revenue loss while a listing is suppressed, an urgency level
    and the list of recommendations. Amounts are real numbers; the form's
    `parseFloat(monthlySales)` is passed in, NaN as `None`. */
module SalesEstimator {

  import opened Wrappers
  import opened Seqs

  datatype Urgency = LowUrgency | MediumUrgency | HighUrgency | CriticalUrgency
  datatype Severity = MediumSeverity | HighSeverity | CriticalSeverity

  /** An entry of lines 19-26. */
  datatype ViolationInfo = ViolationInfo(id: string, name: string, avgDays: int, severity: Severity)

  /** Lines 10-17. */
  datatype EstimationResult = EstimationResult(
    dailyRevenue: real,
    weeklyLoss: real,
    monthlyLoss: real,
    quarterlyLoss: real,
    urgencyLevel: Urgency,
    recommendations: seq<string>)

  const ViolationInfos: seq<ViolationInfo> := [
    ViolationInfo("safety", "Product Safety", 14, HighSeverity),
    ViolationInfo("authenticity", "Authenticity/Counterfeit", 21, CriticalSeverity),
    ViolationInfo("listing", "Listing Quality", 7, MediumSeverity),
    ViolationInfo("ip", "Intellectual Property", 28, CriticalSeverity),
    ViolationInfo("restricted", "Restricted Product", 30, CriticalSeverity),
    ViolationInfo("policy", "General Policy", 10, MediumSeverity)
  ]

  const Expedite := "Consider expedited Amazon support if available"
  const PrepareDocs := "Prepare all required documentation immediately"
  const SubmitAppeal := "Submit appeal within 24-48 hours for fastest resolution"
  const MonitorDaily := "Monitor account health daily during resolution process"
  const BackupInventory := "Have backup inventory ready in different marketplace"
  const ConsultSpecialist := "Consult with compliance specialist if needed"

  /** Lines 53-57. */
  const BaseRecommendations: seq<string> := [PrepareDocs, SubmitAppeal, MonitorDaily]

  /** The order of the urgency levels. */
  function UrgencyRank(u: Urgency): int
  {
    match u
    case LowUrgency => 0
    case MediumUrgency => 1
    case HighUrgency => 2
    case CriticalUrgency => 3
  }

  /** Lines 48-51 as one classification: strictly above 50000 critical, above
      20000 high, above 5000 medium, otherwise low. */
  function UrgencyOf(monthlyLoss: real): Urgency
  {
    if monthlyLoss > 50000.0 then CriticalUrgency
    else if monthlyLoss > 20000.0 then HighUrgency
    else if monthlyLoss > 5000.0 then MediumUrgency
    else LowUrgency
  }

  /** A larger loss never gets a lower urgency. */
  lemma UrgencyMonotone(a: real, b: real)
    requires a <= b
    ensures UrgencyRank(UrgencyOf(a)) <= UrgencyRank(UrgencyOf(b))
  {
  }

  /** The thresholds themselves belong to the lower level. */
  lemma UrgencyBoundaries()
    ensures UrgencyOf(50000.0) == HighUrgency && UrgencyOf(20000.0) == MediumUrgency
    ensures UrgencyOf(5000.0) == LowUrgency && UrgencyOf(50000.5) == CriticalUrgency
  {
  }

  /** The recommendation list for an urgency level and a violation's
      severity: the three base items, with the expedite item in front of them
      and the backup-inventory item after them when urgency is critical, and
      the specialist item at the end for a critical-severity type. */
  function RecommendationsFor(urgency: Urgency, severity: Severity): seq<string>
  {
    (if urgency == CriticalUrgency then [Expedite] + BaseRecommendations + [BackupInventory] else BaseRecommendations)
    + (if severity == CriticalSeverity then [ConsultSpecialist] else [])
  }

  /** The estimate for the given sales and violation: the loss figures, the
      urgency they give and the recommendation list. */
  predicate IsEstimateOf(r: EstimationResult, sales: real, violation: ViolationInfo)
  {
    r.dailyRevenue == sales / 30.0 &&
    r.weeklyLoss == 7.0 * r.dailyRevenue &&
    r.monthlyLoss == violation.avgDays as real * r.dailyRevenue &&
    r.quarterlyLoss == r.monthlyLoss + 30.0 * r.dailyRevenue &&
    r.urgencyLevel == UrgencyOf(r.monthlyLoss) &&
    r.recommendations == RecommendationsFor(r.urgencyLevel, violation.severity)
  }

  /** Lines 41-75 after the guards: the loss figures, the urgency chosen by
      successive reassignment, and the recommendations assembled with
      `unshift` and `push`. */
  method ComputeEstimate(sales: real, violation: ViolationInfo) returns (r: EstimationResult)
    ensures IsEstimateOf(r, sales, violation)
  {
    var dailyRevenue := sales / 30.0;
    var avgSuppressionDays := violation.avgDays;
    var weeklyLoss := dailyRevenue * 7.0;
    var monthlyLoss := dailyRevenue * avgSuppressionDays as real;
    var quarterlyLoss := dailyRevenue * (avgSuppressionDays + 30) as real;

    var urgencyLevel := LowUrgency;
    if monthlyLoss > 50000.0 {
      urgencyLevel := CriticalUrgency;
    } else if monthlyLoss > 20000.0 {
      urgencyLevel := HighUrgency;
    } else if monthlyLoss > 5000.0 {
      urgencyLevel := MediumUrgency;
    }

    var recommendations := BaseRecommendations;
    if urgencyLevel == CriticalUrgency {
      recommendations := [Expedite] + recommendations;
      recommendations := recommendations + [BackupInventory];
    }
    if violation.severity == CriticalSeverity {
      recommendations := recommendations + [ConsultSpecialist];
    } else {
      assert recommendations == recommendations + [];
    }
    r := EstimationResult(dailyRevenue, weeklyLoss, monthlyLoss, quarterlyLoss, urgencyLevel, recommendations);
  }

  /** What a reader of the list can rely on: 3 items plus 2 when urgency is
      critical plus 1 for a critical-severity type; the base items in their
      order; the expedite item first, and the backup-inventory item present,
      exactly when urgency is critical; the specialist item last exactly for
      a critical-severity type. */
  lemma RecommendationsShape(urgency: Urgency, severity: Severity)
    ensures var rs := RecommendationsFor(urgency, severity);
      && |rs| == 3 + (if urgency == CriticalUrgency then 2 else 0) + (if severity == CriticalSeverity then 1 else 0)
      && IsSubsequence(BaseRecommendations, rs)
      && (urgency == CriticalUrgency <==> rs[0] == Expedite)
      && (urgency == CriticalUrgency <==> BackupInventory in rs)
      && (severity == CriticalSeverity <==> rs[|rs| - 1] == ConsultSpecialist)
  {
    var crit, sev := urgency == CriticalUrgency, severity == CriticalSeverity;
    BaseIsSubsequence(crit, sev);
    var w := if crit then [Expedite] + BaseRecommendations + [BackupInventory] else BaseRecommendations;
    if !sev {
      assert w + [] == w;
    }
  }

  /** The three base items keep their order whichever items are added. */
  lemma BaseIsSubsequence(critical: bool, criticalSeverity: bool)
    ensures var withUrgent := if critical then [Expedite] + BaseRecommendations + [BackupInventory] else BaseRecommendations;
      IsSubsequence(BaseRecommendations, if criticalSeverity then withUrgent + [ConsultSpecialist] else withUrgent)
  {
    var b := BaseRecommendations;
    SubsequenceOfSelf(b, []);
    SubsequenceOfSelf(b, [BackupInventory]);
    SubsequenceOfSelf(b, [ConsultSpecialist]);
    SubsequenceOfSelf(b, [BackupInventory, ConsultSpecialist]);
    assert b + [BackupInventory] + [ConsultSpecialist] == b + [BackupInventory, ConsultSpecialist];
    assert ([Expedite] + b + [BackupInventory])[1..] == b + [BackupInventory];
    assert ([Expedite] + b + [BackupInventory] + [ConsultSpecialist])[1..] == b + [BackupInventory, ConsultSpecialist];
    assert b + [] == b;
  }

  /** Every sequence is a subsequence of itself followed by more. */
  lemma {:induction false} SubsequenceOfSelf<T>(a: seq<T>, rest: seq<T>)
    ensures IsSubsequence(a, a + rest)
  {
    if a != [] {
      SubsequenceOfSelf(a[1..], rest);
      assert (a + rest)[1..] == a[1..] + rest;
    }
  }

  predicate InfoHasId(v: ViolationInfo, id: string)
  {
    v.id == id
  }

  /** Some entry of the catalogue has the id. */
  predicate Catalogued(infos: seq<ViolationInfo>, id: string)
  {
    exists i :: 0 <= i < |infos| && infos[i].id == id
  }

  /** `r` is the estimate for the sales and the catalogue entry with that id. */
  predicate EstimateFor(r: EstimationResult, sales: real, infos: seq<ViolationInfo>, id: string)
  {
    exists v :: v in infos && v.id == id && IsEstimateOf(r, sales, v)
  }

  /** No two catalogue entries share an id. */
  predicate IdsUnique(infos: seq<ViolationInfo>)
  {
    forall i, j :: 0 <= i < j < |infos| ==> infos[i].id != infos[j].id
  }

  lemma CatalogueIdsUnique()
    ensures IdsUnique(ViolationInfos)
  {
  }

  /** With unique ids the estimate for a sales figure and an id is a single
      value, so the result `CalculateImpact` stores is determined. */
  lemma EstimateUnique(r1: EstimationResult, r2: EstimationResult, sales: real, infos: seq<ViolationInfo>, id: string)
    requires IdsUnique(infos)
    requires EstimateFor(r1, sales, infos, id) && EstimateFor(r2, sales, infos, id)
    ensures r1 == r2
  {
    var v1 :| v1 in infos && v1.id == id && IsEstimateOf(r1, sales, v1);
    var v2 :| v2 in infos && v2.id == id && IsEstimateOf(r2, sales, v2);
    var i :| 0 <= i < |infos| && infos[i] == v1;
    var j :| 0 <= j < |infos| && infos[j] == v2;
    assert i == j;
  }

  /** Line 36 and line 39: an estimate is made only for non-zero, non-NaN
      sales and a violation type that names a catalogue entry. */
  predicate Accepted(sales: Option<real>, id: string, infos: seq<ViolationInfo>)
  {
    sales.Some? && sales.value != 0.0 && id != "" && Catalogued(infos, id)
  }

  /** Lines 35-75 against a given catalogue: no estimate for rejected input,
      otherwise the estimate for the entry the id names. */
  method Estimate(sales: Option<real>, id: string, infos: seq<ViolationInfo>) returns (r: Option<EstimationResult>)
    ensures r.None? <==> !Accepted(sales, id, infos)
    ensures r.Some? ==> EstimateFor(r.value, sales.value, infos, id)
  {
    if sales.None? || sales.value == 0.0 || id == "" {
      return None;
    }
    var found := Find(v => InfoHasId(v, id), infos);
    if found.None? {
      assert !Catalogued(infos, id);
      return None;
    }
    var e := ComputeEstimate(sales.value, found.value);
    assert found.value in infos && found.value.id == id;
    r := Some(e);
  }

  class Estimator {
    var asin: string
    var monthlySales: string
    var violationType: string
    var result: Option<EstimationResult>

    /** Lines 29-32. */
    constructor ()
      ensures asin == "" && monthlySales == "" && violationType == "" && result == None
    {
      asin, monthlySales, violationType, result := "", "", "", None;
    }

    /** Lines 34-76: `sales` is `parseFloat(monthlySales)`. Zero or NaN
        sales, no type or an unknown type leave the result as it was; any
        other input replaces it with the estimate for that type. */
    method CalculateImpact(sales: Option<real>)
      modifies this
      ensures !Accepted(sales, violationType, ViolationInfos) ==> result == old(result)
      ensures Accepted(sales, violationType, ViolationInfos) ==>
        result.Some? && EstimateFor(result.value, sales.value, ViolationInfos, violationType)
      ensures asin == old(asin) && monthlySales == old(monthlySales) && violationType == old(violationType)
    {
      var r := Estimate(sales, violationType, ViolationInfos);
      if r.Some? {
        result := r;
      }
    }

    /** Lines 78-83. */
    method ResetCalculation()
      modifies this
      ensures asin == "" && monthlySales == "" && violationType == "" && result == None
    {
      asin, monthlySales, violationType, result := "", "", "", None;
    }

    /** Line 166: the button is disabled while either input is empty. */
    predicate CalculateEnabled()
      reads this
    {
      monthlySales != "" && violationType != ""
    }
  }
}
