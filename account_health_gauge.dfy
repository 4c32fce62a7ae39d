/** The account-health gauge (src/components/dashboard/AccountHealthGauge.tsx):
    the rating bands over the health score, and the gauge's animated needle
    value, which the rating does not depend on. */
module AccountHealthGauge {

  import opened Wrappers

  datatype HealthStatus = Excellent | Good | Fair | Poor

  function StatusName(h: HealthStatus): string
  {
    match h
    case Excellent => "Excellent"
    case Good => "Good"
    case Fair => "Fair"
    case Poor => "Poor"
  }

  /** The four captions of lines 27-30 are pairwise different, so the caption
      names the band. */
  lemma StatusNameInjective(a: HealthStatus, b: HealthStatus)
    ensures StatusName(a) == StatusName(b) <==> a == b
  {
  }

  function StatusColor(h: HealthStatus): string
  {
    match h
    case Excellent => "text-success"
    case Good => "text-info"
    case Fair => "text-warning"
    case Poor => "text-danger"
  }

  /** Bands ordered from worst (0) to best (3). */
  function StatusRank(h: HealthStatus): (n: nat)
    ensures n <= 3
  {
    match h
    case Poor => 0
    case Fair => 1
    case Good => 2
    case Excellent => 3
  }

  /** `getHealthStatus`: each band starts at its threshold, inclusive. */
  function GetHealthStatus(score: real): (h: HealthStatus)
    ensures h == Excellent <==> score >= 900.0
    ensures h == Good <==> 700.0 <= score < 900.0
    ensures h == Fair <==> 500.0 <= score < 700.0
    ensures h == Poor <==> score < 500.0
  {
    if score >= 900.0 then Excellent
    else if score >= 700.0 then Good
    else if score >= 500.0 then Fair
    else Poor
  }

  /** A higher score never gets a worse rating. */
  lemma HealthStatusMonotone(a: real, b: real)
    requires a <= b
    ensures StatusRank(GetHealthStatus(a)) <= StatusRank(GetHealthStatus(b))
  {
  }

  /** The rating's rank is the number of thresholds the score reaches. */
  lemma ThresholdsReached(score: real)
    ensures StatusRank(GetHealthStatus(score)) ==
            (if score >= 500.0 then 1 else 0) + (if score >= 700.0 then 1 else 0)
            + (if score >= 900.0 then 1 else 0)
  {
  }

  /** The scale maximum when the `maxScore` prop is left out (line 12). */
  const DefaultMaxScore: real := 1000.0

  /** The gauge: the `score` it is given, the scale maximum and the needle
      value, which starts at 0 and follows the score only when the delayed
      timer fires. */
  class Gauge {
    var score: real
    const maxScore: real
    var animatedScore: real

    /** Lines 10-15: `maxScore` is `None` when the prop is left out. */
    constructor (score: real, maxScore: Option<real>)
      ensures this.score == score
      ensures maxScore.None? ==> this.maxScore == DefaultMaxScore
      ensures maxScore.Some? ==> this.maxScore == maxScore.value
      ensures animatedScore == 0.0
    {
      this.score := score;
      this.maxScore := if maxScore.Some? then maxScore.value else DefaultMaxScore;
      animatedScore := 0.0;
    }

    /** The rating shown next to the needle. */
    function Status(): HealthStatus
      reads this
    {
      GetHealthStatus(score)
    }

    /** A new score arrives: the rating follows it at once, while the needle
        keeps its old value until the timer fires. */
    method ReceiveScore(s: real)
      modifies this
      ensures score == s && animatedScore == old(animatedScore)
      ensures Status() == GetHealthStatus(s)
    {
      score := s;
    }

    /** The timer fires: the needle reaches the score and the rating stays. */
    method TimerFires()
      modifies this
      ensures score == old(score) && animatedScore == score
      ensures Status() == old(Status())
    {
      animatedScore := score;
    }
  }
}
