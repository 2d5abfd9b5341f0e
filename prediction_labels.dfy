/** The threshold rules with which the prediction service turns model outputs
    into recommendations: campaign actions, churn urgency and cashier risk. */
module PredictionLabels {

  // ---------------------------------------------------------------- campaigns

  datatype CampaignAction = Launch | LaunchWithMonitoring | TestSmallScale | Revise {
    function Name(): string {
      match this
      case Launch => "LAUNCH"
      case LaunchWithMonitoring => "LAUNCH WITH MONITORING"
      case TestSmallScale => "TEST SMALL SCALE"
      case Revise => "REVISE"
    }

    /** How strongly the action backs the campaign. */
    function Rank(): nat {
      match this
      case Revise => 0
      case TestSmallScale => 1
      case LaunchWithMonitoring => 2
      case Launch => 3
    }
  }

  /** The recommendation of predict_campaign_performance, from the success
      probability (0..1) and the expected redemptions. */
  function RecommendCampaign(probability: real, redemptions: real): (a: CampaignAction)
    ensures a == Launch <==> probability >= 0.7 && redemptions >= 20.0
    ensures a == LaunchWithMonitoring <==>
      !(probability >= 0.7 && redemptions >= 20.0) && probability >= 0.5 && redemptions >= 15.0
    ensures a == Revise <==> probability < 0.3
    ensures a == TestSmallScale <==>
      probability >= 0.3 && !(probability >= 0.5 && redemptions >= 15.0)
  {
    if probability >= 0.7 && redemptions >= 20.0 then Launch
    else if probability >= 0.5 && redemptions >= 15.0 then LaunchWithMonitoring
    else if probability < 0.3 then Revise
    else TestSmallScale
  }

  /** More likely success and more redemptions never weaken the recommendation. */
  lemma RecommendationMonotone(p: real, r: real, p': real, r': real)
    requires p <= p' && r <= r'
    ensures RecommendCampaign(p, r).Rank() <= RecommendCampaign(p', r').Rank()
  {
  }

  /** `is_successful`: a success probability of at least one half. */
  predicate IsSuccessful(probability: real) {
    probability >= 0.5
  }

  /** The recommendation's confidence: high when the probability is more than
      0.3 away from one half. */
  function Confidence(probability: real): (c: string)
    ensures c == "high" <==> probability > 0.8 || probability < 0.2
    ensures c == "high" || c == "medium"
  {
    if (if probability >= 0.5 then probability - 0.5 else 0.5 - probability) > 0.3 then "high" else "medium"
  }

  /** Either launch recommendation implies the campaign counts as successful;
      a revision implies it does not. */
  lemma LaunchesAreSuccessful(probability: real, redemptions: real)
    ensures RecommendCampaign(probability, redemptions).Rank() >= 2 ==> IsSuccessful(probability)
    ensures RecommendCampaign(probability, redemptions) == Revise ==> !IsSuccessful(probability)
  {
  }

  // -------------------------------------------------------------------- churn

  datatype Urgency = Critical | High | Low {
    function Name(): string {
      match this
      case Critical => "critical"
      case High => "high"
      case Low => "low"
    }
  }

  /** The retention urgency for a churn probability (0..1). */
  function ChurnUrgency(probability: real): (u: Urgency)
    ensures u == Critical <==> probability >= 0.7
    ensures u == High <==> 0.4 <= probability < 0.7
    ensures u == Low <==> probability < 0.4
  {
    if probability >= 0.7 then Critical
    else if probability >= 0.4 then High
    else Low
  }

  /** `will_churn`: a churn probability of at least one half. */
  predicate WillChurn(probability: real) {
    probability >= 0.5
  }

  /** The estimated retention cost of an urgency level. */
  function RetentionCost(u: Urgency): (cost: int)
    ensures cost in {10, 25, 50}
  {
    match u
    case Critical => 50
    case High => 25
    case Low => 10
  }

  /** A customer predicted to churn is never low urgency, a critical one is
      always predicted to churn, and the retention cost grows with the
      probability. */
  lemma ChurnLabelsAgree(p: real, p': real)
    requires p <= p'
    ensures WillChurn(p) ==> ChurnUrgency(p) != Low
    ensures ChurnUrgency(p) == Critical ==> WillChurn(p)
    ensures RetentionCost(ChurnUrgency(p)) <= RetentionCost(ChurnUrgency(p'))
  {
  }

  /** Points earned per minute waited, the wait counted as at least a minute. */
  function Engagement(pointsEarned: real, waitingTime: real): (e: real)
    ensures waitingTime >= 1.0 ==> e * waitingTime == pointsEarned
    ensures waitingTime < 1.0 ==> e == pointsEarned
  {
    pointsEarned / (if waitingTime > 1.0 then waitingTime else 1.0)
  }

  /** The engagement level: high above 100, medium above 50, else low. */
  function EngagementLevel(engagement: real): (level: string)
    ensures level == "high" <==> engagement > 100.0
    ensures level == "medium" <==> 50.0 < engagement <= 100.0
    ensures level == "low" <==> engagement <= 50.0
  {
    if engagement > 100.0 then "high" else if engagement > 50.0 then "medium" else "low"
  }

  // ------------------------------------------------------------------ cashier

  datatype RiskLevel = RiskCritical | RiskHigh | RiskMedium | RiskLow {
    function Name(): string {
      match this
      case RiskCritical => "critical"
      case RiskHigh => "high"
      case RiskMedium => "medium"
      case RiskLow => "low"
    }

    /** The alert raised at this level. */
    function AlertType(): string {
      match this
      case RiskCritical => "immediate_investigation"
      case RiskHigh => "flagged_for_review"
      case RiskMedium => "monitoring"
      case RiskLow => "normal_operations"
    }

    function Severity(): nat {
      match this
      case RiskLow => 0
      case RiskMedium => 1
      case RiskHigh => 2
      case RiskCritical => 3
    }
  }

  /** The risk level of a cashier's shift for a risk score (0..1). */
  function CashierRiskLevel(score: real): (level: RiskLevel)
    ensures level == RiskCritical <==> score >= 0.8
    ensures level == RiskHigh <==> 0.5 <= score < 0.8
    ensures level == RiskMedium <==> 0.3 <= score < 0.5
    ensures level == RiskLow <==> score < 0.3
  {
    if score >= 0.8 then RiskCritical
    else if score >= 0.5 then RiskHigh
    else if score >= 0.3 then RiskMedium
    else RiskLow
  }

  /** `requires_action`: the level is critical or high. */
  predicate RequiresAction(level: RiskLevel) {
    level == RiskCritical || level == RiskHigh
  }

  /** Action is required exactly from a score of one half, and a higher score
      never lowers the level. */
  lemma CashierLabelsAgree(score: real, score': real)
    requires score <= score'
    ensures RequiresAction(CashierRiskLevel(score)) <==> score >= 0.5
    ensures CashierRiskLevel(score).Severity() <= CashierRiskLevel(score').Severity()
  {
  }

  /** The average transaction value, the number of transactions counted as
      at least one. */
  function AverageTransaction(total: real, count: real): (avg: real)
    ensures count >= 1.0 ==> avg * count == total
    ensures count < 1.0 ==> avg == total
  {
    total / (if count > 1.0 then count else 1.0)
  }
}
