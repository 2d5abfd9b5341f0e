/** What the service's campaign, churn and cashier predictors compute from a
    model type's loaded artifacts: the feature frame each builds, the model
    input obtained from it, the foreign models' outputs and the labels drawn
    from them, and the campaign optimizer's per-point evaluation. */
module ModelPredictions {
  import opened Wrappers
  import opened Environment
  import Numbers
  import CampaignGuide
  import CampaignOptimizer
  import PredictionLabels

  // ---------------------------------------------------------------- artifacts

  /** `artifacts[key]`: a KeyError when the dictionary has no such key. */
  function Artifact(artifacts: map<string, Obj>, key: string): (r: Try<Obj>)
    ensures r.Ok? <==> key in artifacts
    ensures r.Ok? ==> r.value == artifacts[key]
    ensures r.Raised? ==> r.exc == KeyError
  {
    if key in artifacts then Ok(artifacts[key]) else Raised(KeyError)
  }

  /** The frame's columns the artifacts' feature list names, in that order:
      a KeyError when the list is missing or names a column the frame lacks. */
  function SelectedFeatures(artifacts: map<string, Obj>, frame: Row): (r: Try<seq<real>>)
    ensures r.Ok? <==>
      "features" in artifacts && artifacts["features"].Names? &&
      SelectColumns(frame, artifacts["features"].names).Ok?
    ensures r.Ok? ==> r == SelectColumns(frame, artifacts["features"].names)
    ensures r.Raised? ==> r.exc == KeyError
  {
    match Artifact(artifacts, "features")
    case Raised(e) => Raised(e)
    case Ok(features) =>
      if features.Names? then SelectColumns(frame, features.names) else Raised(KeyError)
  }

  /** `artifacts['scaler'].transform(frame[artifacts['features']])`: the
      scaled model input, a KeyError for a missing list, column or scaler,
      and an AttributeError when the scaler is None. */
  function ScaledInput(ml: Runtime, artifacts: map<string, Obj>, frame: Row): (r: Try<seq<real>>)
    ensures r.Ok? <==>
      SelectedFeatures(artifacts, frame).Ok? && "scaler" in artifacts && artifacts["scaler"] != PyNone
    ensures r.Ok? ==> r.value == ml.transform(artifacts["scaler"], SelectedFeatures(artifacts, frame).value)
    ensures r.Raised? ==>
      (r.exc == AttributeError <==> SelectedFeatures(artifacts, frame).Ok? && "scaler" in artifacts)
    ensures r.Raised? ==> r.exc == KeyError || r.exc == AttributeError
  {
    match SelectedFeatures(artifacts, frame)
    case Raised(e) => Raised(e)
    case Ok(values) =>
      match Artifact(artifacts, "scaler")
      case Raised(e) => Raised(e)
      case Ok(scaler) =>
        if scaler == PyNone then Raised(AttributeError) else Ok(ml.transform(scaler, values))
  }

  /** Selecting a frame's own columns, all named differently, gives back its
      values in their order. */
  lemma SelectOwnColumns(names: seq<string>, values: seq<real>)
    requires |names| == |values|
    requires forall i, j :: 0 <= i < j < |names| ==> names[i] != names[j]
    ensures SelectColumns(Zip(names, values), names) == Ok(values)
  {
    var row := Zip(names, values);
    forall i | 0 <= i < |names|
      ensures Lookup(row, names[i]) == Some(values[i])
    {
      assert row[i].0 == names[i];
      var v := Lookup(row, names[i]).value;
      var j :| 0 <= j < |row| && row[j] == (names[i], v);
      assert names[j] == names[i];
    }
    var r := SelectColumns(row, names);
    assert r.value == values;
  }

  /** When the feature list is the frame's own column list, the model
      sees the campaign frame's values in training order. */
  lemma CampaignFrameSelectsOwnColumns(f: CampaignGuide.CampaignFeatures)
    ensures SelectColumns(f.AsRow(), CampaignGuide.CAMPAIGN_COLUMNS) == Ok(f.Values())
  {
    SelectOwnColumns(CampaignGuide.CAMPAIGN_COLUMNS, f.Values());
  }

  /** When the feature list is the frame's own column list, the model
      sees the twenty cashier features in that order. */
  lemma CashierFrameSelectsOwnColumns(f: CashierFeatures)
    ensures SelectColumns(f.AsRow(), CASHIER_COLUMNS) == Ok(f.Values())
  {
    SelectOwnColumns(CASHIER_COLUMNS, f.Values());
  }

  // ------------------------------------------------------------------ campaign

  /** One campaign prediction: the expected redemptions, the success
      probability in percent, and the labels drawn from them. */
  datatype CampaignPrediction = CampaignPrediction(
    expectedRedemptions: real,
    successProbabilityPct: real,
    isSuccessful: bool,
    action: PredictionLabels.CampaignAction,
    confidence: string)

  /** predict_campaign_performance's outcome short of an exception: the
      regressor is None (not yet trained), or a prediction. */
  datatype CampaignOutcome = CampaignNotReady | CampaignPredicted(prediction: CampaignPrediction)

  /** The campaign's feature frame: no redemptions yet, a percentage
      discount that is not on the total bill, a freebie when points are
      offered without a discount, the current hour, weekday and month, and
      the discount per unit of minimum spend (that spend counted as at least
      one). */
  function CampaignFrame(clock: Clock, durationDays: real, points: real, discountPercent: real,
                         minimumSpend: real): (f: CampaignGuide.CampaignFeatures)
    ensures f.isFreebie == 1.0 <==> points > 0.0 && discountPercent == 0.0
    ensures f.isWeekend == 1.0 <==> clock.Today().weekday >= 5
    ensures minimumSpend >= 1.0 ==> f.discountPerMinSpend * minimumSpend == discountPercent
    ensures minimumSpend < 1.0 ==> f.discountPerMinSpend == discountPercent
    ensures f.redemptions == 0.0 && f.redemptionsPerDuration == 0.0
  {
    var now := clock.Today();
    CampaignGuide.CampaignFeatures(
      durationDays, points, discountPercent, minimumSpend, 0.0, 1.0, 0.0,
      CampaignGuide.Flag(points > 0.0 && discountPercent == 0.0),
      clock.hour as real, now.weekday as real, now.month as real,
      CampaignGuide.Flag(now.weekday >= 5),
      discountPercent / (if minimumSpend >= 1.0 then minimumSpend else 1.0),
      0.0)
  }

  /** predict_campaign_performance on the campaign artifacts: not ready when
      the regressor is None; otherwise the regressor's redemptions and the
      classifier's success probability on the scaled frame, labelled. */
  function CampaignWith(ml: Runtime, clock: Clock, artifacts: map<string, Obj>, durationDays: real,
                        points: real, discountPercent: real, minimumSpend: real): (r: Try<CampaignOutcome>)
    ensures "regressor" !in artifacts ==> r == Raised(KeyError)
    ensures r == Ok(CampaignNotReady) <==> "regressor" in artifacts && artifacts["regressor"] == PyNone
    ensures r.Raised? ==> r.exc == KeyError || r.exc == AttributeError
    ensures r.Ok? && r.value.CampaignPredicted? <==>
      && "regressor" in artifacts && artifacts["regressor"] != PyNone
      && ScaledInput(ml, artifacts, CampaignFrame(clock, durationDays, points, discountPercent, minimumSpend).AsRow()).Ok?
      && "classifier" in artifacts && artifacts["classifier"] != PyNone
    ensures r.Ok? && r.value.CampaignPredicted? ==>
      var x := ScaledInput(ml, artifacts, CampaignFrame(clock, durationDays, points, discountPercent, minimumSpend).AsRow()).value;
      var p := r.value.prediction;
      var probability := ml.predictProba(artifacts["classifier"], x);
      && p.expectedRedemptions == ml.predict(artifacts["regressor"], x)
      && p.successProbabilityPct == probability * 100.0
      && p.isSuccessful == PredictionLabels.IsSuccessful(probability)
      && p.action == PredictionLabels.RecommendCampaign(probability, p.expectedRedemptions)
      && p.confidence == PredictionLabels.Confidence(probability)
  {
    match Artifact(artifacts, "regressor")
    case Raised(e) => Raised(e)
    case Ok(regressor) =>
      if regressor == PyNone then Ok(CampaignNotReady)
      else
        var frame := CampaignFrame(clock, durationDays, points, discountPercent, minimumSpend).AsRow();
        match ScaledInput(ml, artifacts, frame)
        case Raised(e) => Raised(e)
        case Ok(x) =>
          var expected := ml.predict(regressor, x);
          match Artifact(artifacts, "classifier")
          case Raised(e) => Raised(e)
          case Ok(classifier) =>
            if classifier == PyNone then Raised(AttributeError)
            else
              var probability := ml.predictProba(classifier, x);
              Ok(CampaignPredicted(CampaignPrediction(
                expected, probability * 100.0, PredictionLabels.IsSuccessful(probability),
                PredictionLabels.RecommendCampaign(probability, expected),
                PredictionLabels.Confidence(probability))))
  }

  /** A campaign recommended for launch (with or without monitoring) is
      reported successful and one sent back for revision is not; the
      confidence is high exactly when the probability is more than 30
      points away from 50%. */
  lemma CampaignLabelsAgree(ml: Runtime, clock: Clock, artifacts: map<string, Obj>, durationDays: real,
                            points: real, discountPercent: real, minimumSpend: real)
    requires CampaignWith(ml, clock, artifacts, durationDays, points, discountPercent, minimumSpend).Ok?
    requires CampaignWith(ml, clock, artifacts, durationDays, points, discountPercent, minimumSpend).value.CampaignPredicted?
    ensures var p := CampaignWith(ml, clock, artifacts, durationDays, points, discountPercent, minimumSpend).value.prediction;
      && (p.action.Rank() >= 2 ==> p.isSuccessful)
      && (p.action == PredictionLabels.Revise ==> !p.isSuccessful)
      && (p.isSuccessful <==> p.successProbabilityPct >= 50.0)
      && (p.confidence == "high" <==> p.successProbabilityPct > 80.0 || p.successProbabilityPct < 20.0)
  {
    var p := CampaignWith(ml, clock, artifacts, durationDays, points, discountPercent, minimumSpend).value.prediction;
    var frame := CampaignFrame(clock, durationDays, points, discountPercent, minimumSpend).AsRow();
    var x := ScaledInput(ml, artifacts, frame).value;
    PredictionLabels.LaunchesAreSuccessful(ml.predictProba(artifacts["classifier"], x), p.expectedRedemptions);
  }

  /** The optimizer's view of one campaign prediction: an exception
      propagates, a campaign that is not ready is skipped, and a prediction
      contributes its redemptions and success percentage. */
  function Evaluate(outcome: Try<CampaignOutcome>): (e: Try<CampaignOptimizer.Evaluation>)
    ensures e.Raised? <==> outcome.Raised?
    ensures e.Raised? ==> e.exc == outcome.exc
    ensures e == Ok(CampaignOptimizer.Unsuccessful) <==> outcome == Ok(CampaignNotReady)
    ensures outcome.Ok? && outcome.value.CampaignPredicted? ==>
      e == Ok(CampaignOptimizer.Predicted(outcome.value.prediction.expectedRedemptions,
                                          outcome.value.prediction.successProbabilityPct))
  {
    match outcome
    case Raised(x) => Raised(x)
    case Ok(CampaignNotReady) => Ok(CampaignOptimizer.Unsuccessful)
    case Ok(CampaignPredicted(p)) => Ok(CampaignOptimizer.Predicted(p.expectedRedemptions, p.successProbabilityPct))
  }

  /** The campaign prediction at each point of the optimizer's grid. */
  function CampaignTrial(ml: Runtime, clock: Clock, artifacts: map<string, Obj>)
    : CampaignOptimizer.GridPoint -> Try<CampaignOptimizer.Evaluation>
  {
    (q: CampaignOptimizer.GridPoint) =>
      Evaluate(CampaignWith(ml, clock, artifacts, q.duration as real, q.points as real, q.discount as real, q.minSpend as real))
  }

  /** The optimizer's answer is the best campaign of the grid: every grid
      campaign that is predicted scores at most the best score, and the
      parameters kept are a grid point within the maximum discount whose
      own prediction they report. */
  lemma OptimumIsBestCampaign(ml: Runtime, clock: Clock, artifacts: map<string, Obj>, target: int,
                              maxDiscount: real)
    requires CampaignOptimizer.Fold(CampaignTrial(ml, clock, artifacts), target, CampaignOptimizer.Grid(maxDiscount)).Ok?
    ensures var best := CampaignOptimizer.Fold(CampaignTrial(ml, clock, artifacts), target,
                                                CampaignOptimizer.Grid(maxDiscount)).value;
      && (forall q :: q in CampaignOptimizer.Grid(maxDiscount) ==>
            var c := CampaignWith(ml, clock, artifacts, q.duration as real, q.points as real, q.discount as real, q.minSpend as real);
            c.Ok? && (c.value.CampaignPredicted? ==>
              target != 0 &&
              CampaignOptimizer.Score(c.value.prediction.expectedRedemptions,
                                      c.value.prediction.successProbabilityPct, target) <= best.score))
      && (best.params.Some? ==>
            var q := best.params.value.point;
            var c := CampaignWith(ml, clock, artifacts, q.duration as real, q.points as real, q.discount as real, q.minSpend as real);
            && q.discount as real <= maxDiscount && q.discount in CampaignOptimizer.DISCOUNTS
            && c.Ok? && c.value.CampaignPredicted?
            && c.value.prediction.expectedRedemptions == best.params.value.expectedRedemptions
            && c.value.prediction.successProbabilityPct == best.params.value.successProbability)
  {
    var trial := CampaignTrial(ml, clock, artifacts);
    var grid := CampaignOptimizer.Grid(maxDiscount);
    CampaignOptimizer.FoldIsFirstArgmax(trial, target, grid);
    var best := CampaignOptimizer.Fold(trial, target, grid).value;
    forall q | q in grid
      ensures var c := CampaignWith(ml, clock, artifacts, q.duration as real, q.points as real, q.discount as real, q.minSpend as real);
        c.Ok? && (c.value.CampaignPredicted? ==>
          target != 0 &&
          CampaignOptimizer.Score(c.value.prediction.expectedRedemptions,
                                  c.value.prediction.successProbabilityPct, target) <= best.score)
    {
      var i :| 0 <= i < |grid| && grid[i] == q;
      assert CampaignOptimizer.Fine(trial, target, grid[i]);
    }
    if best.params.Some? {
      var i :| 0 <= i < |grid| && grid[i] == best.params.value.point &&
        trial(grid[i]).value == CampaignOptimizer.Predicted(best.params.value.expectedRedemptions,
                                                            best.params.value.successProbability);
      CampaignOptimizer.GridIsFilteredProduct(maxDiscount, grid[i]);
    }
  }

  // --------------------------------------------------------------------- churn

  /** predict_customer_churn's outcome: the model is missing, the prediction
      raised, or the churn assessment. */
  datatype ChurnOutcome =
    | ChurnNotReady
    | ChurnPredictionError(exc: Exception)
    | ChurnAssessed(
        probabilityPct: real,
        level: PredictionLabels.Urgency,
        willChurn: bool,
        retentionCost: int,
        engagementLevel: string,
        avgOrderValue: real,
        discountUsage: real)

  /** The churn model's input: the frame's four values, scaled when a scaler
      is present and not None. */
  function ChurnInput(ml: Runtime, artifacts: map<string, Obj>, discountAmount: real, pointsEarned: real,
                      price: real, waitingTime: real): (x: seq<real>)
    ensures ("scaler" !in artifacts || artifacts["scaler"] == PyNone) ==>
      x == [discountAmount, pointsEarned, price, waitingTime]
    ensures ("scaler" in artifacts && artifacts["scaler"] != PyNone) ==>
      x == ml.transform(artifacts["scaler"], [discountAmount, pointsEarned, price, waitingTime])
  {
    var frame := [discountAmount, pointsEarned, price, waitingTime];
    if "scaler" in artifacts && artifacts["scaler"] != PyNone then ml.transform(artifacts["scaler"], frame)
    else frame
  }

  /** The score a churn or cashier-risk model gives: its positive-class
      probability when it has predict_proba, its prediction otherwise. */
  function PositiveClassScore(ml: Runtime, model: Obj, x: seq<real>): real {
    if ml.hasPredictProba(model) then ml.predictProba(model, x) else ml.predict(model, x)
  }

  /** predict_customer_churn on the churn artifacts: not ready without
      artifacts or without a model entry; a None model fails the prediction;
      otherwise the probability and the urgency, churn flag, retention cost
      and engagement level drawn from it and from the inputs. */
  function ChurnWith(ml: Runtime, artifacts: map<string, Obj>, discountAmount: real, pointsEarned: real,
                     price: real, waitingTime: real): (r: ChurnOutcome)
    ensures r == ChurnNotReady <==> artifacts == map[] || "model" !in artifacts
    ensures r.ChurnPredictionError? <==> "model" in artifacts && artifacts["model"] == PyNone
    ensures r.ChurnPredictionError? ==> r.exc == AttributeError
    ensures r.ChurnAssessed? ==>
      var p := PositiveClassScore(ml, artifacts["model"], ChurnInput(ml, artifacts, discountAmount, pointsEarned, price, waitingTime));
      && r.probabilityPct == p * 100.0
      && r.level == PredictionLabels.ChurnUrgency(p)
      && r.willChurn == PredictionLabels.WillChurn(p)
      && r.retentionCost == PredictionLabels.RetentionCost(r.level)
      && r.engagementLevel == PredictionLabels.EngagementLevel(PredictionLabels.Engagement(pointsEarned, waitingTime))
      && r.avgOrderValue == price && r.discountUsage == discountAmount
  {
    if artifacts == map[] || "model" !in artifacts then ChurnNotReady
    else
      var model := artifacts["model"];
      if model == PyNone then ChurnPredictionError(AttributeError)
      else
        var p := PositiveClassScore(ml, model, ChurnInput(ml, artifacts, discountAmount, pointsEarned, price, waitingTime));
        var level := PredictionLabels.ChurnUrgency(p);
        ChurnAssessed(p * 100.0, level, PredictionLabels.WillChurn(p), PredictionLabels.RetentionCost(level),
                      PredictionLabels.EngagementLevel(PredictionLabels.Engagement(pointsEarned, waitingTime)),
                      price, discountAmount)
  }

  /** A customer predicted to churn is never of low urgency, a critical one
      is always predicted to churn, and the retention cost is 50, 25 or 10
      as the urgency is critical, high or low. */
  lemma ChurnAssessmentAgrees(ml: Runtime, artifacts: map<string, Obj>, discountAmount: real,
                              pointsEarned: real, price: real, waitingTime: real)
    requires ChurnWith(ml, artifacts, discountAmount, pointsEarned, price, waitingTime).ChurnAssessed?
    ensures var r := ChurnWith(ml, artifacts, discountAmount, pointsEarned, price, waitingTime);
      && (r.willChurn ==> r.level != PredictionLabels.Low)
      && (r.level == PredictionLabels.Critical ==> r.willChurn)
      && (r.willChurn <==> r.probabilityPct >= 50.0)
      && (r.retentionCost == 50 <==> r.level == PredictionLabels.Critical)
      && (r.retentionCost == 10 <==> r.level == PredictionLabels.Low)
  {
    var x := ChurnInput(ml, artifacts, discountAmount, pointsEarned, price, waitingTime);
    var p := PositiveClassScore(ml, artifacts["model"], x);
    PredictionLabels.ChurnLabelsAgree(p, p);
  }

  // ------------------------------------------------------------------- cashier

  /** The twenty aggregated shift features of the cashier model. */
  datatype CashierFeatures = CashierFeatures(
    balanceDiffSum: real, balanceDiffMean: real, balanceDiffStd: real, balanceDiffMin: real,
    balanceDiffMax: real, balanceDiscrepancyPctMean: real, balanceDiscrepancyPctMax: real,
    transactionTotalSum: real, transactionTotalCount: real, transactionTotalMean: real,
    vatComponentSum: real, numTransactionsSum: real, openingBalanceMean: real,
    closingBalanceMean: real, idCount: real, totalAmountSum: real, totalAmountMean: real,
    totalAmountStd: real, cashAmountSum: real, cashAmountMean: real)
  {
    /** The frame's values, in column order. */
    function Values(): (r: seq<real>)
      ensures |r| == |CASHIER_COLUMNS|
    {
      [balanceDiffSum, balanceDiffMean, balanceDiffStd, balanceDiffMin, balanceDiffMax,
       balanceDiscrepancyPctMean, balanceDiscrepancyPctMax, transactionTotalSum,
       transactionTotalCount, transactionTotalMean, vatComponentSum,
       numTransactionsSum, openingBalanceMean, closingBalanceMean, idCount,
       totalAmountSum, totalAmountMean, totalAmountStd, cashAmountSum, cashAmountMean]
    }

    /** The one-row frame the detector builds. */
    function AsRow(): Row {
      Zip(CASHIER_COLUMNS, Values())
    }
  }

  /** The cashier frame's column names, in the order the frame builds them. */
  const CASHIER_COLUMNS: seq<string> := [
    "balance_diff_sum", "balance_diff_mean", "balance_diff_std", "balance_diff_min",
    "balance_diff_max", "balance_discrepancy_pct_mean", "balance_discrepancy_pct_max",
    "transaction_total_sum", "transaction_total_count", "transaction_total_mean",
    "vat_component_sum", "num_transactions_sum", "opening_balance_mean",
    "closing_balance_mean", "id_count", "total_amount_sum", "total_amount_mean",
    "total_amount_std", "cash_amount_sum", "cash_amount_mean"
  ]

  /** A cashier shift's assessment: the risk score and its level and alert,
      whether action is required, and the reported financial and
      operational figures. */
  datatype CashierAssessment = CashierAssessment(
    riskScore: real,
    level: PredictionLabels.RiskLevel,
    alertType: string,
    requiresAction: bool,
    balanceDiffSum: real,
    balanceDiscrepancyPct: real,
    transactionTotal: real,
    totalVat: real,
    numTransactions: int,
    avgTransactionValue: real)

  /** detect_cashier_anomalies's outcome short of an exception. */
  datatype CashierOutcome = CashierNotReady | CashierAssessed(assessment: CashierAssessment)

  /** detect_cashier_anomalies on the cashier artifacts: not ready when the
      model is None; otherwise the score of the scaled frame and the level,
      alert and figures drawn from it. A missing model entry, feature list,
      column or scaler raises KeyError and a None scaler AttributeError. */
  function CashierWith(ml: Runtime, artifacts: map<string, Obj>, f: CashierFeatures): (r: Try<CashierOutcome>)
    ensures "model" !in artifacts ==> r == Raised(KeyError)
    ensures r == Ok(CashierNotReady) <==> "model" in artifacts && artifacts["model"] == PyNone
    ensures r.Raised? ==> r.exc == KeyError || r.exc == AttributeError
    ensures r.Ok? && r.value.CashierAssessed? <==>
      "model" in artifacts && artifacts["model"] != PyNone && ScaledInput(ml, artifacts, f.AsRow()).Ok?
    ensures r.Ok? && r.value.CashierAssessed? ==>
      var a := r.value.assessment;
      && a.riskScore == PositiveClassScore(ml, artifacts["model"], ScaledInput(ml, artifacts, f.AsRow()).value)
      && a.level == PredictionLabels.CashierRiskLevel(a.riskScore)
      && a.alertType == a.level.AlertType()
      && a.requiresAction == PredictionLabels.RequiresAction(a.level)
      && a.balanceDiffSum == f.balanceDiffSum && a.balanceDiscrepancyPct == f.balanceDiscrepancyPctMax
      && a.transactionTotal == f.transactionTotalSum && a.totalVat == f.vatComponentSum
      && a.numTransactions == Numbers.Trunc(f.numTransactionsSum)
      && a.avgTransactionValue == PredictionLabels.AverageTransaction(f.transactionTotalSum, f.numTransactionsSum)
  {
    match Artifact(artifacts, "model")
    case Raised(e) => Raised(e)
    case Ok(model) =>
      if model == PyNone then Ok(CashierNotReady)
      else
        match ScaledInput(ml, artifacts, f.AsRow())
        case Raised(e) => Raised(e)
        case Ok(x) =>
          var score := PositiveClassScore(ml, model, x);
          var level := PredictionLabels.CashierRiskLevel(score);
          Ok(CashierAssessed(CashierAssessment(
            score, level, level.AlertType(), PredictionLabels.RequiresAction(level),
            f.balanceDiffSum, f.balanceDiscrepancyPctMax, f.transactionTotalSum, f.vatComponentSum,
            Numbers.Trunc(f.numTransactionsSum),
            PredictionLabels.AverageTransaction(f.transactionTotalSum, f.numTransactionsSum))))
  }

  /** A shift requires action exactly from a risk score of one half, and
      the alert is an immediate investigation exactly at a critical level. */
  lemma CashierAssessmentAgrees(ml: Runtime, artifacts: map<string, Obj>, f: CashierFeatures)
    requires CashierWith(ml, artifacts, f).Ok? && CashierWith(ml, artifacts, f).value.CashierAssessed?
    ensures var a := CashierWith(ml, artifacts, f).value.assessment;
      && (a.requiresAction <==> a.riskScore >= 0.5)
      && (a.alertType == "immediate_investigation" <==> a.riskScore >= 0.8)
  {
    var a := CashierWith(ml, artifacts, f).value.assessment;
    PredictionLabels.CashierLabelsAgree(a.riskScore, a.riskScore);
  }
}
