/** The campaign ROI guide: derived campaign features, the trained
    regressor and classifier behind them, the business metrics computed from
    their outputs, batch prediction and the search for the discount that best
    meets a redemption target. */
module CampaignGuide {
  import opened Wrappers
  import opened Environment
  import opened Numbers

  /** The four artifacts loaded by load_campaign_models. */
  datatype CampaignModels = CampaignModels(regressor: Obj, classifier: Obj, scaler: Obj, features: Obj)

  /** The dictionary predict_campaign returns (values unrounded). */
  datatype CampaignResult = CampaignResult(
    predictedRedemptions: real,
    successProbability: real,
    successProbabilityPct: real,
    expectedRevenue: real,
    discountCost: real,
    netRevenue: real,
    roiPercentage: real,
    recommendation: string)

  /** The dictionary find_optimal_discount returns. */
  datatype OptimalDiscount = OptimalDiscount(
    optimalDiscount: int,
    predictedRedemptions: real,
    successProbability: real,
    roiPercentage: real)

  /** load_campaign_models: the four pickles under `models/`, the first that
      fails to load aborting the call. */
  function LoadCampaignModels(disk: Disk): (r: Try<CampaignModels>)
    ensures r.Ok? <==> (forall p :: p in ModelFiles() ==> disk.Load(p).Ok?)
    ensures r.Ok? ==> r.value == CampaignModels(
      disk.Load(ModelFiles()[0]).value, disk.Load(ModelFiles()[1]).value,
      disk.Load(ModelFiles()[2]).value, disk.Load(ModelFiles()[3]).value)
  {
    var files := ModelFiles();
    match disk.Load(files[0])
    case Raised(e) => Raised(e)
    case Ok(regressor) =>
      match disk.Load(files[1])
      case Raised(e) => Raised(e)
      case Ok(classifier) =>
        match disk.Load(files[2])
        case Raised(e) => Raised(e)
        case Ok(scaler) =>
          match disk.Load(files[3])
          case Raised(e) => Raised(e)
          case Ok(features) => Ok(CampaignModels(regressor, classifier, scaler, features))
  }

  function ModelFiles(): seq<string> {
    ["models/campaign_redemption_regressor.pkl", "models/campaign_success_classifier.pkl",
     "models/campaign_scaler.pkl", "models/campaign_features.pkl"]
  }

  /** The fourteen features of predict_campaign's input frame. */
  datatype CampaignFeatures = CampaignFeatures(
    durationDays: real, points: real, discount: real, minimumSpend: real, redemptions: real,
    isPercentageDiscount: real, isTotalBillDiscount: real, isFreebie: real,
    startHour: real, startDayOfWeek: real, startMonth: real, isWeekend: real,
    discountPerMinSpend: real, redemptionsPerDuration: real)
  {
    /** The frame's values, in training-column order. */
    function Values(): (r: seq<real>)
      ensures |r| == |CAMPAIGN_COLUMNS|
    {
      [durationDays, points, discount, minimumSpend, redemptions,
       isPercentageDiscount, isTotalBillDiscount, isFreebie, startHour, startDayOfWeek,
       startMonth, isWeekend, discountPerMinSpend, redemptionsPerDuration]
    }

    /** The frame's columns, named as the models were trained on them. */
    function AsRow(): Row {
      Zip(CAMPAIGN_COLUMNS, Values())
    }
  }

  /** The input frame's column names, in the order the frame builds them. */
  const CAMPAIGN_COLUMNS: seq<string> := [
    "duration_days", "points", "discount", "minimum_spend", "redemptions",
    "is_percentage_discount", "is_total_bill_discount", "is_freebie",
    "start_hour", "start_day_of_week", "start_month", "is_weekend",
    "discount_per_min_spend", "redemptions_per_duration"
  ]

  function Flag(b: bool): (r: real)
    ensures r == 1.0 <==> b
    ensures r == 0.0 <==> !b
  {
    if b then 1.0 else 0.0
  }

  /** predict_campaign's input features, with the derived ones. */
  function InputFeatures(durationDays: real, points: real, discount: real, minimumSpend: real,
                         maxRedemptions: real, campaignType: string,
                         startHour: real, startDay: real, startMonth: real): (r: CampaignFeatures)
    ensures r.isPercentageDiscount == 1.0
    ensures r.isTotalBillDiscount == 1.0 <==> campaignType == "total_bill"
    ensures r.isFreebie == 1.0 <==> campaignType == "freebie"
    ensures r.isWeekend == 1.0 <==> startDay >= 5.0
    ensures r.isTotalBillDiscount in {0.0, 1.0} && r.isFreebie in {0.0, 1.0} && r.isWeekend in {0.0, 1.0}
    ensures minimumSpend <= 0.0 ==> r.discountPerMinSpend == 0.0
    ensures minimumSpend > 0.0 ==> r.discountPerMinSpend * minimumSpend == discount
    ensures durationDays <= 0.0 ==> r.redemptionsPerDuration == 0.0
    ensures durationDays > 0.0 ==> r.redemptionsPerDuration * durationDays == maxRedemptions
    ensures r.redemptions == maxRedemptions && r.discount == discount && r.minimumSpend == minimumSpend
    ensures r.durationDays == durationDays && r.points == points && r.startDayOfWeek == startDay
    ensures r.startHour == startHour && r.startMonth == startMonth
  {
    CampaignFeatures(
      durationDays, points, discount, minimumSpend, maxRedemptions,
      1.0, Flag(campaignType == "total_bill"), Flag(campaignType == "freebie"),
      startHour, startDay, startMonth, Flag(startDay >= 5.0),
      if minimumSpend > 0.0 then discount / minimumSpend else 0.0,
      if durationDays > 0.0 then maxRedemptions / durationDays else 0.0)
  }

  /** Order value assumed per redemption: the minimum spend, or 100 without one. */
  function AverageOrderValue(minimumSpend: real): (r: real)
    ensures r > 0.0
    ensures minimumSpend > 0.0 ==> r == minimumSpend
    ensures minimumSpend <= 0.0 ==> r == 100.0
  {
    if minimumSpend > 0.0 then minimumSpend else 100.0
  }

  /** Cost of the discount: a percentage of the order value below 100, a fixed
      amount per redemption from 100 on. */
  function DiscountCost(redemptions: real, orderValue: real, discount: real): real {
    if discount < 100.0 then redemptions * (orderValue * discount / 100.0) else redemptions * discount
  }

  /** Return on the discount, in percent; 0 when the discount costs nothing. */
  function Roi(net: real, cost: real): (r: real)
    ensures cost <= 0.0 ==> r == 0.0
    ensures cost > 0.0 ==> r * cost == net * 100.0
    ensures cost > 0.0 ==> (r >= 0.0 <==> net >= 0.0)
  {
    if cost > 0.0 then net / cost * 100.0 else 0.0
  }

  /** The business metrics built on the two model outputs. */
  function Metrics(redemptions: real, probability: real, discount: real, minimumSpend: real): (r: CampaignResult)
    requires redemptions >= 0.0
    ensures r.predictedRedemptions == redemptions && r.successProbability == probability
    ensures r.successProbabilityPct == probability * 100.0
    ensures r.expectedRevenue == redemptions * AverageOrderValue(minimumSpend) && r.expectedRevenue >= 0.0
    ensures r.discountCost == DiscountCost(redemptions, AverageOrderValue(minimumSpend), discount)
    ensures r.netRevenue == r.expectedRevenue - r.discountCost
    ensures r.roiPercentage == Roi(r.netRevenue, r.discountCost)
    ensures r.recommendation == "LAUNCH" <==> probability > 0.5 && redemptions > 5.0
    ensures r.recommendation == "LAUNCH" || r.recommendation == "OPTIMIZE"
  {
    var orderValue := AverageOrderValue(minimumSpend);
    var revenue := redemptions * orderValue;
    var cost := DiscountCost(redemptions, orderValue, discount);
    var net := revenue - cost;
    CampaignResult(
      redemptions, probability, probability * 100.0, revenue, cost, net,
      Roi(net, cost),
      if probability > 0.5 && redemptions > 5.0 then "LAUNCH" else "OPTIMIZE")
  }

  /** A percentage discount below 100 never costs more than the revenue:
      net revenue and ROI are then not negative. */
  lemma PercentageDiscountKeepsNetRevenue(redemptions: real, probability: real, discount: real, minimumSpend: real)
    requires redemptions >= 0.0 && 0.0 <= discount < 100.0
    ensures Metrics(redemptions, probability, discount, minimumSpend).netRevenue >= 0.0
    ensures Metrics(redemptions, probability, discount, minimumSpend).roiPercentage >= 0.0
  {
    var orderValue := AverageOrderValue(minimumSpend);
    CostBelowRevenue(redemptions, orderValue, discount);
  }

  /** A percentage discount below 100 costs between nothing and the whole
      revenue of the redemptions. */
  lemma CostBelowRevenue(redemptions: real, orderValue: real, discount: real)
    requires redemptions >= 0.0 && orderValue > 0.0 && 0.0 <= discount < 100.0
    ensures 0.0 <= DiscountCost(redemptions, orderValue, discount) <= redemptions * orderValue
  {
    var share: real := orderValue * discount / 100.0;
    assert 0.0 <= share <= orderValue by {
      assert orderValue * discount <= orderValue * 100.0;
    }
    assert redemptions * share <= redemptions * orderValue;
  }

  /** A fixed discount above the order value makes the net revenue negative
      once anything is redeemed. */
  lemma FixedDiscountAboveOrderValueLoses(redemptions: real, probability: real, discount: real, minimumSpend: real)
    requires redemptions > 0.0 && discount >= 100.0 && discount > AverageOrderValue(minimumSpend)
    ensures Metrics(redemptions, probability, discount, minimumSpend).netRevenue < 0.0
  {
    var r := Metrics(redemptions, probability, discount, minimumSpend);
    assert r.netRevenue == redemptions * (AverageOrderValue(minimumSpend) - discount);
  }

  /** predict_campaign: load the models, then predict with them. */
  function PredictCampaign(ml: Runtime, disk: Disk, durationDays: real, points: real, discount: real,
                           minimumSpend: real, maxRedemptions: real, campaignType: string,
                           startHour: real, startDay: real, startMonth: real): (r: Try<CampaignResult>)
    ensures LoadCampaignModels(disk).Raised? ==> r == Raised(LoadCampaignModels(disk).exc)
    ensures LoadCampaignModels(disk).Ok? ==> r == PredictWith(ml, LoadCampaignModels(disk).value, durationDays,
      points, discount, minimumSpend, maxRedemptions, campaignType, startHour, startDay, startMonth)
  {
    match LoadCampaignModels(disk)
    case Raised(e) => Raised(e)
    case Ok(m) => PredictWith(ml, m, durationDays, points, discount, minimumSpend, maxRedemptions, campaignType,
                              startHour, startDay, startMonth)
  }

  /** The body of predict_campaign once its models are loaded: select and
      scale the features they were trained on, clamp the predicted
      redemptions at 0 and derive the metrics from the two predictions. A
      feature list naming a column the frame lacks raises KeyError. */
  function PredictWith(ml: Runtime, m: CampaignModels, durationDays: real, points: real, discount: real,
                       minimumSpend: real, maxRedemptions: real, campaignType: string,
                       startHour: real, startDay: real, startMonth: real): (r: Try<CampaignResult>)
    ensures r.Raised? ==> r.exc == KeyError
    ensures r.Ok? <==> m.features.Names? && SelectColumns(InputFeatures(durationDays, points, discount, minimumSpend,
      maxRedemptions, campaignType, startHour, startDay, startMonth).AsRow(), m.features.names).Ok?
    ensures r.Ok? ==>
      var x := ml.transform(m.scaler, SelectColumns(InputFeatures(durationDays, points, discount, minimumSpend,
        maxRedemptions, campaignType, startHour, startDay, startMonth).AsRow(), m.features.names).value);
      && r.value.predictedRedemptions >= 0.0
      && r.value.predictedRedemptions >= ml.predict(m.regressor, x)
      && (r.value.predictedRedemptions == 0.0 || r.value.predictedRedemptions == ml.predict(m.regressor, x))
      && r.value.successProbability == ml.predictProba(m.classifier, x)
    ensures r.Ok? ==> r.value == Metrics(r.value.predictedRedemptions, r.value.successProbability, discount, minimumSpend)
  {
    if !m.features.Names? then Raised(KeyError)
    else
      var features := InputFeatures(durationDays, points, discount, minimumSpend, maxRedemptions, campaignType,
                                    startHour, startDay, startMonth);
      match SelectColumns(features.AsRow(), m.features.names)
      case Raised(e) => Raised(e)
      case Ok(columns) =>
        var x := ml.transform(m.scaler, columns);
        var redemptions := Max0(ml.predict(m.regressor, x));
        var probability := ml.predictProba(m.classifier, x);
        Ok(Metrics(redemptions, probability, discount, minimumSpend))
  }

  /** One row of predict_multiple_campaigns: duration, discount and minimum
      spend are required columns (a KeyError without one), points default to
      150 and the redemption cap to 100; the other parameters take
      predict_campaign's defaults. */
  function PredictRow(ml: Runtime, disk: Disk, row: Row): (r: Try<CampaignResult>)
    ensures (Lookup(row, "duration_days").None? || Lookup(row, "discount").None? ||
             Lookup(row, "minimum_spend").None?) ==> r == Raised(KeyError)
    ensures (Lookup(row, "duration_days").Some? && Lookup(row, "discount").Some? &&
             Lookup(row, "minimum_spend").Some?) ==>
      r == PredictCampaign(ml, disk, Lookup(row, "duration_days").value, LookupOr(row, "points", 150.0),
                           Lookup(row, "discount").value, Lookup(row, "minimum_spend").value,
                           LookupOr(row, "max_redemptions", 100.0), "total_bill", 12.0, 0.0, 1.0)
    ensures r.Ok? ==> r.value.predictedRedemptions >= 0.0
  {
    match (Lookup(row, "duration_days"), Lookup(row, "discount"), Lookup(row, "minimum_spend"))
    case (Some(duration), Some(discount), Some(minimumSpend)) =>
      PredictCampaign(ml, disk, duration, LookupOr(row, "points", 150.0), discount, minimumSpend,
                      LookupOr(row, "max_redemptions", 100.0), "total_bill", 12.0, 0.0, 1.0)
    case _ => Raised(KeyError)
  }

  /** predict_multiple_campaigns: one prediction per row, in row order; the
      first row that raises aborts the batch with its exception. (The
      predictions are returned on their own; pasting them beside the input
      columns is frame plumbing.) */
  method PredictMultipleCampaigns(ml: Runtime, disk: Disk, rows: seq<Row>)
    returns (r: Try<seq<CampaignResult>>)
    ensures r.Ok? <==> forall i :: 0 <= i < |rows| ==> PredictRow(ml, disk, rows[i]).Ok?
    ensures r.Ok? ==> |r.value| == |rows| && forall i :: 0 <= i < |rows| ==> Ok(r.value[i]) == PredictRow(ml, disk, rows[i])
    ensures r.Raised? ==>
      exists i :: 0 <= i < |rows| && PredictRow(ml, disk, rows[i]) == Raised(r.exc) &&
        forall j :: 0 <= j < i ==> PredictRow(ml, disk, rows[j]).Ok?
  {
    r := PredictEach(row => PredictRow(ml, disk, row), rows);
  }

  /** The loop of predict_multiple_campaigns: `predict` on each row in turn,
      the first exception ending the loop. */
  method PredictEach(predict: Row -> Try<CampaignResult>, rows: seq<Row>) returns (r: Try<seq<CampaignResult>>)
    ensures r.Ok? <==> forall i :: 0 <= i < |rows| ==> predict(rows[i]).Ok?
    ensures r.Ok? ==> |r.value| == |rows| && forall i :: 0 <= i < |rows| ==> Ok(r.value[i]) == predict(rows[i])
    ensures r.Raised? ==>
      exists i :: 0 <= i < |rows| && predict(rows[i]) == Raised(r.exc) &&
        forall j :: 0 <= j < i ==> predict(rows[j]).Ok?
  {
    var results: seq<CampaignResult> := [];
    for i := 0 to |rows|
      invariant |results| == i
      invariant forall j :: 0 <= j < i ==> Ok(results[j]) == predict(rows[j])
    {
      var prediction := predict(rows[i]);
      if prediction.Raised? {
        return Raised(prediction.exc);
      }
      results := results + [prediction.value];
    }
    return Ok(results);
  }

  /** The discount tried at step k of the search: 5, 10, …, 50. */
  function Candidate(k: int): int {
    5 * (k + 1)
  }

  const CANDIDATES := 10

  /** The prediction find_optimal_discount makes at step k. */
  function Trial(ml: Runtime, disk: Disk, durationDays: real, points: real, minimumSpend: real,
                 maxRedemptions: real, k: int): Try<CampaignResult>
  {
    PredictCampaign(ml, disk, durationDays, points, Candidate(k) as real, minimumSpend, maxRedemptions,
                    "total_bill", 12.0, 0.0, 1.0)
  }

  /** The trials of one search, by step. */
  function Trials(ml: Runtime, disk: Disk, durationDays: real, points: real, minimumSpend: real,
                  maxRedemptions: real): int -> Try<CampaignResult>
  {
    k => Trial(ml, disk, durationDays, points, minimumSpend, maxRedemptions, k)
  }

  /** The distance to the target that the search minimises. */
  function Miss(result: CampaignResult, target: real): real {
    Abs(result.predictedRedemptions - target)
  }

  /** find_optimal_discount: the first discount among 5, 10, …, 50 whose
      predicted redemptions come closest to the target, with that
      prediction's figures; an exception of any trial aborts the search. */
  method FindOptimalDiscount(ml: Runtime, disk: Disk, durationDays: real, points: real, minimumSpend: real,
                             targetRedemptions: real, maxRedemptions: real)
    returns (r: Try<OptimalDiscount>)
    ensures r.Ok? <==> forall k :: 0 <= k < CANDIDATES ==>
      Trial(ml, disk, durationDays, points, minimumSpend, maxRedemptions, k).Ok?
    ensures r.Raised? ==>
      exists k :: 0 <= k < CANDIDATES &&
        Trial(ml, disk, durationDays, points, minimumSpend, maxRedemptions, k) == Raised(r.exc) &&
        forall j :: 0 <= j < k ==> Trial(ml, disk, durationDays, points, minimumSpend, maxRedemptions, j).Ok?
    ensures r.Ok? ==>
      exists k :: IsFirstClosest(Trials(ml, disk, durationDays, points, minimumSpend, maxRedemptions),
                                 targetRedemptions, k) &&
        var best := Trial(ml, disk, durationDays, points, minimumSpend, maxRedemptions, k).value;
        r.value == OptimalDiscount(Candidate(k), best.predictedRedemptions, best.successProbability, best.roiPercentage)
  {
    var trial := Trials(ml, disk, durationDays, points, minimumSpend, maxRedemptions);
    assert forall k :: Trial(ml, disk, durationDays, points, minimumSpend, maxRedemptions, k) == trial(k);
    var found := SearchDiscounts(trial, targetRedemptions);
    if found.Raised? {
      return Raised(found.exc);
    }
    var (k, best) := found.value;
    assert IsFirstClosest(trial, targetRedemptions, k) && trial(k) == Ok(best);
    return Ok(OptimalDiscount(Candidate(k), best.predictedRedemptions, best.successProbability, best.roiPercentage));
  }

  /** Trial k succeeded and comes closest to the target among all trials,
      strictly closer than every earlier one. */
  ghost predicate IsFirstClosest(trial: int -> Try<CampaignResult>, target: real, k: int) {
    0 <= k < CANDIDATES &&
    (forall j :: 0 <= j < CANDIDATES ==> trial(j).Ok?) &&
    (forall j :: 0 <= j < CANDIDATES ==> Miss(trial(k).value, target) <= Miss(trial(j).value, target)) &&
    (forall j :: 0 <= j < k ==> Miss(trial(k).value, target) < Miss(trial(j).value, target))
  }

  /** The loop of find_optimal_discount over the trials 0..9: the first trial
      that raises ends it; otherwise a trial replaces the best so far only
      when strictly closer to the target (the first has nothing to beat). */
  method SearchDiscounts(trial: int -> Try<CampaignResult>, target: real) returns (r: Try<(int, CampaignResult)>)
    ensures r.Ok? <==> forall k :: 0 <= k < CANDIDATES ==> trial(k).Ok?
    ensures r.Raised? ==> (exists k :: 0 <= k < CANDIDATES && trial(k) == Raised(r.exc) &&
                                       forall j :: 0 <= j < k ==> trial(j).Ok?)
    ensures r.Ok? ==> IsFirstClosest(trial, target, r.value.0) && trial(r.value.0) == Ok(r.value.1)
  {
    var bestIndex := -1;
    var bestDiff := 0.0;
    var bestResult: CampaignResult := CampaignResult(0.0, 0.0, 0.0, 0.0, 0.0, 0.0, 0.0, "");
    for i := 0 to CANDIDATES
      invariant forall j :: 0 <= j < i ==> trial(j).Ok?
      invariant i == 0 <==> bestIndex == -1
      invariant i > 0 ==> (0 <= bestIndex < i && trial(bestIndex) == Ok(bestResult) &&
        bestDiff == Miss(bestResult, target) &&
        (forall j :: 0 <= j < i ==> bestDiff <= Miss(trial(j).value, target)) &&
        (forall j :: 0 <= j < bestIndex ==> bestDiff < Miss(trial(j).value, target)))
    {
      var result := trial(i);
      if result.Raised? {
        return Raised(result.exc);
      }
      var diff := Abs(result.value.predictedRedemptions - target);
      if bestIndex == -1 || diff < bestDiff {
        bestDiff := diff;
        bestIndex := i;
        bestResult := result.value;
      }
    }
    return Ok((bestIndex, bestResult));
  }
}
