/** The unified ML prediction service: the configuration of the four model
    types, the lazily filled artifact caches, the day-by-day demand forecast
    over the category forecaster with its fallback and reorder advice, the
    campaign, churn and cashier predictions with their labels, the campaign
    optimizer and the health report. */
module PredictionService {
  import opened Wrappers
  import opened Environment
  import opened Numbers
  import opened Lists
  import CategoryMapping
  import CategoryForecaster
  import CampaignGuide
  import CampaignOptimizer
  import PredictionLabels
  import opened ModelPredictions

  // ----------------------------------------------------------- configuration

  /** A model type's configuration dictionary: its (key, value) items in
      insertion order. */
  type Config = seq<(string, string)>

  /** The four kinds of model the service serves, named as its dictionaries
      key them. */
  datatype ModelType = DemandForecast | CampaignRoi | CustomerChurn | CashierRisk {
    function Name(): string {
      match this
      case DemandForecast => "demand_forecast"
      case CampaignRoi => "campaign_roi"
      case CustomerChurn => "customer_churn"
      case CashierRisk => "cashier_risk"
    }
  }

  /** The model type a name denotes, if any. */
  function ModelTypeNamed(name: string): (r: Option<ModelType>)
    ensures r.Some? ==> r.value.Name() == name
    ensures r.None? ==> forall t: ModelType :: t.Name() != name
  {
    if name == "demand_forecast" then Some(DemandForecast)
    else if name == "campaign_roi" then Some(CampaignRoi)
    else if name == "customer_churn" then Some(CustomerChurn)
    else if name == "cashier_risk" then Some(CashierRisk)
    else None
  }

  /** The configurations the service is built with. */
  const MODEL_CONFIGS: map<ModelType, Config> := map[
    CampaignRoi := [
      ("base_path", "Campaign_ROI_Predictor/models"),
      ("regressor", "campaign_redemption_regressor.pkl"),
      ("classifier", "campaign_success_classifier.pkl"),
      ("scaler", "campaign_scaler.pkl"),
      ("features", "campaign_features.pkl")],
    DemandForecast := [
      ("base_path", "stock_forecaster/models"),
      ("model_type", "xgb"),
      ("models_subdir", "xgb_models"),
      ("scalers_subdir", "scalers")],
    CustomerChurn := [
      ("base_path", "customer_churn"),
      ("bundle", "model_bundle.joblib")],
    CashierRisk := [
      ("base_path", "Operational_risk_predictors/models"),
      ("model", "random_forest_model(preferred).pkl"),
      ("scaler", "feature_scaler.pkl"),
      ("features", "feature_columns.pkl")]
  ]

  /** The model types, in the order the availability report lists them. */
  const MODEL_TYPES: seq<ModelType> := [DemandForecast, CampaignRoi, CustomerChurn, CashierRisk]

  // --------------------------------------------------------------- artifacts

  /** What one artifact file contributes: the loaded object, or None when the
      file does not exist or does not load. (The existence test is subsumed
      by the load: only an existing regular file loads.) */
  function LoadOrNone(disk: Disk, path: string): (o: Obj)
    ensures o == if disk.Load(path).Ok? then disk.Load(path).value else PyNone
  {
    if disk.Exists(path) then
      match disk.Load(path)
      case Ok(obj) => obj
      case Raised(_) => PyNone
    else PyNone
  }

  /** The artifacts read one file per configuration item (the base path
      excepted) from directory `dir`, a later item overwriting an earlier one
      with the same key. */
  function FileArtifacts(disk: Disk, dir: string, items: Config): map<string, Obj> {
    if items == [] then map[]
    else
      var n := |items| - 1;
      var previous := FileArtifacts(disk, dir, items[..n]);
      if items[n].0 == "base_path" then previous
      else previous[items[n].0 := LoadOrNone(disk, PathJoin(dir, items[n].1))]
  }

  /** The loop of _load_model_artifacts over the configuration items: each
      file other than the base path is loaded from `dir` under its key, None
      when it is missing or does not load. */
  method LoadFiles(disk: Disk, dir: string, config: Config) returns (artifacts: map<string, Obj>)
    ensures artifacts == FileArtifacts(disk, dir, config)
  {
    artifacts := map[];
    for i := 0 to |config|
      invariant artifacts == FileArtifacts(disk, dir, config[..i])
    {
      assert config[..i + 1][..i] == config[..i];
      var (key, filename) := config[i];
      if key == "base_path" {
        continue;
      }
      var filepath := PathJoin(dir, filename);
      if disk.Exists(filepath) {
        var loaded := disk.Load(filepath);
        artifacts := artifacts[key := if loaded.Ok? then loaded.value else PyNone];
      } else {
        artifacts := artifacts[key := PyNone];
      }
    }
    assert config[..|config|] == config;
  }

  /** The artifacts hold exactly the configured keys other than the base path. */
  lemma {:induction false} FileArtifactsKeys(disk: Disk, dir: string, items: Config)
    ensures forall k :: k in FileArtifacts(disk, dir, items) <==>
      (k != "base_path" && exists i :: 0 <= i < |items| && items[i].0 == k)
  {
    if items != [] {
      var n := |items| - 1;
      FileArtifactsKeys(disk, dir, items[..n]);
      forall k | k != "base_path" && (exists i :: 0 <= i < |items| && items[i].0 == k) && k != items[n].0
        ensures k in FileArtifacts(disk, dir, items[..n])
      {
        var i :| 0 <= i < |items| && items[i].0 == k;
        assert items[..n][i].0 == k;
      }
    }
  }

  /** A key holds what the last file configured under it yields. */
  lemma {:induction false} FileArtifactsLastWins(disk: Disk, dir: string, items: Config, i: nat)
    requires i < |items| && items[i].0 != "base_path"
    requires forall j :: i < j < |items| ==> items[j].0 != items[i].0
    ensures items[i].0 in FileArtifacts(disk, dir, items)
    ensures FileArtifacts(disk, dir, items)[items[i].0] == LoadOrNone(disk, PathJoin(dir, items[i].1))
  {
    var n := |items| - 1;
    if i < n {
      assert items[..n][i] == items[i];
      assert forall j :: i < j < n ==> items[..n][j] == items[j];
      FileArtifactsLastWins(disk, dir, items[..n], i);
    }
  }

  /** A bundle file's artifacts: a loaded dictionary is used as it is, any
      other loaded object becomes the 'model' entry, and a bundle that is
      missing or fails to load yields none. */
  function BundleArtifacts(disk: Disk, path: string): map<string, Obj> {
    if disk.Exists(path) then
      match disk.Load(path)
      case Ok(bundle) => if bundle.Dict? then bundle.entries else map["model" := bundle]
      case Raised(_) => map[]
    else map[]
  }

  /** Whether a model type's loaded artifacts make it usable: a campaign
      model needs a regressor, a churn model any artifact at all, any other
      a 'model'. */
  function ArtifactsReady(modelType: ModelType, artifacts: map<string, Obj>): bool {
    if artifacts == map[] then false
    else if modelType == CampaignRoi then "regressor" in artifacts && artifacts["regressor"] != PyNone
    else if modelType == CustomerChurn then ("model" in artifacts && artifacts["model"] != PyNone) || |artifacts| > 0
    else "model" in artifacts && artifacts["model"] != PyNone
  }

  /** A churn model is ready exactly when something was loaded for it; a
      ready campaign model has a regressor and any other ready model a model. */
  lemma ReadyMeansLoaded(modelType: ModelType, artifacts: map<string, Obj>)
    ensures modelType == CustomerChurn ==> (ArtifactsReady(modelType, artifacts) <==> artifacts != map[])
    ensures modelType == CampaignRoi ==>
      (ArtifactsReady(modelType, artifacts) <==> "regressor" in artifacts && artifacts["regressor"] != PyNone)
    ensures modelType != CampaignRoi && modelType != CustomerChurn ==>
      (ArtifactsReady(modelType, artifacts) <==> "model" in artifacts && artifacts["model"] != PyNone)
  {
    if artifacts != map[] {
      var k :| k in artifacts;
      assert |artifacts| > 0;
    }
  }

  /** The availability test of the demand models: their directory exists
      and lists something (listing a regular file raises). */
  function DirectoryReady(disk: Disk, dir: Option<string>): (r: Try<bool>)
    ensures r.Raised? <==> dir.Some? && dir.value in disk.files && dir.value !in disk.dirs
    ensures r == Ok(true) <==> dir.Some? && dir.value in disk.dirs && |disk.dirs[dir.value]| > 0
  {
    match dir
    case None => Ok(false)
    case Some(d) =>
      if !disk.Exists(d) then Ok(false)
      else if d in disk.dirs then Ok(|disk.dirs[d]| > 0)
      else Raised(OSError)
  }

  /** The number of models reported ready. */
  function CountReady(flags: seq<(ModelType, bool)>): (n: nat)
    ensures n <= |flags|
  {
    if flags == [] then 0
    else CountReady(flags[..|flags| - 1]) + (if flags[|flags| - 1].1 then 1 else 0)
  }

  /** Every model is ready exactly when the count reaches the number of models. */
  lemma {:induction false} AllReadyIffCountFull(flags: seq<(ModelType, bool)>)
    ensures CountReady(flags) == |flags| <==> forall i :: 0 <= i < |flags| ==> flags[i].1
  {
    if flags != [] {
      var n := |flags| - 1;
      AllReadyIffCountFull(flags[..n]);
      assert forall i :: 0 <= i < n ==> flags[..n][i] == flags[i];
    }
  }

  /** A loaded item (or category) forecasting model with its scaler, None
      when there is no scaler file. */
  datatype ItemModel = ItemModel(model: Obj, scaler: Obj)

  /** The health report: readiness per model type, the number of model types
      and the number ready, and the models directory. */
  datatype Health = Health(modelsAvailable: seq<(ModelType, bool)>, totalModels: nat, readyModels: nat,
                           modelsDirectory: string)

  // --------------------------------------------------------- demand forecast

  /** One forecast day: the date, the predicted quantity and whether the day
      falls on a weekend. */
  datatype DayForecast = DayForecast(day: Day, quantity: real, isWeekend: bool)

  /** A successful demand forecast: the category model used, the daily
      predictions, their total and daily average, the first day with the
      largest quantity, and the category's recorded mean absolute error. */
  datatype DemandSummary = DemandSummary(
    categoryUsed: string,
    predictions: seq<DayForecast>,
    totalPredictedDemand: real,
    avgDailyDemand: real,
    peakDay: Option<DayForecast>,
    meanAbsoluteError: Option<real>)

  /** What predict_demand reports: a forecast, or one of its error statuses. */
  datatype DemandOutcome =
    | Forecast(forecast: DemandSummary)
    | NotInitialized                        // no stock forecaster could be built
    | NameRequired                          // no item name to map to a category
    | NoCategoryModel(categoryAttempted: string)   // the forecaster raised ValueError
    | PredictionFailed(exc: Exception)      // any other exception

  /** The quantity assumed sold on the day before the first forecast day. */
  const BASELINE_QTY := 50.0

  /** The category whose model forecasts an item: its mapped category, or
      the fallback category when no keyword matches. */
  function ForecastCategory(itemName: string): string {
    match CategoryMapping.MapItemToCategory(itemName)
    case Some(category) => category
    case None => CategoryMapping.FALLBACK_CATEGORY
  }

  /** The quantity predicted for the day k + 1 days ahead, given the
      previous day's quantity: the forecaster's estimate for that day's
      weekday, weekend flag, holiday flag and month, raised by 20% during a
      campaign. */
  function DayQuantity(ml: Runtime, model: Obj, scaler: Option<Obj>, clock: Clock, k: nat, lastQty: real,
                       isHoliday: bool, campaignActive: bool): (q: real)
    ensures q >= 0.0
  {
    var day := clock.calendar(k + 1);
    var estimate := CategoryForecaster.Estimate(ml, model, scaler, day.month, lastQty, Some(day.weekday),
      Some(if day.weekday >= 5 then 1 else 0), Some(if isHoliday then 1 else 0), clock.Today().weekday);
    if campaignActive then estimate * 1.2 else estimate
  }

  /** The first n forecast days: each day's prediction starts from the
      previous day's quantity, the first from the baseline. */
  function Chain(ml: Runtime, model: Obj, scaler: Option<Obj>, clock: Clock, n: nat,
                 isHoliday: bool, campaignActive: bool): (r: seq<DayForecast>)
    ensures |r| == n
  {
    if n == 0 then []
    else
      var previous := Chain(ml, model, scaler, clock, n - 1, isHoliday, campaignActive);
      var lastQty := if n == 1 then BASELINE_QTY else previous[n - 2].quantity;
      var day := clock.calendar(n);
      previous + [DayForecast(day, Max0(DayQuantity(ml, model, scaler, clock, n - 1, lastQty, isHoliday, campaignActive)),
                              day.weekday >= 5)]
  }

  /** Day k of a forecast is dated k + 1 days ahead and flagged a weekend
      when it falls on one, and its (non-negative) quantity is predicted from
      the quantity of the day before, the first day's from the baseline. */
  lemma ChainAt(ml: Runtime, model: Obj, scaler: Option<Obj>, clock: Clock, k: nat, n: nat,
                isHoliday: bool, campaignActive: bool)
    requires k < n
    ensures var r := Chain(ml, model, scaler, clock, n, isHoliday, campaignActive);
      r[k] == DayForecast(clock.calendar(k + 1),
        DayQuantity(ml, model, scaler, clock, k, if k == 0 then BASELINE_QTY else r[k - 1].quantity,
                    isHoliday, campaignActive),
        clock.calendar(k + 1).weekday >= 5)
  {
    ChainPrefix(ml, model, scaler, clock, k + 1, n, isHoliday, campaignActive);
    if k > 0 {
      ChainPrefix(ml, model, scaler, clock, k, n, isHoliday, campaignActive);
    }
  }

  /** A shorter forecast is a prefix of a longer one. */
  lemma {:induction false} ChainPrefix(ml: Runtime, model: Obj, scaler: Option<Obj>, clock: Clock, m: nat, n: nat,
                                       isHoliday: bool, campaignActive: bool)
    requires m <= n
    ensures Chain(ml, model, scaler, clock, m, isHoliday, campaignActive)
         == Chain(ml, model, scaler, clock, n, isHoliday, campaignActive)[..m]
  {
    if m < n {
      ChainPrefix(ml, model, scaler, clock, m, n - 1, isHoliday, campaignActive);
      assert Chain(ml, model, scaler, clock, n, isHoliday, campaignActive)[..n - 1]
          == Chain(ml, model, scaler, clock, n - 1, isHoliday, campaignActive);
    }
  }

  /** The daily quantities of a forecast. */
  function Quantities(predictions: seq<DayForecast>): (q: seq<real>)
    ensures |q| == |predictions| && forall k :: 0 <= k < |q| ==> q[k] == predictions[k].quantity
  {
    seq(|predictions|, k requires 0 <= k < |predictions| => predictions[k].quantity)
  }

  /** The forecasting loop of predict_demand over the forecaster: `n` days
      (none when n is not positive), each prediction's quantity becoming the
      next day's last quantity; the first exception ends the loop. The pair
      the forecaster caches for the category is the one every day used. */
  method ForecastDays(sf: CategoryForecaster.StockForecaster, ml: Runtime, disk: Disk, clock: Clock,
                      category: string, n: int, isHoliday: bool, campaignActive: bool)
    returns (r: Try<seq<DayForecast>>)
    requires sf.Valid()
    modifies sf
    ensures sf.Valid()
    ensures forall c :: c in old(sf.modelCache) ==> c in sf.modelCache && sf.modelCache[c] == old(sf.modelCache[c])
    ensures forall c :: c in old(sf.scalerCache) ==> c in sf.scalerCache && sf.scalerCache[c] == old(sf.scalerCache[c])
    ensures n <= 0 ==> r == Ok([])
    ensures n > 0 && r.Ok? ==>
      category in sf.modelCache && category in sf.scalerCache &&
      r.value == Chain(ml, sf.modelCache[category], sf.scalerCache[category], clock, n, isHoliday, campaignActive)
    ensures n > 0 && category !in old(sf.modelCache) && !disk.Exists(sf.ModelPath(category)) ==>
      r == Raised(ValueError)
    ensures (n > 0 && category !in old(sf.modelCache) && disk.Exists(sf.ModelPath(category)) &&
             disk.Load(sf.ModelPath(category)).Raised?) ==> r == Raised(disk.Load(sf.ModelPath(category)).exc)
    ensures category in old(sf.modelCache) && category in old(sf.scalerCache) ==> r.Ok?
    ensures n > 0 ==> (r.Ok? <==> old(sf.Loadable(disk, category)))
    ensures forall c :: sf.Loadable(disk, c) == old(sf.Loadable(disk, c))
  {
    var predictions: seq<DayForecast> := [];
    var lastQty := BASELINE_QTY;
    var days := if n > 0 then n else 0;
    for k := 0 to days
      invariant sf.Valid()
      invariant forall c :: c in old(sf.modelCache) ==> c in sf.modelCache && sf.modelCache[c] == old(sf.modelCache[c])
      invariant forall c :: c in old(sf.scalerCache) ==> c in sf.scalerCache && sf.scalerCache[c] == old(sf.scalerCache[c])
      invariant k == 0 ==> predictions == [] && lastQty == BASELINE_QTY && sf.modelCache == old(sf.modelCache)
      invariant category !in old(sf.modelCache) && !disk.Load(sf.ModelPath(category)).Ok? ==> k == 0
      invariant forall c :: sf.Loadable(disk, c) == old(sf.Loadable(disk, c))
      invariant k > 0 ==> old(sf.Loadable(disk, category))
      invariant k > 0 ==>
        && category in sf.modelCache && category in sf.scalerCache
        && predictions == Chain(ml, sf.modelCache[category], sf.scalerCache[category], clock, k, isHoliday, campaignActive)
        && lastQty == predictions[k - 1].quantity
    {
      var day := ForecastDay(sf, ml, disk, clock, category, k, lastQty, isHoliday, campaignActive);
      if day.Raised? {
        return Raised(day.exc);
      }
      ChainStep(ml, sf.modelCache[category], sf.scalerCache[category], clock, k, isHoliday, campaignActive);
      predictions := predictions + [day.value];
      lastQty := day.value.quantity;
    }
    return Ok(predictions);
  }

  /** Appending the next day to a forecast. */
  lemma ChainStep(ml: Runtime, model: Obj, scaler: Option<Obj>, clock: Clock, k: nat,
                  isHoliday: bool, campaignActive: bool)
    ensures var r := Chain(ml, model, scaler, clock, k, isHoliday, campaignActive);
      Chain(ml, model, scaler, clock, k + 1, isHoliday, campaignActive)
        == r + [DayForecast(clock.calendar(k + 1),
                  DayQuantity(ml, model, scaler, clock, k, if k == 0 then BASELINE_QTY else r[k - 1].quantity,
                              isHoliday, campaignActive),
                  clock.calendar(k + 1).weekday >= 5)]
  {
  }

  /** One day of the forecasting loop: the forecaster's prediction for day
      k + 1 from the last quantity, raised by 20% during a campaign. */
  method ForecastDay(sf: CategoryForecaster.StockForecaster, ml: Runtime, disk: Disk, clock: Clock,
                     category: string, k: nat, lastQty: real, isHoliday: bool, campaignActive: bool)
    returns (r: Try<DayForecast>)
    requires sf.Valid()
    modifies sf
    ensures sf.Valid()
    ensures forall c :: c in old(sf.modelCache) ==> c in sf.modelCache && sf.modelCache[c] == old(sf.modelCache[c])
    ensures forall c :: c in old(sf.scalerCache) ==> c in sf.scalerCache && sf.scalerCache[c] == old(sf.scalerCache[c])
    ensures category in old(sf.modelCache) && category in old(sf.scalerCache) ==> r.Ok?
    ensures r.Ok? ==>
      && category in sf.modelCache && category in sf.scalerCache
      && r.value == DayForecast(clock.calendar(k + 1),
           DayQuantity(ml, sf.modelCache[category], sf.scalerCache[category], clock, k, lastQty, isHoliday, campaignActive),
           clock.calendar(k + 1).weekday >= 5)
    ensures category !in old(sf.modelCache) && !disk.Exists(sf.ModelPath(category)) ==> r == Raised(ValueError)
    ensures (category !in old(sf.modelCache) && disk.Exists(sf.ModelPath(category)) &&
             disk.Load(sf.ModelPath(category)).Raised?) ==> r == Raised(disk.Load(sf.ModelPath(category)).exc)
    ensures r.Ok? <==> old(sf.Loadable(disk, category))
    ensures forall c :: sf.Loadable(disk, c) == old(sf.Loadable(disk, c))
  {
    var day := clock.calendar(k + 1);
    var weekend := if day.weekday >= 5 then 1 else 0;
    var holiday := if isHoliday then 1 else 0;
    var estimate := sf.Predict(ml, disk, clock.Today().weekday, category, day.month, lastQty,
                               Some(day.weekday), Some(weekend), Some(holiday));
    if estimate.Raised? {
      return Raised(estimate.exc);
    }
    var daily := estimate.value;
    if campaignActive {
      daily := daily * 1.2;
    }
    return Ok(DayForecast(day, Max0(daily), day.weekday >= 5));
  }

  /** The fallback forecast's base daily quantity. */
  const FALLBACK_BASE := 15.0

  /** A fallback day's quantity: the base, times 1.5 on a weekend, 1.3 on a
      holiday and 1.4 during a campaign. */
  function FallbackQuantity(weekend: bool, holiday: bool, campaign: bool): real {
    FALLBACK_BASE * (if weekend then 1.5 else 1.0) * (if holiday then 1.3 else 1.0) * (if campaign then 1.4 else 1.0)
  }

  /** Fallback quantities lie between the base and the base with every
      boost applied, and each boost strictly raises them. */
  lemma FallbackBounds(weekend: bool, holiday: bool, campaign: bool)
    ensures FALLBACK_BASE <= FallbackQuantity(weekend, holiday, campaign) <= 40.95
    ensures !weekend ==> FallbackQuantity(weekend, holiday, campaign) < FallbackQuantity(true, holiday, campaign)
    ensures !holiday ==> FallbackQuantity(weekend, holiday, campaign) < FallbackQuantity(weekend, true, campaign)
    ensures !campaign ==> FallbackQuantity(weekend, holiday, campaign) < FallbackQuantity(weekend, holiday, true)
  {
  }

  /** _generate_fallback_forecast: one day per forecast day (none when the
      count is not positive), dated from tomorrow, each with the fallback
      quantity for that day. */
  method FallbackForecast(clock: Clock, forecastDays: int, isHoliday: bool, campaignActive: bool)
    returns (predictions: seq<DayForecast>)
    ensures |predictions| == if forecastDays > 0 then forecastDays else 0
    ensures forall k :: 0 <= k < |predictions| ==>
      && predictions[k].day == clock.calendar(k + 1)
      && predictions[k].isWeekend == (clock.calendar(k + 1).weekday >= 5)
      && predictions[k].quantity == FallbackQuantity(clock.calendar(k + 1).weekday >= 5, isHoliday, campaignActive)
  {
    predictions := [];
    var days := if forecastDays > 0 then forecastDays else 0;
    for k := 0 to days
      invariant |predictions| == k
      invariant forall j :: 0 <= j < k ==>
        && predictions[j].day == clock.calendar(j + 1)
        && predictions[j].isWeekend == (clock.calendar(j + 1).weekday >= 5)
        && predictions[j].quantity == FallbackQuantity(clock.calendar(j + 1).weekday >= 5, isHoliday, campaignActive)
    {
      var day := clock.calendar(k + 1);
      var multiplier := 1.0;
      if day.weekday >= 5 {
        multiplier := multiplier * 1.5;
      }
      if isHoliday {
        multiplier := multiplier * 1.3;
      }
      if campaignActive {
        multiplier := multiplier * 1.4;
      }
      predictions := predictions + [DayForecast(day, FALLBACK_BASE * multiplier, day.weekday >= 5)];
    }
  }

  /** `max(predictions, key=quantity)`: the index of the first day with the
      largest quantity. */
  function PeakIndex(predictions: seq<DayForecast>): (k: nat)
    requires predictions != []
    ensures k < |predictions|
    ensures forall j :: 0 <= j < |predictions| ==> predictions[j].quantity <= predictions[k].quantity
    ensures forall j :: 0 <= j < k ==> predictions[j].quantity < predictions[k].quantity
  {
    FirstMaxIndex(predictions, (p: DayForecast) => p.quantity)
  }

  /** `total / days` */
  function Average(total: real, days: int): (r: real)
    requires days != 0
    ensures r * (days as real) == total
  {
    total / (days as real)
  }

  /** The forecast summary: the total of the daily quantities, their
      average over the requested days (ZeroDivisionError when that is zero),
      and the first day with the largest quantity (None without days). */
  function Summarize(category: string, predictions: seq<DayForecast>, forecastDays: int, mae: Option<real>)
    : (r: Try<DemandSummary>)
    ensures r.Raised? <==> forecastDays == 0
    ensures r.Raised? ==> r.exc == ZeroDivisionError
    ensures r.Ok? ==> (
      && r.value.categoryUsed == category && r.value.predictions == predictions && r.value.meanAbsoluteError == mae
      && r.value.totalPredictedDemand == Sum(Quantities(predictions))
      && r.value.avgDailyDemand == Average(r.value.totalPredictedDemand, forecastDays)
      && (r.value.peakDay.None? <==> predictions == [])
      && (r.value.peakDay.Some? ==>
            exists k :: (0 <= k < |predictions| && r.value.peakDay.value == predictions[k] &&
              (forall j :: 0 <= j < |predictions| ==> predictions[j].quantity <= predictions[k].quantity) &&
              (forall j :: 0 <= j < k ==> predictions[j].quantity < predictions[k].quantity))))
  {
    if forecastDays == 0 then Raised(ZeroDivisionError)
    else
      var total := Sum(Quantities(predictions));
      var peak := if predictions == [] then None else Some(predictions[PeakIndex(predictions)]);
      Ok(DemandSummary(category, predictions, total, Average(total, forecastDays), peak, mae))
  }

  /** The part of predict_demand after the category is known: the daily
      forecast and its summary, with ValueError reported as a missing
      category model and any other exception as a failed prediction. */
  method ForecastCategoryDemand(sf: CategoryForecaster.StockForecaster, ml: Runtime, disk: Disk, clock: Clock,
                                category: string, forecastDays: int, isHoliday: bool, campaignActive: bool)
    returns (r: DemandOutcome)
    requires sf.Valid()
    modifies sf
    ensures sf.Valid()
    ensures forall c :: c in old(sf.modelCache) ==> c in sf.modelCache && sf.modelCache[c] == old(sf.modelCache[c])
    ensures forall c :: c in old(sf.scalerCache) ==> c in sf.scalerCache && sf.scalerCache[c] == old(sf.scalerCache[c])
    ensures r.Forecast? || r.NoCategoryModel? || r.PredictionFailed?
    ensures r.NoCategoryModel? ==> r.categoryAttempted == category
    ensures r.Forecast? ==> (
      && Summarize(category, r.forecast.predictions, forecastDays, sf.MeanAbsoluteError(category)) == Ok(r.forecast)
      && (forecastDays < 0 ==> r.forecast.predictions == [])
      && (forecastDays > 0 ==>
            && category in sf.modelCache && category in sf.scalerCache
            && r.forecast.predictions == Chain(ml, sf.modelCache[category], sf.scalerCache[category], clock,
                                               forecastDays, isHoliday, campaignActive)))
    ensures forecastDays == 0 ==> r == PredictionFailed(ZeroDivisionError)
    ensures (forecastDays > 0 && category !in old(sf.modelCache) && !disk.Exists(sf.ModelPath(category))) ==>
      r == NoCategoryModel(category)
    ensures (forecastDays > 0 && category !in old(sf.modelCache) && disk.Exists(sf.ModelPath(category)) &&
             disk.Load(sf.ModelPath(category)).Raised?) ==>
      r == PredictionFailed(disk.Load(sf.ModelPath(category)).exc)
    ensures (forecastDays != 0 && category in old(sf.modelCache) && category in old(sf.scalerCache)) ==> r.Forecast?
    ensures forecastDays != 0 ==> (r.Forecast? <==> forecastDays < 0 || old(sf.Loadable(disk, category)))
    ensures forall c :: sf.Loadable(disk, c) == old(sf.Loadable(disk, c))
  {
    var predictions := ForecastDays(sf, ml, disk, clock, category, forecastDays, isHoliday, campaignActive);
    if predictions.Raised? {
      if predictions.exc == ValueError {
        return NoCategoryModel(category);
      }
      return PredictionFailed(predictions.exc);
    }
    var summary := Summarize(category, predictions.value, forecastDays, sf.MeanAbsoluteError(category));
    if summary.Raised? {
      return PredictionFailed(summary.exc);
    }
    return Forecast(summary.value);
  }

  // ----------------------------------------------------------------- reorder

  /** How soon stock must be reordered. */
  datatype StockUrgency = UrgencyHigh | UrgencyMedium | UrgencyLow

  /** The reorder advice: the period forecast, the predicted demand over it,
      whether and how much to reorder, the urgency, the first day on which
      the cumulative demand exceeds the stock, and the safety stock level. */
  datatype Reorder = Reorder(
    forecastPeriodDays: int,
    predictedDemand: real,
    reorderNeeded: bool,
    reorderQuantity: real,
    urgency: StockUrgency,
    daysUntilStockout: Option<Day>,
    safetyStockLevel: real)

  /** What get_reorder_recommendations reports: the forecast's own error
      unchanged, or the advice together with the forecast it rests on. */
  datatype ReorderOutcome =
    | ForecastError(outcome: DemandOutcome)
    | Recommendation(forecast: DemandSummary, reorder: Reorder)

  /** The cumulative demand of the first k + 1 days exceeds the stock. */
  predicate RunsOut(quantities: seq<real>, stock: real, k: nat)
    requires k < |quantities|
  {
    Sum(quantities[..k + 1]) > stock
  }

  /** The cumulative-demand scan: the first day whose cumulative demand
      exceeds the stock, or None when the stock covers every day. */
  method FirstStockout(quantities: seq<real>, stock: real) returns (r: Option<nat>)
    ensures r.Some? ==> r.value < |quantities| && RunsOut(quantities, stock, r.value)
    ensures r.Some? ==> forall k :: 0 <= k < r.value ==> !RunsOut(quantities, stock, k)
    ensures r.None? <==> forall k :: 0 <= k < |quantities| ==> !RunsOut(quantities, stock, k)
  {
    var cumulative := 0.0;
    for k := 0 to |quantities|
      invariant cumulative == Sum(quantities[..k])
      invariant forall j :: 0 <= j < k ==> !RunsOut(quantities, stock, j)
    {
      assert quantities[..k + 1][..k] == quantities[..k];
      cumulative := cumulative + quantities[k];
      if cumulative > stock {
        return Some(k);
      }
    }
    return None;
  }

  /** With non-negative daily demand the stock runs out on some day exactly
      when the total demand exceeds it. */
  lemma StockoutIffTotalExceeds(quantities: seq<real>, stock: real)
    requires |quantities| > 0
    requires forall k :: 0 <= k < |quantities| ==> quantities[k] >= 0.0
    ensures (exists k :: 0 <= k < |quantities| && RunsOut(quantities, stock, k)) <==> Sum(quantities) > stock
  {
    var n := |quantities| - 1;
    assert quantities[..n + 1] == quantities;
    if Sum(quantities) > stock {
      assert RunsOut(quantities, stock, n);
    } else {
      forall k | 0 <= k < |quantities|
        ensures !RunsOut(quantities, stock, k)
      {
        SumMonotone(quantities, k + 1, n + 1);
      }
    }
  }

  /** The reorder advice for a forecast: the period is the lead time plus a
      week; the safety level is the predicted demand times the multiplier;
      the reorder quantity is what the safety level exceeds the stock by (at
      least zero), needed exactly when positive; the stockout day is the
      first on which the cumulative demand exceeds the stock; the urgency
      follows from these. */
  predicate IsAdvice(forecast: DemandSummary, clock: Clock, currentStock: real, leadTimeDays: int,
                     safetyMultiplier: real, a: Reorder)
  {
    var q := Quantities(forecast.predictions);
    && a.forecastPeriodDays == leadTimeDays + 7
    && a.predictedDemand == forecast.totalPredictedDemand
    && a.safetyStockLevel == forecast.totalPredictedDemand * safetyMultiplier
    && a.reorderQuantity == Max0(a.safetyStockLevel - currentStock)
    && a.reorderNeeded == (a.reorderQuantity > 0.0)
    && (a.daysUntilStockout.None? <==> forall k :: 0 <= k < |q| ==> !RunsOut(q, currentStock, k))
    && (a.daysUntilStockout.Some? ==>
          exists k :: 0 <= k < |q| && a.daysUntilStockout.value == forecast.predictions[k].day &&
            RunsOut(q, currentStock, k) && forall j :: 0 <= j < k ==> !RunsOut(q, currentStock, j))
    && a.urgency == ReorderUrgency(a.daysUntilStockout, clock, a.reorderQuantity)
  }

  /** The advice part of get_reorder_recommendations, with its cumulative
      demand scan. */
  method Advise(forecast: DemandSummary, clock: Clock, currentStock: real, leadTimeDays: int,
                safetyMultiplier: real) returns (a: Reorder)
    ensures IsAdvice(forecast, clock, currentStock, leadTimeDays, safetyMultiplier, a)
  {
    var totalDemand := forecast.totalPredictedDemand;
    var neededStock := totalDemand * safetyMultiplier;
    var reorderQty := Max0(neededStock - currentStock);
    var first := FirstStockout(Quantities(forecast.predictions), currentStock);
    var stockout := if first.Some? then Some(forecast.predictions[first.value].day) else None;
    a := Reorder(leadTimeDays + 7, totalDemand, reorderQty > 0.0, reorderQty,
                 ReorderUrgency(stockout, clock, reorderQty), stockout, neededStock);
  }

  /** Following the advice restores the safety level, and nothing is
      reordered exactly when the stock already covers it. */
  lemma AdviceCovers(forecast: DemandSummary, clock: Clock, currentStock: real, leadTimeDays: int,
                     safetyMultiplier: real, a: Reorder)
    requires IsAdvice(forecast, clock, currentStock, leadTimeDays, safetyMultiplier, a)
    ensures currentStock + a.reorderQuantity >= a.safetyStockLevel
    ensures !a.reorderNeeded <==> a.safetyStockLevel <= currentStock
    ensures a.urgency == UrgencyLow ==> !a.reorderNeeded
  {
  }

  /** A stockout date before the moment three days from now: the date's
      midnight, in seconds, is earlier than now plus three days. */
  predicate StockoutSoon(day: Day, clock: Clock) {
    day.ordinal * 86400 < clock.calendar(3).ordinal * 86400 + clock.second
  }

  /** The urgency: high when a (non-empty) stockout date comes within three
      days, otherwise medium when something must be reordered, else low. */
  function ReorderUrgency(stockout: Option<Day>, clock: Clock, reorderQuantity: real): (u: StockUrgency)
    ensures u == UrgencyHigh <==> stockout.Some? && stockout.value.date != "" && StockoutSoon(stockout.value, clock)
    ensures u == UrgencyLow ==> reorderQuantity <= 0.0
  {
    if stockout.Some? && stockout.value.date != "" && StockoutSoon(stockout.value, clock) then UrgencyHigh
    else if reorderQuantity > 0.0 then UrgencyMedium
    else UrgencyLow
  }

  // --------------------------------------------------------------- optimizer

  /** An item's model and scaler from their two files: the model must load,
      and so must the scaler when its file exists (None without one). */
  function ItemModelAt(disk: Disk, modelPath: string, scalerPath: string): Option<ItemModel> {
    match disk.Load(modelPath)
    case Raised(_) => None
    case Ok(model) =>
      if !disk.Exists(scalerPath) then Some(ItemModel(model, PyNone))
      else match disk.Load(scalerPath)
        case Raised(_) => None
        case Ok(scaler) => Some(ItemModel(model, scaler))
  }

  /** The loading steps of _load_item_forecast_model once a stem is chosen. */
  method LoadItemPair(disk: Disk, modelPath: string, scalerPath: string) returns (r: Option<ItemModel>)
    ensures r == ItemModelAt(disk, modelPath, scalerPath)
    ensures r.Some? ==> Ok(r.value.model) == disk.Load(modelPath) && r.value.scaler == LoadOrNone(disk, scalerPath)
  {
    var model := disk.Load(modelPath);
    if model.Raised? {
      return None;
    }
    var scaler := Ok(PyNone);
    if disk.Exists(scalerPath) {
      scaler := disk.Load(scalerPath);
      if scaler.Raised? {
        return None;
      }
    }
    return Some(ItemModel(model.value, scaler.value));
  }

  /** optimize_campaign_parameters's outcome short of an exception: the
      regressor is None, or the best grid campaign and its score. */
  datatype Optimization = OptimizerNotReady | Optimized(best: CampaignOptimizer.Best)

  class MlPredictionService {
    const modelsDir: string
    const modelConfigs: map<ModelType, Config>
    const stockForecaster: CategoryForecaster.StockForecaster?
    var loadedModels: map<ModelType, map<string, Obj>>
    var itemForecastModels: map<string, ItemModel>

    /** Only configured model types are ever cached, and the forecaster keeps
        its own invariant. */
    ghost predicate Valid()
      reads this, stockForecaster
    {
      && loadedModels.Keys <= modelConfigs.Keys
      && (stockForecaster != null ==> stockForecaster.Valid())
    }

    /** The service over models directory `modelsDir`, with no forecaster
        when building it raises. */
    constructor (modelsDir: string, disk: Disk)
      ensures Valid()
      ensures this.modelsDir == modelsDir && modelConfigs == MODEL_CONFIGS
      ensures loadedModels == map[] && itemForecastModels == map[]
      ensures stockForecaster == null <==>
        CategoryForecaster.InitFails(PathJoin(modelsDir, "stock_forecaster"), disk)
      ensures stockForecaster != null ==>
        fresh(stockForecaster) && stockForecaster.modelCache == map[] && stockForecaster.scalerCache == map[]
    {
      var forecaster := CategoryForecaster.NewStockForecaster(PathJoin(modelsDir, "stock_forecaster"), disk);
      this.modelsDir := modelsDir;
      modelConfigs := MODEL_CONFIGS;
      loadedModels := map[];
      itemForecastModels := map[];
      stockForecaster := if forecaster.Ok? then forecaster.value else null;
    }

    /** The artifacts a model type's configuration yields when read afresh:
        none without a base path, a bundle's contents, or one per file. */
    function Artifacts(disk: Disk, config: Config): map<string, Obj> {
      match Lookup(config, "base_path")
      case None => map[]
      case Some(base) =>
        match Lookup(config, "bundle")
        case Some(bundle) => BundleArtifacts(disk, PathJoin(PathJoin(modelsDir, base), bundle))
        case None => FileArtifacts(disk, PathJoin(modelsDir, base), config)
    }

    /** _load_model_artifacts: a cached entry is returned unchanged; an
        unconfigured type raises ValueError; otherwise the artifacts are read
        and cached. Nothing else changes. */
    method LoadModelArtifacts(disk: Disk, modelType: ModelType) returns (r: Try<map<string, Obj>>)
      requires Valid()
      modifies this
      ensures Valid()
      ensures itemForecastModels == old(itemForecastModels)
      ensures modelType in old(loadedModels) ==>
        r == Ok(old(loadedModels)[modelType]) && loadedModels == old(loadedModels)
      ensures modelType !in old(loadedModels) && modelType !in modelConfigs ==>
        r == Raised(ValueError) && loadedModels == old(loadedModels)
      ensures modelType !in old(loadedModels) && modelType in modelConfigs ==>
        r == Ok(Artifacts(disk, modelConfigs[modelType])) && loadedModels == old(loadedModels)[modelType := r.value]
    {
      if modelType in loadedModels {
        return Ok(loadedModels[modelType]);
      }
      if modelType !in modelConfigs {
        return Raised(ValueError);
      }
      var config := modelConfigs[modelType];
      var artifacts: map<string, Obj> := map[];
      var basePath := Lookup(config, "base_path");
      if basePath.None? {
        loadedModels := loadedModels[modelType := artifacts];
        return Ok(artifacts);
      }
      var dir := PathJoin(modelsDir, basePath.value);
      var bundle := Lookup(config, "bundle");
      if bundle.Some? {
        var bundlePath := PathJoin(dir, bundle.value);
        if disk.Exists(bundlePath) {
          var loaded := disk.Load(bundlePath);
          if loaded.Ok? {
            artifacts := if loaded.value.Dict? then loaded.value.entries else map["model" := loaded.value];
          }
        }
        loadedModels := loadedModels[modelType := artifacts];
        return Ok(artifacts);
      }
      artifacts := LoadFiles(disk, dir, config);
      loadedModels := loadedModels[modelType := artifacts];
      return Ok(artifacts);
    }

    /** The directory whose listing tells whether demand models exist: the
        configured base path and models subdirectory, or none without a
        (non-empty) base path. */
    function DemandModelsDir(): Option<string> {
      var config := if DemandForecast in modelConfigs then modelConfigs[DemandForecast] else [];
      match Lookup(config, "base_path")
      case Some(base) =>
        if base != "" then Some(PathJoin(PathJoin(modelsDir, base), LookupOr(config, "models_subdir", ""))) else None
      case None => None
    }

    /** is_model_available: demand models are available when their directory
        lists something; any other type loads (and caches) its artifacts and
        is available when they make it ready. */
    method IsModelAvailable(disk: Disk, modelType: ModelType) returns (r: Try<bool>)
      requires Valid()
      modifies this
      ensures Valid()
      ensures itemForecastModels == old(itemForecastModels)
      ensures modelType == DemandForecast ==>
        r == DirectoryReady(disk, DemandModelsDir()) && loadedModels == old(loadedModels)
      ensures modelType != DemandForecast ==>
        (r.Raised? <==> modelType !in old(loadedModels) && modelType !in modelConfigs) &&
        (r.Raised? ==> r.exc == ValueError && loadedModels == old(loadedModels)) &&
        (r.Ok? ==> modelType in loadedModels && r.value == ArtifactsReady(modelType, loadedModels[modelType]) &&
                   loadedModels == old(loadedModels)[modelType := loadedModels[modelType]])
      ensures modelType != DemandForecast && modelType in old(loadedModels) ==> loadedModels == old(loadedModels)
    {
      if modelType == DemandForecast {
        var config := if DemandForecast in modelConfigs then modelConfigs[DemandForecast] else [];
        var basePath := Lookup(config, "base_path");
        if basePath.Some? && basePath.value != "" {
          var dir := PathJoin(PathJoin(modelsDir, basePath.value), LookupOr(config, "models_subdir", ""));
          if !disk.Exists(dir) {
            return Ok(false);
          }
          if dir in disk.dirs {
            return Ok(|disk.dirs[dir]| > 0);
          }
          return Raised(OSError);
        }
        return Ok(false);
      }
      var artifacts := LoadModelArtifacts(disk, modelType);
      if artifacts.Raised? {
        return Raised(artifacts.exc);
      }
      var a := artifacts.value;
      if a == map[] {
        return Ok(false);
      }
      if modelType == CampaignRoi {
        return Ok("regressor" in a && a["regressor"] != PyNone);
      } else if modelType == CustomerChurn {
        return Ok(("model" in a && a["model"] != PyNone) || |a| > 0);
      } else {
        return Ok("model" in a && a["model"] != PyNone);
      }
    }

    /** get_available_models: the availability of the four model types, in
        order, the first exception ending the report. */
    method AvailableModels(disk: Disk) returns (r: Try<seq<(ModelType, bool)>>)
      requires Valid()
      modifies this
      ensures Valid()
      ensures itemForecastModels == old(itemForecastModels)
      ensures DirectoryReady(disk, DemandModelsDir()).Raised? ==> r.Raised?
      ensures r.Ok? ==>
        && |r.value| == 4
        && (forall i :: 0 <= i < 4 ==> r.value[i].0 == MODEL_TYPES[i])
        && r.value[0].1 == DirectoryReady(disk, DemandModelsDir()).value
        && CampaignRoi in loadedModels && CustomerChurn in loadedModels && CashierRisk in loadedModels
        && r.value[1].1 == ArtifactsReady(CampaignRoi, loadedModels[CampaignRoi])
        && r.value[2].1 == ArtifactsReady(CustomerChurn, loadedModels[CustomerChurn])
        && r.value[3].1 == ArtifactsReady(CashierRisk, loadedModels[CashierRisk])
    {
      var demand := IsModelAvailable(disk, DemandForecast);
      if demand.Raised? {
        return Raised(demand.exc);
      }
      var campaign := IsModelAvailable(disk, CampaignRoi);
      if campaign.Raised? {
        return Raised(campaign.exc);
      }
      var churn := IsModelAvailable(disk, CustomerChurn);
      if churn.Raised? {
        return Raised(churn.exc);
      }
      var cashier := IsModelAvailable(disk, CashierRisk);
      if cashier.Raised? {
        return Raised(cashier.exc);
      }
      return Ok([(DemandForecast, demand.value), (CampaignRoi, campaign.value),
                 (CustomerChurn, churn.value), (CashierRisk, cashier.value)]);
    }

    /** health_check: the availability report, the number of model types and
        the number ready; every model is ready exactly when the two agree. */
    method HealthCheck(disk: Disk) returns (r: Try<Health>)
      requires Valid()
      modifies this
      ensures Valid()
      ensures itemForecastModels == old(itemForecastModels)
      ensures DirectoryReady(disk, DemandModelsDir()).Raised? ==> r.Raised?
      ensures r.Ok? ==>
        && |r.value.modelsAvailable| == r.value.totalModels == 4
        && (forall i :: 0 <= i < 4 ==> r.value.modelsAvailable[i].0 == MODEL_TYPES[i])
        && r.value.readyModels == CountReady(r.value.modelsAvailable) <= 4
        && (r.value.readyModels == 4 <==> forall i :: 0 <= i < 4 ==> r.value.modelsAvailable[i].1)
        && r.value.modelsDirectory == modelsDir
    {
      var available := AvailableModels(disk);
      if available.Raised? {
        return Raised(available.exc);
      }
      AllReadyIffCountFull(available.value);
      return Ok(Health(available.value, |available.value|, CountReady(available.value), modelsDir));
    }

    /** The paths of the model and scaler files of a model stem (an item or
        category name), or none when the demand configuration has no
        (non-empty) base path. */
    function ItemPaths(stem: string): Option<(string, string)> {
      var config := if DemandForecast in modelConfigs then modelConfigs[DemandForecast] else [];
      match Lookup(config, "base_path")
      case Some(base) =>
        if base == "" then None
        else
          var root := PathJoin(modelsDir, base);
          Some((PathJoin(PathJoin(root, LookupOr(config, "models_subdir", "")), stem + ".joblib"),
                PathJoin(PathJoin(root, LookupOr(config, "scalers_subdir", "")), stem + "_scaler.joblib")))
      case None => None
    }

    /** The stem whose model file serves an item: the item's own when its
        file exists, otherwise its mapped category's when that file exists. */
    function ModelStem(disk: Disk, itemName: string): Option<string>
    {
      match ItemPaths(itemName)
      case None => None
      case Some((modelPath, _)) =>
        if disk.Exists(modelPath) then Some(itemName)
        else match CategoryMapping.MapItemToCategory(itemName)
          case None => None
          case Some(category) =>
            if category == "" then None
            else match ItemPaths(category)
              case Some((categoryPath, _)) => if disk.Exists(categoryPath) then Some(category) else None
              case None => None
    }

    /** The model and scaler loaded for an item, None when no model file
        serves it or a load fails; the scaler is None without its file. */
    function ItemModelFor(disk: Disk, itemName: string): Option<ItemModel>
    {
      match ModelStem(disk, itemName)
      case None => None
      case Some(stem) => ItemModelAt(disk, ItemPaths(stem).value.0, ItemPaths(stem).value.1)
    }

    /** The stem chosen has an existing model file and is the item's own or
        its category's; an item with its own model file is served by it. */
    lemma ModelStemChoice(disk: Disk, itemName: string)
      ensures var stem := ModelStem(disk, itemName);
        && (stem.Some? ==> ItemPaths(stem.value).Some? && disk.Exists(ItemPaths(stem.value).value.0))
        && (stem.Some? ==> stem.value == itemName || Some(stem.value) == CategoryMapping.MapItemToCategory(itemName))
        && (ItemPaths(itemName).Some? && disk.Exists(ItemPaths(itemName).value.0) ==> stem == Some(itemName))
    {
    }

    /** An item model is found exactly when a stem is chosen and its model
        (and its scaler, when that file exists) load; it holds the loaded
        model, and the loaded scaler or None. */
    lemma ItemModelLoads(disk: Disk, itemName: string)
      ensures var stem := ModelStem(disk, itemName);
        var r := ItemModelFor(disk, itemName);
        && (r.Some? <==>
              (stem.Some? && disk.Load(ItemPaths(stem.value).value.0).Ok? &&
               (!disk.Exists(ItemPaths(stem.value).value.1) || disk.Load(ItemPaths(stem.value).value.1).Ok?)))
        && (r.Some? ==> Ok(r.value.model) == disk.Load(ItemPaths(stem.value).value.0))
        && (r.Some? ==> r.value.scaler == LoadOrNone(disk, ItemPaths(stem.value).value.1))
    {
    }

    /** The file checks of _load_item_forecast_model: the item's own model
        file, then its category's. */
    method ChooseStem(disk: Disk, itemName: string) returns (stem: Option<string>)
      ensures stem == ModelStem(disk, itemName)
    {
      var paths := ItemPaths(itemName);
      if paths.None? {
        return None;
      }
      if disk.Exists(paths.value.0) {
        return Some(itemName);
      }
      var category := CategoryMapping.MapItemToCategory(itemName);
      if category.None? || category.value == "" {
        return None;
      }
      var categoryPaths := ItemPaths(category.value);
      if categoryPaths.None? || !disk.Exists(categoryPaths.value.0) {
        return None;
      }
      return category;
    }

    /** _load_item_forecast_model: a cached entry is returned unchanged;
        otherwise the item's model is resolved and loaded, and cached only
        when loading succeeds. Nothing else changes. */
    method LoadItemForecastModel(disk: Disk, itemName: string) returns (r: Option<ItemModel>)
      requires Valid()
      modifies this
      ensures Valid()
      ensures loadedModels == old(loadedModels)
      ensures itemName in old(itemForecastModels) ==>
        r == Some(old(itemForecastModels)[itemName]) && itemForecastModels == old(itemForecastModels)
      ensures itemName !in old(itemForecastModels) ==> r == ItemModelFor(disk, itemName)
      ensures itemName !in old(itemForecastModels) ==>
        itemForecastModels == if r.Some? then old(itemForecastModels)[itemName := r.value] else old(itemForecastModels)
    {
      if itemName in itemForecastModels {
        return Some(itemForecastModels[itemName]);
      }
      var stem := ChooseStem(disk, itemName);
      if stem.None? {
        return None;
      }
      r := LoadItemPair(disk, ItemPaths(stem.value).value.0, ItemPaths(stem.value).value.1);
      if r.Some? {
        itemForecastModels := itemForecastModels[itemName := r.value];
      }
    }

    /** predict_demand: without a forecaster or an item name, the matching
        error; otherwise the chained daily forecast of the item's category
        model with its summary, NoCategoryModel when the forecaster raises
        ValueError (no model for the category) and PredictionFailed for any
        other exception, including the division by zero days. */
    method PredictDemand(ml: Runtime, disk: Disk, clock: Clock, forecastDays: int, isHoliday: bool,
                         campaignActive: bool, itemName: Option<string>) returns (r: DemandOutcome)
      requires Valid()
      modifies stockForecaster
      ensures Valid()
      ensures stockForecaster != null ==>
        && (forall c :: c in old(stockForecaster.modelCache) ==>
              c in stockForecaster.modelCache && stockForecaster.modelCache[c] == old(stockForecaster.modelCache[c]))
        && (forall c :: c in old(stockForecaster.scalerCache) ==>
              c in stockForecaster.scalerCache && stockForecaster.scalerCache[c] == old(stockForecaster.scalerCache[c]))
      ensures r == NotInitialized <==> stockForecaster == null
      ensures stockForecaster != null && (itemName.None? || itemName == Some("")) ==> r == NameRequired
      ensures r.NoCategoryModel? ==> itemName.Some? && r.categoryAttempted == ForecastCategory(itemName.value)
      ensures r.Forecast? ==> (
        && stockForecaster != null && itemName.Some?
        && var category := ForecastCategory(itemName.value);
        && Summarize(category, r.forecast.predictions, forecastDays, stockForecaster.MeanAbsoluteError(category))
             == Ok(r.forecast)
        && (forecastDays < 0 ==> r.forecast.predictions == [])
        && (forecastDays > 0 ==>
              && category in stockForecaster.modelCache && category in stockForecaster.scalerCache
              && r.forecast.predictions == Chain(ml, stockForecaster.modelCache[category],
                   stockForecaster.scalerCache[category], clock, forecastDays, isHoliday, campaignActive)))
      ensures stockForecaster != null && itemName.Some? && itemName.value != "" ==>
        var category := ForecastCategory(itemName.value);
        && (forecastDays == 0 ==> r == PredictionFailed(ZeroDivisionError))
        && ((forecastDays > 0 && category !in old(stockForecaster.modelCache) &&
             !disk.Exists(stockForecaster.ModelPath(category))) ==> r == NoCategoryModel(category))
        && ((forecastDays > 0 && category !in old(stockForecaster.modelCache) &&
             disk.Exists(stockForecaster.ModelPath(category)) &&
             disk.Load(stockForecaster.ModelPath(category)).Raised?) ==>
              r == PredictionFailed(disk.Load(stockForecaster.ModelPath(category)).exc))
        && ((forecastDays != 0 && category in old(stockForecaster.modelCache) &&
             category in old(stockForecaster.scalerCache)) ==> r.Forecast?)
        && (forecastDays != 0 ==>
              (r.Forecast? <==> forecastDays < 0 || old(stockForecaster.Loadable(disk, category))))
      ensures stockForecaster != null ==>
        forall c :: stockForecaster.Loadable(disk, c) == old(stockForecaster.Loadable(disk, c))
    {
      if stockForecaster == null {
        return NotInitialized;
      }
      if itemName.None? || itemName.value == "" {
        return NameRequired;
      }
      r := ForecastCategoryDemand(stockForecaster, ml, disk, clock, ForecastCategory(itemName.value), forecastDays,
                                  isHoliday, campaignActive);
    }

    /** get_reorder_recommendations: a forecast over the lead time plus a
        week, without holiday or campaign; its error is returned as it is,
        and otherwise the advice for the current stock. */
    method ReorderRecommendations(ml: Runtime, disk: Disk, clock: Clock, currentStock: real,
                                  leadTimeDays: int, safetyMultiplier: real, itemName: Option<string>)
      returns (r: ReorderOutcome)
      requires Valid()
      modifies stockForecaster
      ensures Valid()
      ensures stockForecaster != null ==>
        && (forall c :: c in old(stockForecaster.modelCache) ==>
              c in stockForecaster.modelCache && stockForecaster.modelCache[c] == old(stockForecaster.modelCache[c]))
        && (forall c :: c in old(stockForecaster.scalerCache) ==>
              c in stockForecaster.scalerCache && stockForecaster.scalerCache[c] == old(stockForecaster.scalerCache[c]))
      ensures stockForecaster == null ==> r == ForecastError(NotInitialized)
      ensures stockForecaster != null && (itemName.None? || itemName == Some("")) ==> r == ForecastError(NameRequired)
      ensures r.ForecastError? ==> !r.outcome.Forecast?
      ensures stockForecaster != null && itemName.Some? && itemName.value != "" ==>
        var category := ForecastCategory(itemName.value);
        var days := leadTimeDays + 7;
        && (days == 0 ==> r == ForecastError(PredictionFailed(ZeroDivisionError)))
        && ((days > 0 && category !in old(stockForecaster.modelCache) &&
             !disk.Exists(stockForecaster.ModelPath(category))) ==> r == ForecastError(NoCategoryModel(category)))
        && ((days > 0 && category !in old(stockForecaster.modelCache) &&
             disk.Exists(stockForecaster.ModelPath(category)) &&
             disk.Load(stockForecaster.ModelPath(category)).Raised?) ==>
              r == ForecastError(PredictionFailed(disk.Load(stockForecaster.ModelPath(category)).exc)))
        && (r.Recommendation? <==> days != 0 && (days < 0 || old(stockForecaster.Loadable(disk, category))))
      ensures stockForecaster != null ==>
        forall c :: stockForecaster.Loadable(disk, c) == old(stockForecaster.Loadable(disk, c))
      ensures r.Recommendation? ==> (
        && IsAdvice(r.forecast, clock, currentStock, leadTimeDays, safetyMultiplier, r.reorder)
        && stockForecaster != null && itemName.Some?
        && var category := ForecastCategory(itemName.value);
        && Summarize(category, r.forecast.predictions, leadTimeDays + 7, stockForecaster.MeanAbsoluteError(category))
             == Ok(r.forecast)
        && (leadTimeDays + 7 < 0 ==> r.forecast.predictions == [])
        && (leadTimeDays + 7 > 0 ==>
              && category in stockForecaster.modelCache && category in stockForecaster.scalerCache
              && r.forecast.predictions == Chain(ml, stockForecaster.modelCache[category],
                   stockForecaster.scalerCache[category], clock, leadTimeDays + 7, false, false)))
    {
      var forecast := PredictDemand(ml, disk, clock, leadTimeDays + 7, false, false, itemName);
      if !forecast.Forecast? {
        return ForecastError(forecast);
      }
      var advice := Advise(forecast.forecast, clock, currentStock, leadTimeDays, safetyMultiplier);
      return Recommendation(forecast.forecast, advice);
    }

    /** The artifacts loading a model type yields: the cached entry, or
        what its configured files give when it is not cached yet; None for
        a type without a configuration. */
    function LoadedArtifacts(disk: Disk, modelType: ModelType): Option<map<string, Obj>>
      reads this
    {
      if modelType in loadedModels then Some(loadedModels[modelType])
      else if modelType in modelConfigs then Some(Artifacts(disk, modelConfigs[modelType]))
      else None
    }

    /** predict_campaign_performance: the campaign prediction made with the
        campaign artifacts, loaded first when not yet cached. */
    method PredictCampaignPerformance(ml: Runtime, disk: Disk, clock: Clock, durationDays: real, points: real,
                                      discountPercent: real, minimumSpend: real) returns (r: Try<CampaignOutcome>)
      requires Valid()
      modifies this
      ensures Valid()
      ensures itemForecastModels == old(itemForecastModels)
      ensures CampaignRoi in old(loadedModels) ==> loadedModels == old(loadedModels)
      ensures CampaignRoi !in old(loadedModels) && CampaignRoi in modelConfigs ==>
        loadedModels == old(loadedModels)[CampaignRoi := Artifacts(disk, modelConfigs[CampaignRoi])]
      ensures CampaignRoi !in loadedModels ==> r == Raised(ValueError) && loadedModels == old(loadedModels)
      ensures LoadedArtifacts(disk, CampaignRoi) == old(LoadedArtifacts(disk, CampaignRoi))
      ensures CampaignRoi in loadedModels ==>
        r == CampaignWith(ml, clock, loadedModels[CampaignRoi], durationDays, points, discountPercent, minimumSpend)
    {
      var artifacts := LoadModelArtifacts(disk, CampaignRoi);
      if artifacts.Raised? {
        return Raised(artifacts.exc);
      }
      r := CampaignWith(ml, clock, artifacts.value, durationDays, points, discountPercent, minimumSpend);
    }

    /** optimize_campaign_parameters: with a trained regressor, the grid
        search over the campaign predictions for the target redemptions; the
        search's own exception propagates. */
    method OptimizeCampaignParameters(ml: Runtime, disk: Disk, clock: Clock, targetRedemptions: int,
                                      maxDiscount: real) returns (r: Try<Optimization>)
      requires Valid()
      modifies this
      ensures Valid()
      ensures itemForecastModels == old(itemForecastModels)
      ensures CampaignRoi in old(loadedModels) ==> loadedModels == old(loadedModels)
      ensures CampaignRoi !in old(loadedModels) && CampaignRoi in modelConfigs ==>
        loadedModels == old(loadedModels)[CampaignRoi := Artifacts(disk, modelConfigs[CampaignRoi])]
      ensures CampaignRoi !in loadedModels ==> r == Raised(ValueError) && loadedModels == old(loadedModels)
      ensures LoadedArtifacts(disk, CampaignRoi) == old(LoadedArtifacts(disk, CampaignRoi))
      ensures CampaignRoi in loadedModels ==>
        var artifacts := loadedModels[CampaignRoi];
        && ("regressor" !in artifacts ==> r == Raised(KeyError))
        && ("regressor" in artifacts && artifacts["regressor"] == PyNone ==> r == Ok(OptimizerNotReady))
        && ("regressor" in artifacts && artifacts["regressor"] != PyNone ==>
              r == match CampaignOptimizer.Fold(CampaignTrial(ml, clock, artifacts), targetRedemptions,
                                                CampaignOptimizer.Grid(maxDiscount))
                   case Ok(best) => Ok(Optimized(best))
                   case Raised(e) => Raised(e))
    {
      var artifacts := LoadModelArtifacts(disk, CampaignRoi);
      if artifacts.Raised? {
        return Raised(artifacts.exc);
      }
      var regressor := Artifact(artifacts.value, "regressor");
      if regressor.Raised? {
        return Raised(regressor.exc);
      }
      if regressor.value == PyNone {
        return Ok(OptimizerNotReady);
      }
      var best := CampaignOptimizer.SearchGrid(CampaignTrial(ml, clock, artifacts.value), targetRedemptions,
                                               maxDiscount);
      if best.Raised? {
        return Raised(best.exc);
      }
      return Ok(Optimized(best.value));
    }

    /** predict_customer_churn: the churn assessment made with the churn
        artifacts, loaded first when not yet cached. */
    method PredictCustomerChurn(ml: Runtime, disk: Disk, discountAmount: real, pointsEarned: real, price: real,
                                waitingTime: real) returns (r: Try<ChurnOutcome>)
      requires Valid()
      modifies this
      ensures Valid()
      ensures itemForecastModels == old(itemForecastModels)
      ensures CustomerChurn in old(loadedModels) ==> loadedModels == old(loadedModels)
      ensures CustomerChurn !in old(loadedModels) && CustomerChurn in modelConfigs ==>
        loadedModels == old(loadedModels)[CustomerChurn := Artifacts(disk, modelConfigs[CustomerChurn])]
      ensures CustomerChurn !in loadedModels ==> r == Raised(ValueError) && loadedModels == old(loadedModels)
      ensures LoadedArtifacts(disk, CustomerChurn) == old(LoadedArtifacts(disk, CustomerChurn))
      ensures CustomerChurn in loadedModels ==>
        r == Ok(ChurnWith(ml, loadedModels[CustomerChurn], discountAmount, pointsEarned, price, waitingTime))
    {
      var artifacts := LoadModelArtifacts(disk, CustomerChurn);
      if artifacts.Raised? {
        return Raised(artifacts.exc);
      }
      return Ok(ChurnWith(ml, artifacts.value, discountAmount, pointsEarned, price, waitingTime));
    }

    /** detect_cashier_anomalies: the shift assessment made with the cashier
        artifacts, loaded first when not yet cached. */
    method DetectCashierAnomalies(ml: Runtime, disk: Disk, shift: CashierFeatures) returns (r: Try<CashierOutcome>)
      requires Valid()
      modifies this
      ensures Valid()
      ensures itemForecastModels == old(itemForecastModels)
      ensures CashierRisk in old(loadedModels) ==> loadedModels == old(loadedModels)
      ensures CashierRisk !in old(loadedModels) && CashierRisk in modelConfigs ==>
        loadedModels == old(loadedModels)[CashierRisk := Artifacts(disk, modelConfigs[CashierRisk])]
      ensures CashierRisk !in loadedModels ==> r == Raised(ValueError) && loadedModels == old(loadedModels)
      ensures LoadedArtifacts(disk, CashierRisk) == old(LoadedArtifacts(disk, CashierRisk))
      ensures CashierRisk in loadedModels ==> r == CashierWith(ml, loadedModels[CashierRisk], shift)
    {
      var artifacts := LoadModelArtifacts(disk, CashierRisk);
      if artifacts.Raised? {
        return Raised(artifacts.exc);
      }
      r := CashierWith(ml, artifacts.value, shift);
    }
  }
}
