# Fresh Flow Markets prediction service, modelled in Dafny

This project models the machine-learning core of the Fresh Flow Markets
back office and proves properties of it:

- **The prediction service** (`MlPredictionService`). It loads and caches
  model artifacts per model type and reports which models are available.
  It forecasts an item's demand with the model of the item's keyword-mapped
  category, and it has a rule-based fallback forecast. It derives reorder
  advice from a forecast. It predicts campaign performance and searches a
  fixed grid for the best campaign parameters. It assesses customer churn
  and cashier-shift risk, turning model outputs into labels by fixed
  thresholds.
- **The REST handlers.** The machine-learning endpoints validate required
  fields, map service results to status codes, and run batch predictions
  that filter, sort and count the successful entries. The inventory and
  order endpoints cover pagination arithmetic, WHERE clauses with their
  bound parameters, the allow-listed UPDATE statement, and a
  moving-average demand forecast.
- **The per-category stock forecaster and its revenue predictor.** The
  forecaster feeds the service's demand forecast.
- **The LSTM forecasting guide.** It chains single-day predictions and
  computes a restock amount.
- **The campaign ROI guide.** It covers derived campaign features, business
  metrics, batch prediction, and the search for the discount that best
  meets a redemption target.

Trained models and scalers are opaque objects. Their numeric behaviour is
a `Runtime` value of arbitrary functions, so every property holds for every
model. The file system is a `Disk` value and the clock a `Clock` value. A
Python exception is `Raised(e)` in a `Try` result. SQL is built but never
run: a query's result is a parameter. Numbers are unbounded integers and
exact reals. Every module lives in its own file.

- `wrappers.dfy`, `numbers.dfy`, `text.dfy`, `lists.dfy`: Python built-ins
  the code relies on.
- `environment.dfy`: the artifacts, foreign calls, files and clock.
- `replies.dfy`: the JSON replies of the REST handlers.
- `category_forecaster.dfy`: `model.py`.
- `lstm_guide.dfy`: `guide.py`.
- `campaign_guide.dfy`: `campaign_predictor_api.py`.
- `category_mapping.dfy`, `prediction_labels.dfy`, `campaign_optimizer.dfy`,
  `model_predictions.dfy`, `prediction_service.dfy`:
  `ml_prediction_service.py`.
- `ml_routes.dfy`: `ml_routes.py`.
- `inventory_routes.dfy`: `routes.py`.

Four behaviours of the code that are easy to misread:

- **Category mapping does not round-trip.** The keyword table does not
  send a category's own name back to that category. For example,
  `Other_Uncategorized` and the `Øl_Vand_Spiritus` name both map to
  earlier entries (see the `CategoryMapping` lemmas).
- **The LSTM guide's restock amount subtracts the current stock twice.**
  It is modelled as written (`LstmGuide.RestockSubtractsStockTwice`).
- **The reorder endpoint does not answer 404 for an unknown item.** It
  passes no name, so the service refuses the forecast for want of a name.
- **A zero-day demand forecast fails.** It divides by zero when the
  average is taken, and the service reports the generic error.

## Model

Two terms recur below. A category is *loadable* (`StockForecaster.Loadable`) when the forecaster can predict for it on the given disk. Either its model and scaler are both cached, or its model is not cached yet, its model file loads, and its scaler file is absent or loads. An item is *servable* over a number of days (`MlRoutes.Servable`) when its title is non-empty, the day count is not zero, and either the count is negative (no day is predicted) or the title's category is loadable.

| member | source | states |
|---|---|---|
| CategoryForecaster.BeforeFirst | ML_Models/stock_forecaster/Guide_to_use/model.py:43 | `f.split('.joblib')[0]` is the prefix of the file name that stops at the first occurrence of `.joblib`: no occurrence starts inside it, and it is the whole name when `.joblib` does not occur |
| CategoryForecaster.StemOfFileName | ML_Models/stock_forecaster/Guide_to_use/model.py:43 | splitting `<c>.joblib` at `.joblib` gives back `c` for a name without a dot |
| CategoryForecaster.JoblibStems | ML_Models/stock_forecaster/Guide_to_use/model.py:42-45 | one category per listed `.joblib` file, in listing order, each the stem of its file |
| CategoryForecaster.JoblibStemsMembers | ML_Models/stock_forecaster/Guide_to_use/model.py:42-45 | a name is a category exactly when it is the stem of some listed `.joblib` file |
| CategoryForecaster.FeatureRow | ML_Models/stock_forecaster/Guide_to_use/model.py:91-109 | two features `[month, qty]` for a 2-feature model, else five ending in `month, qty`: the weekday as given or today's, the weekend flag as given or derived from the weekday (>= 5), the holiday flag as given or 0 |
| CategoryForecaster.Estimate | ML_Models/stock_forecaster/Guide_to_use/model.py:82-115 | `max(0, prediction)`: never negative, at least the model's output on the assembled row, and either 0 or that output |
| CategoryForecaster.StockForecaster.constructor | ML_Models/stock_forecaster/Guide_to_use/model.py:25-45 | model and scaler directories under the models directory, empty caches, the given metrics and the `.joblib` stems of the listing (none without a listing) |
| CategoryForecaster.StockForecaster.MeanAbsoluteError | ML_Models/stock_forecaster/Guide_to_use/model.py:47-49 | the recorded error of a category exactly when it has one, otherwise None |
| CategoryForecaster.StockForecaster.Predict | ML_Models/stock_forecaster/Guide_to_use/model.py:51-115 | succeeds exactly when the category is loadable: its model and scaler are both cached, or its model is not cached and loads, with a scaler file that is absent or loads; whether a category is loadable never changes. A cached category leaves the caches unchanged. An uncached category without a model file raises ValueError, and one whose model fails to load raises that error; neither caches anything. A loaded model is cached with its scaler or None, and earlier entries are kept. A result is the non-negative estimate made with the cached pair |
| CategoryForecaster.NewStockForecaster | ML_Models/stock_forecaster/Guide_to_use/model.py:25-45 | raises exactly when MSE.json exists and is not valid JSON; otherwise empty caches, metrics from MSE.json (empty without it) and categories from the model directory's listing (none without it; that path ends in '/', so it exists only as a directory) |
| CategoryForecaster.RevenuePredictor.constructor | ML_Models/stock_forecaster/Guide_to_use/model.py:206-209 | keeps the loaded model |
| CategoryForecaster.RevenuePredictor.Predict | ML_Models/stock_forecaster/Guide_to_use/model.py:219-232 | revenue is never negative, never below the model's estimate, and is either 0 or that estimate |
| LstmGuide.IterateAdd | New_ML_Models/Guide_to_use/guide.py:64-78 | predicting a + b days is predicting b days from the a-day prediction: each day's output feeds the next day |
| LstmGuide.RestockAmount | New_ML_Models/Guide_to_use/guide.py:83-88 | never negative; positive exactly when the scaled shortfall `max(0, prediction - stock) * multiplier` exceeds the stock; at most that scaled shortfall for a non-negative stock and multiplier |
| LstmGuide.RestockSubtractsStockTwice | New_ML_Models/Guide_to_use/guide.py:83-88 | with multiplier 1 and a prediction above twice the stock, the recommendation is prediction minus twice the stock |
| LstmGuide.NoRestockWhenCovered | New_ML_Models/Guide_to_use/guide.py:83-88 | nothing is reordered when the prediction does not exceed a non-negative stock |
| LstmGuide.StockForecaster.constructor | New_ML_Models/Guide_to_use/guide.py:32-52 | keeps the loaded networks, scalers and metrics |
| LstmGuide.StockForecaster.MeanAbsoluteError | New_ML_Models/Guide_to_use/guide.py:55-56 | the recorded error of a category, KeyError exactly when it has none |
| LstmGuide.StockForecaster.Predict | New_ML_Models/Guide_to_use/guide.py:58-80 | ValueError exactly for a category without a network, a result exactly for a category with one: the step iterated max(0, days) times from the last quantity, clamped at 0 |
| LstmGuide.StockForecaster.StockReorderRecommendation | New_ML_Models/Guide_to_use/guide.py:81-88 | ValueError exactly for an unknown category, a result exactly for a known one: the non-negative restock amount for the clamped multi-day prediction |
| LstmGuide.NewStockForecaster | New_ML_Models/Guide_to_use/guide.py:24-53 | succeeds exactly when the network and the scaler of each of the ten categories load and MSE.json exists and is valid JSON; then each category has the network and scaler loaded for it and the metrics are the file's numbers |
| LstmGuide.LoadNetworks | New_ML_Models/Guide_to_use/guide.py:43-47 | succeeds exactly when both files of every looped category load; then the network and scaler maps have exactly the looped categories as keys, each entry the file loaded from that category's path |
| CategoryMapping.FirstMatch | src/services/ml_prediction_service.py:186-191 | the first table entry, in table order, with a keyword occurring in the name: it matches and no earlier entry does; None exactly when no entry matches |
| CategoryMapping.MapWith | src/services/ml_prediction_service.py:170-191 | None for an empty name; otherwise the first category in table order with a lower-cased keyword occurring in the lower-cased name, and None exactly when no keyword occurs |
| CategoryMapping.NeverMapsToFallback | src/services/ml_prediction_service.py:90 | the keyword-less fallback category is never the result |
| CategoryMapping.NeverMapsToKeywordless | src/services/ml_prediction_service.py:186-191 | a category whose every table entry has no keywords is never the result |
| CategoryMapping.FallbackKeywordless | src/services/ml_prediction_service.py:90 | every entry named like the fallback has an empty keyword list |
| CategoryMapping.FirstMatchAtMost | src/services/ml_prediction_service.py:186-189 | a matching entry at position i means the first match is at i or earlier |
| CategoryMapping.KeywordAt | src/services/ml_prediction_service.py:188 | a keyword found at some position of the lower-cased name is a match |
| CategoryMapping.KeywordMapsAtMost | src/services/ml_prediction_service.py:183-189 | a name holding keyword k of entry i in any letter case maps to entry i or an earlier one |
| CategoryMapping.MapsWithinFirstTwo | src/services/ml_prediction_service.py:186-189 | a first match at position 0 or 1 names one of the first two categories |
| CategoryMapping.TableEntries | src/services/ml_prediction_service.py:72-81 | the first two entries are Sodavand and Vand, with `vand` among Vand's keywords, and entry 8 is Beverages with keyword `te` |
| CategoryMapping.VandNamesMapEarly | src/services/ml_prediction_service.py:72-73 | any name containing "vand" in any letter case maps to Sodavand or Vand |
| CategoryMapping.SpiritsNameMapsEarlier | src/services/ml_prediction_service.py:72-79 | the name of the `Øl_Vand_Spiritus` category itself maps to Sodavand or Vand, so the table does not give category names back |
| CategoryMapping.TeNamesAreMapped | src/services/ml_prediction_service.py:81 | any name containing "te" maps to some category other than the fallback |
| CategoryMapping.FallbackNameMapsEarlier | src/services/ml_prediction_service.py:81-90 | the fallback's own name `Other_Uncategorized` maps to another category |
| PredictionService.ModelTypeNamed | src/services/ml_prediction_service.py:32-56 | a name denotes the model type that carries it, and an unknown name denotes none |
| PredictionService.LoadOrNone | src/services/ml_prediction_service.py:127-135 | an artifact file yields its loaded object, or None when it is missing or fails to load |
| PredictionService.FileArtifactsKeys | src/services/ml_prediction_service.py:123-135 | the artifacts hold exactly the configured keys other than `base_path` |
| PredictionService.FileArtifactsLastWins | src/services/ml_prediction_service.py:124-135 | each key holds what the last file configured under it yields |
| PredictionService.ReadyMeansLoaded | src/services/ml_prediction_service.py:153-164 | a churn model is available exactly when anything was loaded for it, a campaign model when its regressor is not None, any other model when its `model` is not None |
| PredictionService.DirectoryReady | src/services/ml_prediction_service.py:142-149 | the demand models are available exactly when their directory exists and lists something; listing a regular file raises |
| PredictionService.CountReady | src/services/ml_prediction_service.py:973 | the number of ready models is at most the number of models |
| PredictionService.AllReadyIffCountFull | src/services/ml_prediction_service.py:972-973 | every model is ready exactly when the ready count equals the number of models |
| PredictionService.DayQuantity | src/services/ml_prediction_service.py:293-314 | a day's predicted quantity is never negative |
| PredictionService.ChainAt | src/services/ml_prediction_service.py:293-324 | day k is dated k + 1 days ahead, flagged a weekend when it falls on one, and predicted from the previous day's quantity (the first day from the baseline 50) |
| PredictionService.ChainPrefix | src/services/ml_prediction_service.py:293-324 | a shorter forecast is a prefix of a longer one |
| PredictionService.ForecastDays | src/services/ml_prediction_service.py:285-324 | no day for a non-positive count. Otherwise it succeeds exactly when the category is loadable, with the chained days made with the cached model and scaler. ValueError when the category has no model file; a model that fails to load raises its error. Cached entries are kept, and whether each category is loadable does not change |
| PredictionService.ForecastDay | src/services/ml_prediction_service.py:294-321 | succeeds exactly when the category is loadable, with the forecaster's estimate for that day's weekday, weekend flag, holiday flag and month, raised by 20% during a campaign; ValueError without a model file and the load error of a model that fails to load |
| PredictionService.FallbackBounds | src/services/ml_prediction_service.py:378-400 | a fallback quantity lies between 15 and 15 * 1.5 * 1.3 * 1.4, and each of the weekend, holiday and campaign boosts strictly raises it |
| PredictionService.FallbackForecast | src/services/ml_prediction_service.py:370-405 | one entry per forecast day (none for a non-positive count), dated from tomorrow, with the weekend flag and the fallback quantity for that day |
| PredictionService.Summarize | src/services/ml_prediction_service.py:326-345 | the total is the sum of the daily quantities; the average is the total over the days (Average: times the days it is the total), with ZeroDivisionError exactly for zero days; the peak day is the first day of largest quantity, None without days |
| PredictionService.ForecastCategoryDemand | src/services/ml_prediction_service.py:284-368 | for non-zero days, a forecast exactly when the days are negative or the category is loadable, and it is the summary of the chained days. Zero days fails with ZeroDivisionError. A missing model file is reported as no model for the category, carrying it; a model that fails to load is a failed prediction with its error |
| PredictionService.FirstStockout | src/services/ml_prediction_service.py:450-457 | the first day whose cumulative demand exceeds the stock, and None exactly when no day's does |
| PredictionService.StockoutIffTotalExceeds | src/services/ml_prediction_service.py:450-457 | with non-negative daily demand the stock runs out on some day exactly when the total demand exceeds it |
| PredictionService.Advise | src/services/ml_prediction_service.py:428-472 | the advice holds: period is lead time + 7, safety level is demand times the multiplier, reorder quantity is the non-negative shortfall and needed exactly when positive, the stockout day is the first day the cumulative demand exceeds the stock, and the urgency follows |
| PredictionService.AdviceCovers | src/services/ml_prediction_service.py:447-468 | stock plus the reorder quantity reaches the safety level; nothing is needed exactly when the stock covers it; low urgency means no reorder |
| PredictionService.ReorderUrgency | src/services/ml_prediction_service.py:468 | high exactly when a stockout date falls within three days from now; low only when nothing must be reordered |
| PredictionService.MlPredictionService.constructor | src/services/ml_prediction_service.py:28-67 | empty caches, the four configurations, and a forecaster exactly when building it does not raise |
| PredictionService.MlPredictionService.LoadModelArtifacts | src/services/ml_prediction_service.py:93-138 | a cached entry is returned unchanged; an unconfigured type raises ValueError; otherwise the bundle's or the files' artifacts are read and cached; nothing else changes |
| PredictionService.LoadFiles | src/services/ml_prediction_service.py:123-135 | the artifact loop yields the loaded object per configured key, None for a missing or unloadable file, a later key overwriting an earlier one |
| PredictionService.MlPredictionService.IsModelAvailable | src/services/ml_prediction_service.py:140-164 | demand models: their directory lists something; other types: their artifacts are loaded, cached and tested for readiness; an unknown type raises ValueError |
| PredictionService.MlPredictionService.AvailableModels | src/services/ml_prediction_service.py:955-962 | the four model types in order with their availability; a demand directory that cannot be listed raises |
| PredictionService.MlPredictionService.HealthCheck | src/services/ml_prediction_service.py:964-975 | four models are reported; the ready count counts the ready ones and equals four exactly when all are ready; the models directory is reported |
| PredictionService.MlPredictionService.ModelStemChoice | src/services/ml_prediction_service.py:204-223 | the model file chosen exists and is the item's own or its category's; an item with its own model file is served by it |
| PredictionService.MlPredictionService.ItemModelLoads | src/services/ml_prediction_service.py:225-234 | an item model is found exactly when a stem is chosen and its files load; it holds the loaded model and the scaler or None |
| PredictionService.MlPredictionService.ChooseStem | src/services/ml_prediction_service.py:199-223 | the item's own model file when it exists, else its category's when that exists, else none |
| PredictionService.MlPredictionService.LoadItemForecastModel | src/services/ml_prediction_service.py:193-234 | a cached entry is returned unchanged; otherwise the model is resolved and loaded, and cached only when loading succeeds |
| PredictionService.LoadItemPair | src/services/ml_prediction_service.py:225-234 | the item's model and scaler exactly when the model loads and the scaler loads or is absent; the scaler is then the loaded one or None |
| PredictionService.MlPredictionService.PredictDemand | src/services/ml_prediction_service.py:236-368 | not initialized exactly without a forecaster, and a missing or empty name is refused. With both, for non-zero days the outcome is a forecast exactly when the days are negative or the category is loadable; the forecast is the summary of the chained days. Zero days fails. A missing category model carries the category attempted (an unmapped name uses `Other_Uncategorized`), and a failed model load reports its error |
| PredictionService.MlPredictionService.ReorderRecommendations | src/services/ml_prediction_service.py:407-472 | forecasts lead time + 7 days without holiday or campaign. A recommendation comes exactly when that forecast succeeds: there is a forecaster and a name, the day count is not zero, and it is negative or the category is loadable. Its errors are returned as they are: not initialized, name required, zero days, no category model, a failed load. A recommendation carries the advice for the current stock over that forecast |
| CampaignGuide.LoadCampaignModels | ML_Models/Campaign_ROI_Predictor/api/campaign_predictor_api.py:16-24 | the four pickles load exactly when every one of them does, and the models hold what each loaded |
| CampaignGuide.CampaignFeatures.Values | ML_Models/Campaign_ROI_Predictor/api/campaign_predictor_api.py:90-105 | the frame has one value per training column |
| CampaignGuide.Flag | ML_Models/Campaign_ROI_Predictor/api/campaign_predictor_api.py:84-86 | a 0/1 indicator that is 1 exactly when its condition holds |
| CampaignGuide.InputFeatures | ML_Models/Campaign_ROI_Predictor/api/campaign_predictor_api.py:83-105 | the input frame: a percentage discount, a total-bill or freebie flag exactly for that campaign type, a weekend flag exactly from day 5, discount per minimum spend (0 without a positive spend) and the redemption cap per day (0 without a positive duration); duration, points, discount, minimum spend, cap, start hour, start day and start month as given |
| CampaignGuide.AverageOrderValue | ML_Models/Campaign_ROI_Predictor/api/campaign_predictor_api.py:118 | the order value is the minimum spend when positive, otherwise 100, so always positive |
| CampaignGuide.Roi | ML_Models/Campaign_ROI_Predictor/api/campaign_predictor_api.py:127 | 0 when the discount costs nothing; otherwise the net revenue per unit of cost in percent, non-negative exactly when the net revenue is |
| CampaignGuide.Metrics | ML_Models/Campaign_ROI_Predictor/api/campaign_predictor_api.py:117-138 | the revenue is redemptions times the order value; the cost follows the percentage-or-fixed rule; net revenue and ROI follow; LAUNCH exactly when the success probability exceeds 0.5 and redemptions exceed 5, otherwise OPTIMIZE |
| CampaignGuide.PercentageDiscountKeepsNetRevenue | ML_Models/Campaign_ROI_Predictor/api/campaign_predictor_api.py:121-127 | a percentage discount below 100 leaves net revenue and ROI non-negative |
| CampaignGuide.CostBelowRevenue | ML_Models/Campaign_ROI_Predictor/api/campaign_predictor_api.py:121-122 | a percentage discount below 100 costs between nothing and the whole revenue |
| CampaignGuide.FixedDiscountAboveOrderValueLoses | ML_Models/Campaign_ROI_Predictor/api/campaign_predictor_api.py:123-126 | a fixed discount above the order value makes net revenue negative once anything is redeemed |
| CampaignGuide.PredictCampaign | ML_Models/Campaign_ROI_Predictor/api/campaign_predictor_api.py:31-80 | a model that fails to load aborts the prediction; otherwise the prediction with the loaded models |
| CampaignGuide.PredictWith | ML_Models/Campaign_ROI_Predictor/api/campaign_predictor_api.py:107-138 | a result exactly when the feature list is a list of names all present in the input frame, KeyError otherwise; predicted redemptions are the regressor's output on the scaled selected columns clamped at 0, the success probability the classifier's probability on them, and the metrics derive from the two |
| CampaignGuide.PredictRow | ML_Models/Campaign_ROI_Predictor/api/campaign_predictor_api.py:170-176 | a row without duration, discount or minimum spend raises KeyError; otherwise the prediction for the row's values with points defaulting to 150, the cap to 100, and the type `total_bill`, hour 12, day 0 and month 1; redemptions are never negative |
| CampaignGuide.PredictMultipleCampaigns | ML_Models/Campaign_ROI_Predictor/api/campaign_predictor_api.py:145-180 | one prediction per row in row order when every row succeeds; otherwise the exception of the first row that raises |
| CampaignGuide.PredictEach | ML_Models/Campaign_ROI_Predictor/api/campaign_predictor_api.py:168-177 | the batch loop: every row's prediction in order, or the first row's exception |
| CampaignGuide.FindOptimalDiscount | ML_Models/Campaign_ROI_Predictor/api/campaign_predictor_api.py:187-246 | succeeds exactly when all ten trials do; reports the first discount among 5, 10, ..., 50 of least distance to the target, with that trial's figures; otherwise an exception of one of the trials |
| CampaignGuide.SearchDiscounts | ML_Models/Campaign_ROI_Predictor/api/campaign_predictor_api.py:223-246 | the search: first exception wins; otherwise the first trial of least distance, each later one replacing it only when strictly closer |
| ModelPredictions.Artifact | src/services/ml_prediction_service.py:499 | `artifacts[key]`: the value exactly when the key is present, KeyError otherwise |
| ModelPredictions.SelectedFeatures | src/services/ml_prediction_service.py:527-528 | the frame's columns in the order of the artifacts' feature list; KeyError for a missing list or column |
| ModelPredictions.ScaledInput | src/services/ml_prediction_service.py:527-531 | the scaler's transform of the selected features; KeyError for a missing list, column or scaler and AttributeError exactly for a None scaler |
| ModelPredictions.SelectOwnColumns | src/services/ml_prediction_service.py:834-836 | selecting a frame's own distinct columns gives its values back in order |
| ModelPredictions.CampaignFrameSelectsOwnColumns | src/services/ml_prediction_service.py:509-528 | with the frame's own column list as features, the model sees the campaign values in training order |
| ModelPredictions.CashierFrameSelectsOwnColumns | src/services/ml_prediction_service.py:811-836 | with the frame's own column list as features, the model sees the twenty cashier features in order |
| ModelPredictions.CampaignFrame | src/services/ml_prediction_service.py:507-524 | the campaign frame: a freebie exactly when points are offered without a discount, a weekend flag exactly from weekday 5, zero redemptions, and the discount per minimum spend counted as at least 1 |
| ModelPredictions.CampaignWith | src/services/ml_prediction_service.py:497-569 | not ready exactly when the regressor is None; otherwise the regressor's redemptions and the classifier's success probability on the scaled frame, with the success flag, action and confidence drawn from that probability; KeyError or AttributeError for missing or None artifacts |
| ModelPredictions.CampaignLabelsAgree | src/services/ml_prediction_service.py:538-567 | a launched campaign is reported successful and a revised one is not; success means at least 50%; high confidence means more than 30 points from 50% |
| ModelPredictions.Evaluate | src/services/ml_prediction_service.py:607-615 | the optimizer's view of a prediction: exceptions propagate, a campaign that is not ready is skipped, a prediction yields its redemptions and success percentage |
| ModelPredictions.OptimumIsBestCampaign | src/services/ml_prediction_service.py:596-637 | every grid campaign is predicted and scores at most the best score; the parameters kept are a grid point within the maximum discount, and their figures are that point's prediction |
| ModelPredictions.ChurnInput | src/services/ml_prediction_service.py:683-686 | the four churn features, scaled exactly when a scaler is present and not None |
| ModelPredictions.ChurnWith | src/services/ml_prediction_service.py:664-741 | not ready for empty artifacts or no model entry; a None model is a prediction error (AttributeError); otherwise the probability and the urgency, churn flag, retention cost and engagement level drawn from it |
| ModelPredictions.ChurnAssessmentAgrees | src/services/ml_prediction_service.py:700-734 | a customer predicted to churn is never low urgency; a critical one always churns; churn means at least 50%; costs 50 and 10 mark critical and low urgency |
| ModelPredictions.CashierFeatures.Values | src/services/ml_prediction_service.py:811-832 | the frame has one value per cashier column |
| ModelPredictions.CashierWith | src/services/ml_prediction_service.py:802-901 | not ready exactly when the model is None; otherwise the score of the scaled frame with its level, alert, action flag and the reported figures (transactions truncated, average per transaction at least 1); KeyError or AttributeError for missing or None artifacts |
| ModelPredictions.CashierAssessmentAgrees | src/services/ml_prediction_service.py:851-888 | a shift requires action exactly from a score of 0.5, and is an immediate investigation exactly from 0.8 |
| PredictionService.MlPredictionService.PredictCampaignPerformance | src/services/ml_prediction_service.py:478-569 | the campaign prediction made with the campaign artifacts, loaded and cached first when needed; nothing else changes |
| PredictionService.MlPredictionService.OptimizeCampaignParameters | src/services/ml_prediction_service.py:571-637 | KeyError without a regressor entry, not ready for a None regressor, otherwise the grid fold's best campaign or its exception; only the campaign cache can change |
| PredictionService.MlPredictionService.PredictCustomerChurn | src/services/ml_prediction_service.py:643-741 | the churn assessment made with the churn artifacts, loaded and cached first when needed |
| PredictionService.MlPredictionService.DetectCashierAnomalies | src/services/ml_prediction_service.py:747-901 | the shift assessment made with the cashier artifacts, loaded and cached first when needed |
| PredictionLabels.RecommendCampaign | src/services/ml_prediction_service.py:538-549 | LAUNCH exactly from probability 0.7 and 20 redemptions; LAUNCH WITH MONITORING exactly otherwise from 0.5 and 15; REVISE exactly below 0.3; TEST SMALL SCALE exactly for the rest |
| PredictionLabels.RecommendationMonotone | src/services/ml_prediction_service.py:538-549 | a higher success probability and more redemptions never weaken the recommendation |
| PredictionLabels.Confidence | src/services/ml_prediction_service.py:567 | high exactly when the probability is above 0.8 or below 0.2, else medium |
| PredictionLabels.LaunchesAreSuccessful | src/services/ml_prediction_service.py:538-556 | both launch recommendations imply success, and a revision implies failure |
| PredictionLabels.ChurnUrgency | src/services/ml_prediction_service.py:700-719 | critical exactly from 0.7, high exactly from 0.4 below 0.7, low exactly below 0.4 |
| PredictionLabels.RetentionCost | src/services/ml_prediction_service.py:734 | the retention cost is 10, 25 or 50 |
| PredictionLabels.ChurnLabelsAgree | src/services/ml_prediction_service.py:700-734 | a predicted churn is never low urgency, critical urgency means churn, and the cost never falls as the probability rises |
| PredictionLabels.Engagement | src/services/ml_prediction_service.py:721 | points per minute waited, the wait counted as at least one minute |
| PredictionLabels.EngagementLevel | src/services/ml_prediction_service.py:737 | high exactly above 100, medium exactly above 50 up to 100, low exactly up to 50 |
| PredictionLabels.CashierRiskLevel | src/services/ml_prediction_service.py:851-878 | critical exactly from 0.8, high exactly from 0.5, medium exactly from 0.3, low exactly below 0.3 |
| PredictionLabels.CashierLabelsAgree | src/services/ml_prediction_service.py:851-888 | action is required exactly from a score of 0.5, and a higher score never lowers the level |
| PredictionLabels.AverageTransaction | src/services/ml_prediction_service.py:898 | the total per transaction, the count taken as at least one |
| CampaignOptimizer.GridIsFilteredProduct | src/services/ml_prediction_service.py:600-605 | exactly the points of durations x offers x discounts x spends whose discount does not exceed the maximum are evaluated |
| CampaignOptimizer.SmallMaximumEmptiesGrid | src/services/ml_prediction_service.py:602-604 | a maximum discount below 10 leaves no point to evaluate |
| CampaignOptimizer.SpendMembers | src/services/ml_prediction_service.py:605 | the innermost loop visits exactly the listed minimum spends |
| CampaignOptimizer.DiscountMembers | src/services/ml_prediction_service.py:602-605 | the discount loop visits exactly the listed discounts up to the maximum, each with every spend |
| CampaignOptimizer.OfferMembers | src/services/ml_prediction_service.py:601-605 | the offer loop visits exactly the listed offers with every allowed discount and spend |
| CampaignOptimizer.DurationMembers | src/services/ml_prediction_service.py:600-605 | the duration loop visits exactly the listed durations with every offer, allowed discount and spend |
| CampaignOptimizer.FoldIsFirstArgmax | src/services/ml_prediction_service.py:596-630 | the search raises exactly when some evaluation raises (a zero target included); otherwise no predicted point scores above the best, the best stays -1 with no parameters exactly when nothing beats it, and the kept parameters are the first point that reaches the best score |
| CampaignOptimizer.RaisedIsFinal | src/services/ml_prediction_service.py:607-609 | once an evaluation raises, later points change nothing |
| CampaignOptimizer.FoldAppend | src/services/ml_prediction_service.py:605-630 | evaluating one more point is one more step of the search |
| CampaignOptimizer.SearchGrid | src/services/ml_prediction_service.py:596-630 | the nested loops compute the search over the whole grid in loop order |
| CampaignOptimizer.SearchSpends | src/services/ml_prediction_service.py:605-630 | the innermost loop continues the search over every minimum spend of one duration, offer and discount |
| MlRoutes.MissingFields | src/api/ml_routes.py:285 | `[f for f in required if f not in data]`: never more fields than required |
| MlRoutes.MissingFieldsExact | src/api/ml_routes.py:285-291 | the missing fields are exactly the required ones the body lacks, and none are missing exactly when the body has them all |
| MlRoutes.MissingFieldsInOrder | src/api/ml_routes.py:285 | the missing fields are listed in the order of the required list |
| MlRoutes.CashierFieldsCoverColumns | src/api/ml_routes.py:546-556 | a body with every required cashier field holds every model column |
| MlRoutes.ColumnValues | src/api/ml_routes.py:566-589 | the body's values of the named fields, in order |
| MlRoutes.FeaturesOf | src/api/ml_routes.py:566-589 | the shift features whose column values are the given ones |
| MlRoutes.ShiftFeatures | src/api/ml_routes.py:566-589 | each model column of the shift takes the body's value under that name |
| MlRoutes.CampaignReply | src/api/ml_routes.py:280-308 | 400 exactly when a required field is missing, with the message listing them; otherwise the service's outcome, an exception becoming 500 |
| MlRoutes.ChurnReply | src/api/ml_routes.py:415-447 | 400 exactly when a required field is missing, with the message listing them; otherwise the churn outcome, an exception becoming 500 |
| MlRoutes.CashierReply | src/api/ml_routes.py:542-598 | 400 exactly when a required field is missing, with the message listing them; otherwise the shift assessment, an exception becoming 500 |
| MlRoutes.CallCampaign | src/api/ml_routes.py:294-299 | the campaign service call on the body's fields; the artifacts it sees stay the same |
| MlRoutes.CallChurn | src/api/ml_routes.py:432-438 | the churn service call on the body's fields; the artifacts it sees stay the same |
| MlRoutes.CallCashier | src/api/ml_routes.py:566-589 | the cashier service call on the body's fields; the artifacts it sees stay the same |
| MlRoutes.PredictCampaign | src/api/ml_routes.py:267-308 | the campaign endpoint's reply, on the artifacts the service had or loads |
| MlRoutes.PredictChurnRisk | src/api/ml_routes.py:398-447 | the churn endpoint's reply |
| MlRoutes.DetectCashierRisk | src/api/ml_routes.py:511-598 | the cashier endpoint's reply |
| MlRoutes.CampaignEntryOutcome | src/api/ml_routes.py:360-375 | a campaign lacking a field is a KeyError entry; otherwise its prediction |
| MlRoutes.BestCampaignIsFirstMax | src/api/ml_routes.py:377-388 | there is no best campaign exactly when none succeeded; otherwise the best is a successful entry of maximal success probability, and the first such in input order |
| MlRoutes.NoBestCampaign | src/api/ml_routes.py:377-388 | there is no best campaign exactly when no entry succeeded |
| MlRoutes.BestCampaignWins | src/api/ml_routes.py:377-388 | a best campaign is a successful entry of largest success probability, strictly above every earlier successful entry |
| MlRoutes.BatchPredictCampaigns | src/api/ml_routes.py:340-392 | 400 without a campaigns list; otherwise one entry per campaign in input order with its index and outcome, and the head of the successful ones sorted by success probability |
| MlRoutes.ChurnEntryOutcome | src/api/ml_routes.py:475-484 | keyword binding raises TypeError unless the keys are exactly the parameters; otherwise the churn prediction |
| MlRoutes.HighRiskCustomersExactly | src/api/ml_routes.py:486-494 | the high-risk list holds exactly the assessed predictions of at least 50%, each as often as the batch does, highest probability first |
| MlRoutes.BatchPredictChurn | src/api/ml_routes.py:449-505 | 400 without a customers list; otherwise one prediction per customer in input order, the high-risk list and its count |
| MlRoutes.CashierEntryOutcome | src/api/ml_routes.py:670-680 | keyword binding raises TypeError unless the keys are exactly the parameters; otherwise the detection |
| MlRoutes.CriticalRisksExactly | src/api/ml_routes.py:682-690 | the critical list holds exactly the assessed shifts at a critical or high level, each as often as the batch does, highest score first, all requiring action |
| MlRoutes.BatchDetectCashierRisk | src/api/ml_routes.py:644-701 | 400 without a shifts list; otherwise one detection per shift in input order, the critical list and its count |
| MlRoutes.OptimizeCall | src/services/ml_prediction_service.py:588-637 | ValueError when the type is not configured, KeyError without a regressor entry, not ready exactly for a None regressor, otherwise the grid search's result |
| MlRoutes.OptimizeCampaign | src/api/ml_routes.py:310-338 | the optimization for the body's target (25 by default) and discount cap (30 by default), an exception becoming 500 |
| MlRoutes.DemandEntryFitsGrows | src/api/ml_routes.py:229-252 | a forecast still fits once the model caches have grown around it |
| MlRoutes.PredictItemDemand | src/api/ml_routes.py:76-147 | 400 exactly without item_id; 404 exactly for an unknown item; a service error becomes 400 and carries the service outcome. With a forecaster, a 200 comes exactly when the item's title is non-empty, the days (7 by default) are not zero, and they are negative or the category is loadable; a missing model file gives the no-category-model error; the reply holds the item's row |
| MlRoutes.AdviseFitting | src/services/ml_prediction_service.py:407-472 | not initialized without a forecaster; a name is required. A recommendation comes exactly when the item is servable over lead time + 7 days, and it is the advice over a forecast that fits the caches. Zero days and a missing model file give their errors |
| MlRoutes.ReorderRecommendationsRoute | src/api/ml_routes.py:149-210 | 400 exactly without item_id, 400 exactly without current_stock; an unknown item yields the name-required error. With a forecaster, a 200 comes exactly when the item is servable over lead time (3 by default) + 7 days; zero days and a missing model file are rejected with those errors. A reply is the advice with multiplier 1.2 by default |
| MlRoutes.PredictFitting | src/api/ml_routes.py:241-246 | predict_demand for one item: the caches keep every entry and the outcome fits them; a forecast comes exactly when the item was servable; a missing model file gives the no-category-model error; whether each category is loadable does not change |
| MlRoutes.ForecastItem | src/api/ml_routes.py:230-252 | one bulk item: earlier outcomes keep fitting the grown caches; each outcome, earlier or new, is a forecast exactly when its item is servable |
| MlRoutes.BulkForecastDemand | src/api/ml_routes.py:212-261 | 400 without an item_ids list. Otherwise one outcome per id in input order, over 7 days by default, without holiday or campaign. Each outcome fits its item's title, and it is a forecast exactly when that item was servable at the start of the request |
| InventoryRoutes.NoPlaceholders | src/api/routes.py:156 | a text without `?` binds no parameter |
| InventoryRoutes.PlaceholdersAppend | src/api/routes.py:199-211 | the placeholders of joined texts add up |
| InventoryRoutes.OnePlaceholder | src/api/routes.py:143 | a text ending in its only `?` binds one parameter |
| InventoryRoutes.PageCount | src/api/routes.py:68 | `(total + per_page - 1) // per_page` raises ZeroDivisionError exactly when `per_page` is 0 |
| InventoryRoutes.PageCountIsCeiling | src/api/routes.py:68 | the page count is the fewest pages of `per_page` rows that hold all rows, 0 without rows |
| InventoryRoutes.PagesCoverRows | src/api/routes.py:46-68 | every row lies on a page between 1 and the page count, inside that page's offset window |
| InventoryRoutes.Paginate | src/api/routes.py:22-23 | page defaults to 1 and `per_page` to 50; the reply's page count is the ceiling division, raising exactly for a zero `per_page` |
| InventoryRoutes.DefaultPagination | src/api/routes.py:22-23 | without arguments a listing starts at row 0 and counts the ceiling of total / 50 pages |
| InventoryRoutes.ItemClauses | src/api/routes.py:31-37 | no clause exactly when there is no search text and no non-zero place id |
| InventoryRoutes.TwoPlaceholders | src/api/routes.py:32 | a text with exactly two `?` binds two parameters |
| InventoryRoutes.SearchClausePlaceholders | src/api/routes.py:32-33 | the search clause binds two parameters |
| InventoryRoutes.PlaceClausePlaceholders | src/api/routes.py:36-37 | the place clause binds one parameter |
| InventoryRoutes.ItemFilter | src/api/routes.py:28-39 | `1=1` exactly without filters, else the clauses joined by AND; the WHERE text binds as many placeholders as there are parameters: the `%search%` pattern twice, then the place id |
| InventoryRoutes.OrderConditionPlaceholders | src/api/routes.py:198-212 | each order condition binds one parameter |
| InventoryRoutes.OrderFilter | src/api/routes.py:196-212 | the condition text is the status, place, start and end conditions in that order, each present exactly when its argument is given. They bind exactly the parameters listed, in that order. There is no condition exactly when there is no parameter |
| InventoryRoutes.FilterPresent | src/api/routes.py:141-142 | every field kept by the `field in data` test is a key of the body |
| InventoryRoutes.UpdatedFields | src/api/routes.py:139-144 | at most the seven allowed fields, each a key of the body |
| InventoryRoutes.UpdatedFieldsExactly | src/api/routes.py:139-144 | the updated fields are exactly the allowed fields the body holds, in allow-list order |
| InventoryRoutes.UpdatedFieldsPlain | src/api/routes.py:139-144 | no updated field holds a `?` |
| InventoryRoutes.SetClausePlaceholders | src/api/routes.py:143 | one placeholder per SET clause |
| InventoryRoutes.UpdatePrefixPlaceholders | src/api/routes.py:156 | the statement's prefix and separator bind nothing |
| InventoryRoutes.UpdateSuffixPlaceholders | src/api/routes.py:150-156 | the timestamp clause and the id test bind one parameter each |
| InventoryRoutes.JoinPlaceholders | src/api/routes.py:156 | joining with a separator free of `?` keeps the parts' placeholders |
| InventoryRoutes.StatementPlaceholders | src/api/routes.py:139-156 | the statement binds one placeholder per updated field, plus the timestamp and the id |
| InventoryRoutes.ClausesPlaceholders | src/api/routes.py:139-156 | a `?`-free prefix, the SET clauses of the fields plus one more clause joined by a `?`-free separator, and a suffix bind one placeholder per field plus those of the last clause and the suffix |
| InventoryRoutes.UpdateStep | src/api/routes.py:141-144 | one loop step keeps clauses and values aligned with the fields kept so far |
| InventoryRoutes.UpdateItem | src/api/routes.py:129-157 | 400 "No valid fields to update" exactly when the body has no allowed field; otherwise the UPDATE of those fields and the timestamp for the item, whose parameters are the body's values, the time and the id, one per placeholder |
| InventoryRoutes.FlatForecast | src/api/routes.py:424-430 | one entry per day ahead, each predicting the mean |
| InventoryRoutes.FlatForecastTotal | src/api/routes.py:421-444 | the forecast totals the mean times the days |
| InventoryRoutes.ForecastDemand | src/api/routes.py:388-449 | 400 exactly without a non-zero item_id; 404 exactly without history; a missing row (AttributeError) or NULL stock (TypeError) is a 500; otherwise the mean over every day from tomorrow, a reorder exactly when the stock is below mean x days, suggesting 1.2 times that |
| InventoryRoutes.AdviceCoversForecast | src/api/routes.py:421-444 | a reorder is needed exactly when the stock is below the forecast's total, and for a non-negative history the suggestion covers that total |
| Lists.Filter | src/api/ml_routes.py:285 | a comprehension filter keeps at most the input's elements |
| Lists.FilterMembers | src/api/ml_routes.py:378 | the filtered list holds exactly the kept elements, each as often as the input does |
| Lists.FilterBounded | src/api/routes.py:141-144 | a bound on every input key bounds every kept key |
| Lists.FilterAll | src/api/routes.py:141-144 | a property of every input element holds of every kept element |
| Lists.FilterIncreasing | src/api/routes.py:141-144 | filtering keeps the input order of an increasing key |
| Lists.FilterInOrder | src/api/routes.py:141-144 | filtering a list without repeats keeps its elements in input order |
| Lists.Position | src/api/routes.py:136-137 | `list.index`: the first position of an element, or the length when absent |
| Lists.SumNonNegative | src/services/ml_prediction_service.py:327 | a sum of non-negative quantities is non-negative |
| Lists.SumMonotone | src/services/ml_prediction_service.py:451-457 | a running total of non-negative quantities never decreases |
| Lists.SumBounded | src/api/routes.py:421 | element bounds bound the sum by the count times each bound |
| Lists.MeanBounded | src/api/routes.py:421 | the mean of a non-empty column lies between any bounds on its elements |
| Lists.Insert | src/api/ml_routes.py:379-382 | inserting keeps every element and adds one |
| Lists.InsertSorted | src/api/ml_routes.py:379-382 | inserting into a descending list keeps it descending |
| Lists.SortDescending | src/api/ml_routes.py:379-382 | `sort(key=..., reverse=True)` is a permutation of its input in non-increasing key order |
| Lists.FirstMaxIndex | src/services/ml_prediction_service.py:344 | `max(..., key=...)` picks an element of largest key, the first such |
| Lists.SortHeadIsFirstMax | src/api/ml_routes.py:388 | the head of the stable descending sort is the first element of largest key |
| Lists.FilterSorted | src/api/ml_routes.py:378-382 | filter then sort yields at most the input's elements |
| Lists.FilterSortedMembers | src/api/ml_routes.py:487-494 | filtering then sorting keeps exactly the kept elements with their multiplicities, in non-increasing key order |
| Lists.FilterSortedHead | src/api/ml_routes.py:378-388 | the head of the filtered and sorted list is kept, of largest key among the kept elements, and ahead of every earlier kept element of that key |
| Lists.FirstMaxBeatsEarlier | src/api/ml_routes.py:381-388 | with positions increasing along a list, its first element of largest key is strictly above every element at an earlier position |
| Lists.FilterKeeps | src/api/ml_routes.py:378 | an element is in the filtered list exactly when it is in the input and kept |
| Text.LowerChar | src/services/ml_prediction_service.py:183 | `str.lower` on one character of the modelled range: ASCII capitals and the Latin-1 capitals U+00C0-U+00DE other than `×` move up by 32, every other character is kept |
| Text.Lower | src/services/ml_prediction_service.py:183 | lower-casing maps each character on its own, so it keeps the length within the modelled range |
| Text.LowerSlice | src/services/ml_prediction_service.py:188 | lower-casing commutes with slicing |
| Text.LowerIdempotent | src/services/ml_prediction_service.py:183 | lower-casing twice is lower-casing once |
| Text.OccursAt | src/services/ml_prediction_service.py:188 | `p in s` holds when p is found at some position |
| Text.Join | src/api/routes.py:39 | `str.join` of no parts is empty, and of one part is that part |
| Text.Count | src/api/routes.py:156 | a character occurs at most as often as the text is long |
| Text.CountAppend | src/api/routes.py:156 | counts add up over concatenation |
| Text.CountAbsent | src/api/routes.py:156 | an absent character is counted zero times |
| Text.CountJoin | src/api/routes.py:39 | a joined text holds the parts' occurrences plus one per separator |
| Text.SumCountsAppend | src/api/routes.py:139-144 | the occurrence total over parts adds up over concatenation |
| Numbers.Max0 | ML_Models/Campaign_ROI_Predictor/api/campaign_predictor_api.py:114 | `max(0, x)` is at least 0 and x, and is one of them |
| Numbers.Abs | src/services/ml_prediction_service.py:618 | `abs` is non-negative and is x or -x |
| Numbers.Trunc | src/services/ml_prediction_service.py:897 | `int(x)` truncates towards zero |
| Numbers.FloorDiv | src/api/routes.py:68 | `//` rounds the quotient towards minus infinity |
| Wrappers.Option.OrElse | src/api/ml_routes.py:114 | `dict.get(key, default)`: the value when present, the default otherwise |
| Replies.ReplyOf | src/api/ml_routes.py:303-308 | a returned value becomes a 200 reply, an escaped exception a 500 |
| Environment.FileSystem.Load | src/services/ml_prediction_service.py:127-135 | `joblib.load` succeeds exactly on a stored object |
| Environment.Zip | src/services/ml_prediction_service.py:811-832 | the one-row frame pairs each name with its value |
| Environment.Lookup | src/services/ml_prediction_service.py:103 | `d.get(key)` on the items of a dictionary or a frame row: None exactly when no item has the key, otherwise the value of an item with that key |
| Environment.LookupOr | ML_Models/Campaign_ROI_Predictor/api/campaign_predictor_api.py:172 | `d.get(key, default)`: the value under the key when present, the default otherwise |
| Environment.SelectColumns | src/services/ml_prediction_service.py:836 | `frame[columns]`: the values of the columns in the order given, KeyError exactly when one is missing |
| Environment.Values | src/services/ml_prediction_service.py:686 | `frame.values` in column order |

## Left out

- Truthiness: `if scaler:` is modelled by `Environment.Truthy`, which takes None and empty lists and dictionaries as false and every other artifact as true. A deserialised object whose class defines its own truth value is not modelled.
- Rounding: `round(x, n)` is not modelled. Every reported figure is the unrounded value, and every comparison and sort the source makes on a rounded figure is made on the unrounded one: the discount search's distance to the target (`CampaignGuide.FindOptimalDiscount`, `CampaignGuide.SearchDiscounts`, on redemptions rounded by `round(·, 1)`), the optimizer's score and its choice of the best grid point (`CampaignOptimizer.Fold`, `PredictionService.MlPredictionService.OptimizeCampaignParameters`, on `round(·, 1)` values), the batch best campaign (`MlRoutes.BestCampaignIsFirstMax`, sorted on the rounded success probability), the churn `>= 50` filter and its sort (`MlRoutes.HighRiskCustomersExactly`, on `round(p·100, 1)`), and the critical-risk sort (`MlRoutes.CriticalRisksExactly`, on `round(score, 3)`). Where two figures differ only below the rounding, the source can keep an entry the model drops or pick a different first entry: for instance a churn probability of 0.49996 reports 50.0 and is high-risk in the source, but not in the model, and two discounts whose predicted redemptions round to the same figure tie in the source, which keeps the earlier one, while the model may take the later one. The campaign recommendation thresholds, `is_successful` and the confidence label compare unrounded values in the source too, so they agree with the model.
- Text.LowerChar: `str.lower` is modelled for ASCII and Latin-1 capitals only. Other Unicode capitals are kept as they are; Python lower-cases them, so a name with, say, the Kelvin sign U+212A maps in Python to a keyword the model misses.
- Text.Lower: lower-casing that changes the length (such as 'İ' becoming two characters) is not modelled; the model keeps every character as one character.
- Files: a regular file's path never ends in '/' (`Environment.Disk`), as on the operating systems the code runs on; `os.path.exists` on such a path is true only for a directory.
- Floating point: numbers are exact reals and unbounded integers, so NaN, infinities and overflow do not arise. Python's `int()` truncation and `//` flooring are modelled explicitly.
- Trained models, scalers and networks: their numeric outputs are arbitrary functions (`Environment.Runtime`). Every artifact is assumed to support the method the code calls on it, apart from the None checks the code makes.
- Files: deserialisation, `os.listdir` order and JSON parsing are values supplied by `Environment.Disk`. A failed deserialisation always raises `LoadError`, which is not a ValueError. A deserialiser that raised ValueError on a corrupt model file would make predict_demand report no category model (its `except ValueError`) where the model reports a failed prediction.
- CategoryForecaster.NewStockForecaster: MSE.json is assumed to hold a JSON object of numbers when it is valid JSON. Other valid JSON (a list, or an object with strings or nested objects) loads in the source and fails only later: `errors.get` raises AttributeError on a list, and a string formatted with `:.2f` inside predict_demand raises ValueError. That JSON is not modelled.
- LstmGuide.NewStockForecaster: the same assumption on MSE.json; other valid JSON loads in the source, fails only when a metric is used, and is not modelled.
- The clock: `datetime.now()`, date arithmetic and formatting come from the `Clock` value, and the UPDATE timestamp is the `now` parameter.
- Date parsing: `datetime.fromisoformat` on the order filters' dates is replaced by the already converted timestamps. A malformed date, which would raise, is not modelled.
- Queries: executing SQL, `LIMIT`/`OFFSET` and the rows a query yields are not modelled. The row count, the history of daily quantities and the item rows are parameters.
- Request parsing: query arguments with `type=int` are `Option<int>`. The optimizer's `target_redemptions` is taken as an integer (`MlRoutes.OptimizeCampaign`, as the service's `int` annotation says), although a JSON body may carry a fractional target that the source's score divides by. A JSON body is a map to numbers, so non-numeric JSON values and a missing JSON body are not modelled.
- Endpoints outside the modelled core: `get_item`, the low-stock, order-detail, analytics and dashboard queries of `routes.py`, the cashier CSV lookup (`get_cashier_risk_from_csv` and its route), and the placeholder history and retrain endpoints are not modelled.
- Static reply text: messages, recommended-action lists, reasons, printed logs and the health endpoint's fixed strings are not modelled. Each outcome is a datatype constructor instead.
- Unused parameters: `price`, `is_weekend` and `budget_per_redemption` are accepted by the code but affect no result, so they are dropped. The ids echoed into replies (`item_id`, `customer_id`, `cashier_id`, `shift_date`) are not modelled either.
- Concurrency: the service object is modelled for one request at a time.
- Model types are a datatype. Names other than the four configured ones are mapped by `PredictionService.ModelTypeNamed`.
- Frame concatenation: `CampaignGuide.PredictMultipleCampaigns` returns the predictions without pasting them beside the input frame's columns.
- CampaignOptimizer.SearchGrid: an exception raised inside the grid is modelled as a final state that skips the remaining points. Python unwinds at once, with the same observable result.
- PredictionService.MlPredictionService.HealthCheck: the report's fixed `service` and `status` strings are not stated.
