/** The category-based demand forecaster and the revenue predictor of the
    stock-forecaster guide module: artifact caching, the feature-row layouts
    and the non-negative clamp. */
module CategoryForecaster {
  import opened Wrappers
  import opened Environment
  import opened Numbers
  import Text
  import Lists

  const JOBLIB := ".joblib"

  predicate EndsWith(s: string, suffix: string) {
    |suffix| <= |s| && s[|s| - |suffix|..] == suffix
  }

  /** `s.split(sep)[0]`: the part of `s` before the first occurrence of `sep`
      (all of `s` when `sep` does not occur). */
  function BeforeFirst(s: string, sep: string): (r: string)
    requires |sep| > 0
    ensures |r| <= |s| && r == s[..|r|]
    ensures forall k :: 0 <= k < |r| ==> !Text.IsPrefix(sep, s[k..])
    ensures r == s || Text.IsPrefix(sep, s[|r|..])
  {
    if Text.IsPrefix(sep, s) then ""
    else if s == [] then ""
    else
      var rest := BeforeFirst(s[1..], sep);
      assert forall k :: 1 <= k <= |s| ==> s[k..] == s[1..][k - 1..];
      [s[0]] + rest
  }

  /** A name without a '.' is given back by splitting it off its '.joblib'
      file name: the stems listed for `Beverages.joblib` is `Beverages`. */
  lemma {:induction false} StemOfFileName(c: string)
    requires '.' !in c
    ensures BeforeFirst(c + JOBLIB, JOBLIB) == c
  {
    if c == [] {
      assert Text.IsPrefix(JOBLIB, [] + JOBLIB);
    } else {
      assert (c + JOBLIB)[0] == c[0] != '.';
      assert !Text.IsPrefix(JOBLIB, c + JOBLIB);
      assert (c + JOBLIB)[1..] == c[1..] + JOBLIB;
      StemOfFileName(c[1..]);
    }
  }

  predicate IsJoblib(f: string) {
    EndsWith(f, JOBLIB)
  }

  /** `[f.split('.joblib')[0] for f in listing if f.endswith('.joblib')]`:
      one stem per '.joblib' file of the listing, in listing order. */
  function JoblibStems(listing: seq<string>): (r: seq<string>)
    ensures |r| == |Lists.Filter(listing, IsJoblib)| <= |listing|
    ensures forall i :: 0 <= i < |r| ==> r[i] == BeforeFirst(Lists.Filter(listing, IsJoblib)[i], JOBLIB)
  {
    if listing == [] then []
    else
      var n := |listing| - 1;
      JoblibStems(listing[..n]) + if IsJoblib(listing[n]) then [BeforeFirst(listing[n], JOBLIB)] else []
  }

  /** Every stem comes from a listed '.joblib' file, and every listed
      '.joblib' file gives its stem. */
  lemma {:induction false} JoblibStemsMembers(listing: seq<string>)
    ensures forall c :: c in JoblibStems(listing) <==>
      exists f :: f in listing && IsJoblib(f) && c == BeforeFirst(f, JOBLIB)
  {
    var r := JoblibStems(listing);
    var kept := Lists.Filter(listing, IsJoblib);
    Lists.FilterMembers(listing, IsJoblib);
    forall c | c in r
      ensures exists f :: f in listing && IsJoblib(f) && c == BeforeFirst(f, JOBLIB)
    {
      var i :| 0 <= i < |r| && r[i] == c;
      assert kept[i] in kept;
    }
    forall f | f in listing && IsJoblib(f)
      ensures BeforeFirst(f, JOBLIB) in r
    {
      assert f in kept;
      var i :| 0 <= i < |kept| && kept[i] == f;
      assert r[i] == BeforeFirst(f, JOBLIB);
    }
  }

  /** The feature row given to a category model: `[month, qty]` for a model
      trained on two features, otherwise `[day_of_week, is_weekend,
      is_holiday, month, qty]`, where a missing weekday is today's, a missing
      weekend flag follows the weekday and a missing holiday flag is 0. */
  function FeatureRow(nFeatures: int, month: int, qtyScaled: real, dayOfWeek: Option<int>,
                      isWeekend: Option<int>, isHoliday: Option<int>, todayWeekday: int): (row: seq<real>)
    ensures |row| == (if nFeatures == 2 then 2 else 5)
    ensures row[|row| - 1] == qtyScaled && row[|row| - 2] == month as real
    ensures nFeatures != 2 ==>
      var dow := if dayOfWeek.Some? then dayOfWeek.value else todayWeekday;
      && row[0] == dow as real
      && row[1] == (if isWeekend.Some? then isWeekend.value as real else if dow >= 5 then 1.0 else 0.0)
      && row[2] == (if isHoliday.Some? then isHoliday.value as real else 0.0)
  {
    if nFeatures == 2 then [month as real, qtyScaled]
    else
      var dow := if dayOfWeek.Some? then dayOfWeek.value else todayWeekday;
      var weekend := if isWeekend.Some? then isWeekend.value else if dow >= 5 then 1 else 0;
      var holiday := if isHoliday.Some? then isHoliday.value else 0;
      [dow as real, weekend as real, holiday as real, month as real, qtyScaled]
  }

  /** One prediction with a loaded model and scaler: scale the last quantity
      (unless there is no scaler or it is a false value such as None), assemble the row for the model's feature
      count (5 when the model does not say), predict, and clamp at 0. */
  function Estimate(ml: Runtime, model: Obj, scaler: Option<Obj>, month: int, lastQty: real,
                    dayOfWeek: Option<int>, isWeekend: Option<int>, isHoliday: Option<int>,
                    todayWeekday: int): (r: real)
    ensures r >= 0.0
    ensures r >= ml.predict(model, Row(ml, model, scaler, month, lastQty, dayOfWeek, isWeekend, isHoliday, todayWeekday))
    ensures r == 0.0 || r == ml.predict(model, Row(ml, model, scaler, month, lastQty, dayOfWeek, isWeekend, isHoliday, todayWeekday))
  {
    Max0(ml.predict(model, Row(ml, model, scaler, month, lastQty, dayOfWeek, isWeekend, isHoliday, todayWeekday)))
  }

  function Row(ml: Runtime, model: Obj, scaler: Option<Obj>, month: int, lastQty: real,
               dayOfWeek: Option<int>, isWeekend: Option<int>, isHoliday: Option<int>,
               todayWeekday: int): seq<real>
  {
    var n := match ml.featureCount(model) case Some(k) => k case None => 5;
    var qty := if scaler.Some? && Truthy(scaler.value) then ml.scaleOne(scaler.value, lastQty) else lastQty;
    FeatureRow(n, month, qty, dayOfWeek, isWeekend, isHoliday, todayWeekday)
  }

  /** The forecaster: model and scaler caches filled on first use, the error
      metrics read once, and the categories for which model files exist. */
  class StockForecaster {
    const modelDir: string
    const scalerDir: string
    const errors: map<string, real>
    const categories: seq<string>
    var modelCache: map<string, Obj>
    var scalerCache: map<string, Option<Obj>>

    /** A scaler is only ever cached for a category whose model is cached. */
    ghost predicate Valid()
      reads this
    {
      scalerCache.Keys <= modelCache.Keys
    }

    /** Whether predict can succeed for the category on this disk: its model
        and scaler are both cached, or its model is not cached yet and both
        files load (the scaler file may be absent). */
    predicate Loadable(disk: Disk, category: string)
      reads this
    {
      if category in modelCache then category in scalerCache
      else disk.Load(ModelPath(category)).Ok? &&
           (!disk.Exists(ScalerPath(category)) || disk.Load(ScalerPath(category)).Ok?)
    }

    function ModelPath(category: string): string {
      PathJoin(modelDir, category + JOBLIB)
    }

    function ScalerPath(category: string): string {
      PathJoin(scalerDir, category + "_scaler" + JOBLIB)
    }

    constructor (modelsDir: string, errors: map<string, real>, listing: Option<seq<string>>)
      ensures Valid()
      ensures modelDir == PathJoin(modelsDir, "models/xgb_models/")
      ensures scalerDir == PathJoin(modelsDir, "models/scalers/")
      ensures this.errors == errors
      ensures categories == if listing.Some? then JoblibStems(listing.value) else []
      ensures modelCache == map[] && scalerCache == map[]
    {
      modelDir := PathJoin(modelsDir, "models/xgb_models/");
      scalerDir := PathJoin(modelsDir, "models/scalers/");
      this.errors := errors;
      categories := if listing.Some? then JoblibStems(listing.value) else [];
      modelCache := map[];
      scalerCache := map[];
    }

    /** get_mean_absolute_error: the recorded error of a category, or None. */
    function MeanAbsoluteError(category: string): (r: Option<real>)
      ensures r.Some? <==> category in errors
      ensures r.Some? ==> r.value == errors[category]
    {
      if category in errors then Some(errors[category]) else None
    }

    /** predict: load and cache the category's model and scaler on first use,
        raise ValueError when its model file is absent, otherwise return the
        clamped estimate made with the cached pair. */
    method Predict(ml: Runtime, disk: Disk, todayWeekday: int, category: string, month: int,
                   lastQty: real, dayOfWeek: Option<int>, isWeekend: Option<int>,
                   isHoliday: Option<int>) returns (r: Try<real>)
      requires Valid()
      modifies this
      ensures Valid()
      ensures forall c :: c in old(modelCache) ==> c in modelCache && modelCache[c] == old(modelCache[c])
      ensures forall c :: c in old(scalerCache) ==> c in scalerCache && scalerCache[c] == old(scalerCache[c])
      ensures category in old(modelCache) ==>
                modelCache == old(modelCache) && scalerCache == old(scalerCache)
      ensures category !in old(modelCache) && !disk.Exists(ModelPath(category)) ==>
                r == Raised(ValueError) && modelCache == old(modelCache) && scalerCache == old(scalerCache)
      ensures r.Ok? <==> category in modelCache && category in scalerCache
      ensures r.Ok? <==> old(Loadable(disk, category))
      ensures forall c :: Loadable(disk, c) == old(Loadable(disk, c))
      ensures r.Ok? ==> r.value >= 0.0
      ensures r.Ok? ==> (r.value == Estimate(ml, modelCache[category], scalerCache[category], month, lastQty,
                                             dayOfWeek, isWeekend, isHoliday, todayWeekday))
      ensures category !in old(modelCache) && disk.Load(ModelPath(category)).Ok? ==>
                modelCache == old(modelCache)[category := disk.Load(ModelPath(category)).value]
      ensures category !in old(modelCache) && disk.Exists(ModelPath(category)) &&
              disk.Load(ModelPath(category)).Raised? ==>
                r == Raised(disk.Load(ModelPath(category)).exc) &&
                modelCache == old(modelCache) && scalerCache == old(scalerCache)
      ensures (category !in old(modelCache) && disk.Exists(ScalerPath(category)) &&
               disk.Load(ScalerPath(category)).Raised?) ==> r.Raised?
      ensures category !in old(modelCache) && r.Ok? ==>
                scalerCache[category] == match disk.Load(ScalerPath(category))
                                         case Ok(s) => Some(s) case Raised(_) => None
    {
      if category !in modelCache {
        var modelPath := ModelPath(category);
        var scalerPath := ScalerPath(category);
        if !disk.Exists(modelPath) {
          return Raised(ValueError);
        }
        var model := disk.Load(modelPath);
        if model.Raised? {
          return Raised(model.exc);
        }
        modelCache := modelCache[category := model.value];
        if disk.Exists(scalerPath) {
          var scaler := disk.Load(scalerPath);
          if scaler.Raised? {
            return Raised(scaler.exc);
          }
          scalerCache := scalerCache[category := Some(scaler.value)];
        } else {
          scalerCache := scalerCache[category := None];
        }
      }
      if category !in scalerCache {
        // a model cached by an earlier call whose scaler failed to load
        return Raised(KeyError);
      }
      var prediction := Estimate(ml, modelCache[category], scalerCache[category], month, lastQty,
                                 dayOfWeek, isWeekend, isHoliday, todayWeekday);
      return Ok(prediction);
    }
  }

  /** The constructor raises: MSE.json exists but is not a JSON object of
      numbers. (The model directory's path ends in '/', so it exists only as
      a directory, and listing it cannot fail.) */
  predicate InitFails(modelsDir: string, disk: Disk) {
    var mse := PathJoin(modelsDir, "MSE.json");
    disk.Exists(mse) && !(mse in disk.files && disk.files[mse].JsonDoc?)
  }

  /** Builds the forecaster the way its constructor does: the error metrics
      from MSE.json when it exists (a file that is not a JSON object of
      numbers, or a directory, raises), the categories from the '.joblib'
      files of the model directory (none when it does not exist). */
  method NewStockForecaster(modelsDir: string, disk: Disk) returns (r: Try<StockForecaster>)
    ensures r.Ok? ==> fresh(r.value) && r.value.Valid()
    ensures r.Ok? ==> r.value.modelCache == map[] && r.value.scalerCache == map[]
    ensures r.Ok? ==> (r.value.errors ==
      var mse := PathJoin(modelsDir, "MSE.json");
      if mse in disk.files && disk.files[mse].JsonDoc? then disk.files[mse].numbers else map[])
    ensures r.Ok? ==> (r.value.categories ==
      var dir := PathJoin(modelsDir, "models/xgb_models/");
      if dir in disk.dirs then JoblibStems(disk.dirs[dir]) else [])
    ensures r.Raised? <==> InitFails(modelsDir, disk)
  {
    var msePath := PathJoin(modelsDir, "MSE.json");
    var errors: map<string, real> := map[];
    if disk.Exists(msePath) {
      if msePath in disk.files && disk.files[msePath].JsonDoc? {
        errors := disk.files[msePath].numbers;
      } else if msePath in disk.files {
        return Raised(ValueError);
      } else {
        return Raised(OSError);
      }
    }
    var dir := PathJoin(modelsDir, "models/xgb_models/");
    var listing: Option<seq<string>> := None;
    PathJoinDirectory(modelsDir, "models/xgb_models/");
    DirectoryPathExists(disk, dir);
    if disk.Exists(dir) {
      listing := Some(disk.dirs[dir]);
    }
    var f := new StockForecaster(modelsDir, errors, listing);
    return Ok(f);
  }

  /** The revenue predictor: one trained model over
      [is_weekend, is_holiday, lagged_revenue]. */
  class RevenuePredictor {
    const model: Obj

    constructor (model: Obj)
      ensures this.model == model
    {
      this.model := model;
    }

    /** predict: the model's estimate, clamped so that revenue is never negative. */
    function Predict(ml: Runtime, isWeekend: int, isHoliday: int, laggedRevenue: real): (r: real)
      ensures r >= 0.0
      ensures r >= ml.predict(model, [isWeekend as real, isHoliday as real, laggedRevenue])
      ensures r == 0.0 || r == ml.predict(model, [isWeekend as real, isHoliday as real, laggedRevenue])
    {
      Max0(ml.predict(model, [isWeekend as real, isHoliday as real, laggedRevenue]))
    }
  }
}
