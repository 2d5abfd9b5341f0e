/** The per-category LSTM forecaster of the newer model guide: ten fixed
    categories loaded up front, a multi-day prediction that feeds each day's
    output back in, and the reorder rule built on it. */
module LstmGuide {
  import opened Wrappers
  import opened Environment
  import opened Numbers

  const CATEGORIES: seq<string> := [
    "Beverages", "Breakfast_&_Brunch", "Desserts_&_Sweets",
    "Handhelds", "Main_Courses", "Misc_Services",
    "Other_Uncategorized", "Salads_&_Greens",
    "Sides_&_Snacks", "Sushi_&_Asian"
  ]

  /** One day of the loop: scale the last quantity, run the network on
      [month, scaled], and map its output back to a quantity. */
  function Step(ml: Runtime, model: Obj, scaler: Obj, month: int, lastQty: real): real {
    ml.unscaleOne(scaler, ml.predict(model, [month as real, ml.scaleOne(scaler, lastQty)]))
  }

  /** The unclamped quantity after `days` steps starting from `lastQty`. */
  function Iterate(ml: Runtime, model: Obj, scaler: Obj, month: int, lastQty: real, days: nat): real
    decreases days
  {
    if days == 0 then lastQty else Step(ml, model, scaler, month, Iterate(ml, model, scaler, month, lastQty, days - 1))
  }

  /** Predicting a + b days equals predicting b days from the a-day prediction. */
  lemma {:induction false} IterateAdd(ml: Runtime, model: Obj, scaler: Obj, month: int, q: real, a: nat, b: nat)
    ensures Iterate(ml, model, scaler, month, q, a + b)
         == Iterate(ml, model, scaler, month, Iterate(ml, model, scaler, month, q, a), b)
    decreases b
  {
    if b > 0 {
      IterateAdd(ml, model, scaler, month, q, a, b - 1);
    }
  }

  /** Python's `range(n)` has max(0, n) elements. */
  function Times(n: int): nat {
    if n > 0 then n else 0
  }

  /** The reorder rule: the shortfall `max(0, prediction − stock)` scaled by
      the multiplier is reordered, less the stock once more, when it exceeds
      the stock; nothing otherwise. */
  function RestockAmount(prediction: real, currentStock: real, multiplier: real): (r: real)
    ensures r >= 0.0
    ensures r > 0.0 <==> Max0(prediction - currentStock) * multiplier > currentStock
    ensures currentStock >= 0.0 && multiplier >= 0.0 ==> r <= Max0(prediction - currentStock) * multiplier
  {
    var reorder := Max0(prediction - currentStock) * multiplier;
    if reorder > currentStock then reorder - currentStock else 0.0
  }

  /** The reorder rule takes the stock off twice: with multiplier 1 and
      a prediction above twice the stock, it asks for prediction − 2·stock. */
  lemma RestockSubtractsStockTwice(prediction: real, currentStock: real)
    requires currentStock >= 0.0 && prediction > 2.0 * currentStock
    ensures RestockAmount(prediction, currentStock, 1.0) == prediction - 2.0 * currentStock
  {
  }

  /** Nothing is reordered when the prediction does not exceed the stock
      and the stock is not negative. */
  lemma NoRestockWhenCovered(prediction: real, currentStock: real, multiplier: real)
    requires 0.0 <= currentStock && prediction <= currentStock
    ensures RestockAmount(prediction, currentStock, multiplier) == 0.0
  {
  }

  class StockForecaster {
    const model: map<string, Obj>
    const scaler: map<string, Obj>
    const errors: map<string, real>

    constructor (model: map<string, Obj>, scaler: map<string, Obj>, errors: map<string, real>)
      ensures this.model == model && this.scaler == scaler && this.errors == errors
    {
      this.model := model;
      this.scaler := scaler;
      this.errors := errors;
    }

    /** get_mean_absolute_error: `errors[category]`, a KeyError when absent. */
    function MeanAbsoluteError(category: string): (r: Try<real>)
      ensures r.Ok? <==> category in errors
      ensures r.Ok? ==> r.value == errors[category]
      ensures r.Raised? ==> r.exc == KeyError
    {
      if category in errors then Ok(errors[category]) else Raised(KeyError)
    }

    /** predict: ValueError for a category without a model; otherwise the
        step applied `numberOfDays` times (none for 0 or fewer), the output of
        each step being the input of the next, clamped at 0 at the end. */
    method Predict(ml: Runtime, category: string, month: int, lastQty: real, numberOfDays: int)
      returns (r: Try<real>)
      requires category in model ==> category in scaler
      ensures category !in model <==> r == Raised(ValueError)
      ensures category in model <==> r.Ok?
      ensures r.Ok? ==> r.value >= 0.0
      ensures r.Ok? ==> r.value == Max0(Iterate(ml, model[category], scaler[category], month, lastQty, Times(numberOfDays)))
    {
      if category !in model {
        return Raised(ValueError);
      }
      var m := model[category];
      var s := scaler[category];
      var q := lastQty;
      var prediction := lastQty;
      var i := 0;
      while i < numberOfDays
        invariant 0 <= i <= Times(numberOfDays)
        invariant prediction == Iterate(ml, m, s, month, lastQty, i)
      {
        q := prediction;
        var scaled := ml.scaleOne(s, q);
        var output := ml.predict(m, [month as real, scaled]);
        prediction := ml.unscaleOne(s, output);
        i := i + 1;
      }
      return Ok(Max0(prediction));
    }

    /** stock_reorder_recommendation: the restock amount for the predicted
        quantity, never negative. */
    method StockReorderRecommendation(ml: Runtime, category: string, month: int, lastQty: real,
                                      numberOfDays: int, currentStock: real, multiplier: real)
      returns (r: Try<real>)
      requires category in model ==> category in scaler
      ensures category !in model <==> r == Raised(ValueError)
      ensures category in model <==> r.Ok?
      ensures r.Ok? ==> r.value >= 0.0
      ensures r.Ok? ==> r.value == RestockAmount(
        Max0(Iterate(ml, model[category], scaler[category], month, lastQty, Times(numberOfDays))),
        currentStock, multiplier)
    {
      var prediction := Predict(ml, category, month, lastQty, numberOfDays);
      if prediction.Raised? {
        return Raised(prediction.exc);
      }
      var reorder := Max0(prediction.value - currentStock);
      reorder := reorder * multiplier;
      if reorder > currentStock {
        return Ok(reorder - currentStock);
      } else {
        return Ok(0.0);
      }
    }
  }

  /** The constructor's loading: for each of the ten categories, its network
      `<category>_lstm.h5` and its scaler `<category>_scaler.joblib`, then the
      error metrics; any file that does not load aborts construction. */
  method NewStockForecaster(baseDir: string, disk: Disk) returns (r: Try<StockForecaster>)
    ensures r.Ok? ==> fresh(r.value)
    ensures r.Ok? ==> r.value.model.Keys == set c | c in CATEGORIES
    ensures r.Ok? ==> r.value.scaler.Keys == r.value.model.Keys
    ensures r.Ok? ==> forall c :: c in CATEGORIES ==>
      disk.Load(ModelFile(baseDir, c)) == Ok(r.value.model[c]) &&
      disk.Load(ScalerFile(baseDir, c)) == Ok(r.value.scaler[c])
    ensures r.Ok? <==>
      (forall c :: c in CATEGORIES ==> disk.Load(ModelFile(baseDir, c)).Ok? && disk.Load(ScalerFile(baseDir, c)).Ok?) &&
      MseFile(baseDir) in disk.files && disk.files[MseFile(baseDir)].JsonDoc?
    ensures r.Ok? ==> r.value.errors == disk.files[MseFile(baseDir)].numbers
  {
    var loaded := LoadNetworks(disk, CATEGORIES, c => ModelFile(baseDir, c), c => ScalerFile(baseDir, c));
    if loaded.Raised? {
      return Raised(loaded.exc);
    }
    var (models, scalers) := loaded.value;
    var msePath := MseFile(baseDir);
    if !(msePath in disk.files && disk.files[msePath].JsonDoc?) {
      return Raised(if msePath in disk.files then ValueError else OSError);
    }
    var f := new StockForecaster(models, scalers, disk.files[msePath].numbers);
    return Ok(f);
  }

  /** The loading loop over `categories`: the network and then the scaler
      of each, read from the paths `modelFile` and `scalerFile` give it,
      stopping at the first file that does not load. */
  method LoadNetworks(disk: Disk, categories: seq<string>, modelFile: string -> string, scalerFile: string -> string)
    returns (r: Try<(map<string, Obj>, map<string, Obj>)>)
    ensures r.Ok? ==> r.value.0.Keys == r.value.1.Keys == set c | c in categories
    ensures r.Ok? ==> forall c :: c in categories ==>
      disk.Load(modelFile(c)) == Ok(r.value.0[c]) && disk.Load(scalerFile(c)) == Ok(r.value.1[c])
    ensures r.Ok? <==> forall c :: c in categories ==> disk.Load(modelFile(c)).Ok? && disk.Load(scalerFile(c)).Ok?
  {
    var models: map<string, Obj> := map[];
    var scalers: map<string, Obj> := map[];
    for i := 0 to |categories|
      invariant models.Keys == scalers.Keys == set c | c in categories[..i]
      invariant forall c :: c in categories[..i] ==>
        disk.Load(modelFile(c)) == Ok(models[c]) && disk.Load(scalerFile(c)) == Ok(scalers[c])
    {
      var cat := categories[i];
      var m := disk.Load(modelFile(cat));
      if m.Raised? {
        return Raised(m.exc);
      }
      models := models[cat := m.value];
      var s := disk.Load(scalerFile(cat));
      if s.Raised? {
        return Raised(s.exc);
      }
      scalers := scalers[cat := s.value];
      assert categories[..i + 1] == categories[..i] + [cat];
    }
    assert categories[..|categories|] == categories;
    return Ok((models, scalers));
  }

  function MseFile(baseDir: string): string {
    PathJoin(PathJoin(PathJoin(baseDir, "New_ML_Models"), "stock_forecaster"), "MSE.json")
  }

  function ModelDir(baseDir: string): string {
    PathJoin(PathJoin(PathJoin(PathJoin(baseDir, "New_ML_Models"), "stock_forecaster"), "models"), "lstm_models") + "/"
  }

  function ScalerDir(baseDir: string): string {
    PathJoin(PathJoin(PathJoin(PathJoin(baseDir, "New_ML_Models"), "stock_forecaster"), "models"), "scalers") + "/"
  }

  function ModelFile(baseDir: string, category: string): string {
    ModelDir(baseDir) + category + "_lstm.h5"
  }

  function ScalerFile(baseDir: string, category: string): string {
    ScalerDir(baseDir) + category + "_scaler.joblib"
  }
}
