/** The machine-learning REST handlers: required-field checks, the single
    prediction endpoints with their status codes, and the batch endpoints
    that collect one entry per request element and then filter, sort and
    count the successful ones. A JSON request body is a map from keys to
    numbers; the database row an item lookup returns is an `ItemRow`. */
module MlRoutes {
  import opened Wrappers
  import opened Environment
  import Lists
  import Text
  import CategoryForecaster
  import PredictionLabels
  import opened PredictionService
  import opened ModelPredictions
  import opened Replies

  /** A JSON request object with numeric values. */
  type Body = map<string, real>

  // ----------------------------------------------------------- required fields

  /** Every listed field is a key of the body. */
  predicate HasFields(fields: seq<string>, body: Body) {
    forall i :: 0 <= i < |fields| ==> fields[i] in body
  }

  /** Binding `f(**body)` to a function whose parameters are `params`, none
      of them defaulted, succeeds exactly when the keys are the parameters. */
  predicate Binds(params: seq<string>, body: Body) {
    HasFields(params, body) && forall k :: k in body ==> k in params
  }

  /** The test `f not in data`. */
  function Absent(body: Body): string -> bool {
    f => f !in body
  }

  /** `[f for f in required if f not in data]`. */
  function MissingFields(required: seq<string>, body: Body): (m: seq<string>)
    ensures |m| <= |required|
  {
    Lists.Filter(required, Absent(body))
  }

  /** The 400 message for a body lacking `missing`. */
  function MissingFieldsMessage(missing: seq<string>): string {
    "Missing required fields: " + Text.Join(missing, ", ")
  }

  /** The missing fields are exactly the required ones the body lacks, and
      there are none exactly when the body has every required field. */
  lemma MissingFieldsExact(required: seq<string>, body: Body)
    ensures forall f :: f in MissingFields(required, body) <==> f in required && f !in body
    ensures MissingFields(required, body) == [] <==> HasFields(required, body)
  {
    var m := MissingFields(required, body);
    Lists.FilterMembers(required, Absent(body));
    if !HasFields(required, body) {
      var i :| 0 <= i < |required| && required[i] !in body;
      assert required[i] in m;
    }
  }

  /** The missing fields are listed in the order of the required list. */
  lemma MissingFieldsInOrder(required: seq<string>, body: Body)
    requires forall i, j :: 0 <= i < j < |required| ==> required[i] != required[j]
    ensures forall i, j :: 0 <= i < j < |MissingFields(required, body)| ==>
      Lists.Position(required, MissingFields(required, body)[i]) <
      Lists.Position(required, MissingFields(required, body)[j])
  {
    Lists.FilterInOrder(required, Absent(body));
  }

  /** The fields the campaign endpoint requires. */
  const CAMPAIGN_FIELDS: seq<string> := ["duration_days", "points", "discount_percent", "minimum_spend"]

  /** The fields the churn endpoint requires: the churn predictor's parameters. */
  const CHURN_FIELDS: seq<string> := ["customer_id", "discount_amount", "points_earned", "price", "waiting_time"]

  /** The fields the cashier endpoint requires: the anomaly detector's
      parameters, the shift's identity followed by the model's columns. */
  const CASHIER_FIELDS: seq<string> := ["cashier_id", "shift_date"] + CASHIER_COLUMNS

  /** Every required list names each field once, so its missing fields
      come out in list order. */
  lemma CampaignFieldsDistinct()
    ensures forall i, j :: 0 <= i < j < |CAMPAIGN_FIELDS| ==> CAMPAIGN_FIELDS[i] != CAMPAIGN_FIELDS[j]
  {
  }

  lemma ChurnFieldsDistinct()
    ensures forall i, j :: 0 <= i < j < |CHURN_FIELDS| ==> CHURN_FIELDS[i] != CHURN_FIELDS[j]
  {
  }

  lemma CashierFieldsDistinct()
    ensures forall i, j :: 0 <= i < j < |CASHIER_FIELDS| ==> CASHIER_FIELDS[i] != CASHIER_FIELDS[j]
  {
    forall i, j | 0 <= i < j < |CASHIER_COLUMNS|
      ensures CASHIER_COLUMNS[i] != CASHIER_COLUMNS[j]
    {
      CashierColumnsDistinct(i, j);
    }
    CashierIdentityNotColumn();
    DistinctConcat(["cashier_id", "shift_date"], CASHIER_COLUMNS);
  }

  /** The shift's identity fields are not model columns. */
  lemma CashierIdentityNotColumn()
    ensures "cashier_id" !in CASHIER_COLUMNS && "shift_date" !in CASHIER_COLUMNS
  {
  }

  /** Two lists without repeats and without a common element concatenate
      to a list without repeats. */
  lemma DistinctConcat(a: seq<string>, b: seq<string>)
    requires forall i, j :: 0 <= i < j < |a| ==> a[i] != a[j]
    requires forall i, j :: 0 <= i < j < |b| ==> b[i] != b[j]
    requires forall x :: x in a ==> x !in b
    ensures forall i, j :: 0 <= i < j < |a + b| ==> (a + b)[i] != (a + b)[j]
  {
    forall i, j | 0 <= i < j < |a + b|
      ensures (a + b)[i] != (a + b)[j]
    {
      if j >= |a| && i < |a| {
        assert a[i] in a && b[j - |a|] in b;
      }
    }
  }

  /** The cashier model's columns are named differently. */
  lemma CashierColumnsDistinct(i: nat, j: nat)
    requires i < j < |CASHIER_COLUMNS|
    ensures CASHIER_COLUMNS[i] != CASHIER_COLUMNS[j]
  {
  }

  /** A body with every cashier field holds every cashier model column. */
  lemma CashierFieldsCoverColumns(body: Body)
    requires HasFields(CASHIER_FIELDS, body)
    ensures HasFields(CASHIER_COLUMNS, body)
  {
    forall i | 0 <= i < |CASHIER_COLUMNS|
      ensures CASHIER_COLUMNS[i] in body
    {
      assert CASHIER_FIELDS[i + 2] == CASHIER_COLUMNS[i];
    }
  }

  // ------------------------------------------------------- calls on the body

  /** predict_campaign_performance with the body's four fields, on the
      campaign artifacts loading yields (ValueError when the type is not
      configured). */
  function CampaignCall(ml: Runtime, clock: Clock, artifacts: Option<map<string, Obj>>, body: Body)
    : Try<CampaignOutcome>
    requires HasFields(CAMPAIGN_FIELDS, body)
  {
    assert CAMPAIGN_FIELDS[0] in body && CAMPAIGN_FIELDS[1] in body;
    assert CAMPAIGN_FIELDS[2] in body && CAMPAIGN_FIELDS[3] in body;
    match artifacts
    case None => Raised(ValueError)
    case Some(a) =>
      CampaignWith(ml, clock, a, body["duration_days"], body["points"], body["discount_percent"],
                   body["minimum_spend"])
  }

  /** predict_customer_churn with the body's fields, on the churn artifacts. */
  function ChurnCall(ml: Runtime, artifacts: Option<map<string, Obj>>, body: Body): Try<ChurnOutcome>
    requires HasFields(CHURN_FIELDS, body)
  {
    assert CHURN_FIELDS[1] in body && CHURN_FIELDS[2] in body;
    assert CHURN_FIELDS[3] in body && CHURN_FIELDS[4] in body;
    match artifacts
    case None => Raised(ValueError)
    case Some(a) =>
      Ok(ChurnWith(ml, a, body["discount_amount"], body["points_earned"], body["price"], body["waiting_time"]))
  }

  /** The body's values of `names`, in order. */
  function ColumnValues(names: seq<string>, body: Body): (v: seq<real>)
    requires HasFields(names, body)
    ensures |v| == |names|
    ensures forall i :: 0 <= i < |names| ==> v[i] == body[names[i]]
  {
    seq(|names|, i requires 0 <= i < |names| => body[names[i]])
  }

  /** The shift features whose column values are `v`. */
  function FeaturesOf(v: seq<real>): (f: CashierFeatures)
    requires |v| == |CASHIER_COLUMNS|
    ensures f.Values() == v
  {
    CashierFeatures(v[0], v[1], v[2], v[3], v[4], v[5], v[6], v[7], v[8], v[9],
                    v[10], v[11], v[12], v[13], v[14], v[15], v[16], v[17], v[18], v[19])
  }

  /** The shift the detector sees: each model column takes the body's value
      under that name. */
  function ShiftFeatures(body: Body): (f: CashierFeatures)
    requires HasFields(CASHIER_COLUMNS, body)
    ensures forall i :: 0 <= i < |CASHIER_COLUMNS| ==> f.Values()[i] == body[CASHIER_COLUMNS[i]]
  {
    FeaturesOf(ColumnValues(CASHIER_COLUMNS, body))
  }

  /** detect_cashier_anomalies with the body's fields, on the cashier
      artifacts. */
  function CashierCall(ml: Runtime, artifacts: Option<map<string, Obj>>, body: Body): Try<CashierOutcome>
    requires HasFields(CASHIER_FIELDS, body)
  {
    CashierFieldsCoverColumns(body);
    match artifacts
    case None => Raised(ValueError)
    case Some(a) => CashierWith(ml, a, ShiftFeatures(body))
  }

  // ------------------------------------------------------- single endpoints

  /** predict_campaign: 400 listing the missing fields, else the
      prediction, with an escaped exception as 500. */
  function CampaignReply(ml: Runtime, clock: Clock, artifacts: Option<map<string, Obj>>, body: Body)
    : (r: Reply<CampaignOutcome>)
    ensures r.Status() == 400 <==> MissingFields(CAMPAIGN_FIELDS, body) != []
    ensures r.Status() == 400 ==> r == BadRequest(MissingFieldsMessage(MissingFields(CAMPAIGN_FIELDS, body)))
    ensures r.Status() != 400 ==>
      HasFields(CAMPAIGN_FIELDS, body) && r == ReplyOf(CampaignCall(ml, clock, artifacts, body))
  {
    var missing := MissingFields(CAMPAIGN_FIELDS, body);
    MissingFieldsExact(CAMPAIGN_FIELDS, body);
    if missing != [] then BadRequest(MissingFieldsMessage(missing))
    else ReplyOf(CampaignCall(ml, clock, artifacts, body))
  }

  /** predict_churn_risk: 400 listing the missing fields, else the churn
      assessment, with an escaped exception as 500. */
  function ChurnReply(ml: Runtime, artifacts: Option<map<string, Obj>>, body: Body): (r: Reply<ChurnOutcome>)
    ensures r.Status() == 400 <==> MissingFields(CHURN_FIELDS, body) != []
    ensures r.Status() == 400 ==> r == BadRequest(MissingFieldsMessage(MissingFields(CHURN_FIELDS, body)))
    ensures r.Status() != 400 ==> HasFields(CHURN_FIELDS, body) && r == ReplyOf(ChurnCall(ml, artifacts, body))
  {
    var missing := MissingFields(CHURN_FIELDS, body);
    MissingFieldsExact(CHURN_FIELDS, body);
    if missing != [] then BadRequest(MissingFieldsMessage(missing))
    else ReplyOf(ChurnCall(ml, artifacts, body))
  }

  /** detect_cashier_risk: 400 listing the missing fields, else the shift
      assessment, with an escaped exception as 500. */
  function CashierReply(ml: Runtime, artifacts: Option<map<string, Obj>>, body: Body): (r: Reply<CashierOutcome>)
    ensures r.Status() == 400 <==> MissingFields(CASHIER_FIELDS, body) != []
    ensures r.Status() == 400 ==> r == BadRequest(MissingFieldsMessage(MissingFields(CASHIER_FIELDS, body)))
    ensures r.Status() != 400 ==>
      HasFields(CASHIER_FIELDS, body) && r == ReplyOf(CashierCall(ml, artifacts, body))
  {
    var missing := MissingFields(CASHIER_FIELDS, body);
    MissingFieldsExact(CASHIER_FIELDS, body);
    if missing != [] then BadRequest(MissingFieldsMessage(missing))
    else ReplyOf(CashierCall(ml, artifacts, body))
  }

  /** The campaign service call on the body: the model cache may fill, and
      the artifacts it yields stay the same. */
  method CallCampaign(service: MlPredictionService, ml: Runtime, disk: Disk, clock: Clock, body: Body)
    returns (r: Try<CampaignOutcome>)
    requires service.Valid() && HasFields(CAMPAIGN_FIELDS, body)
    modifies service
    ensures service.Valid()
    ensures service.LoadedArtifacts(disk, CampaignRoi) == old(service.LoadedArtifacts(disk, CampaignRoi))
    ensures r == CampaignCall(ml, clock, old(service.LoadedArtifacts(disk, CampaignRoi)), body)
  {
    assert CAMPAIGN_FIELDS[0] in body && CAMPAIGN_FIELDS[1] in body;
    assert CAMPAIGN_FIELDS[2] in body && CAMPAIGN_FIELDS[3] in body;
    r := service.PredictCampaignPerformance(ml, disk, clock, body["duration_days"], body["points"],
                                            body["discount_percent"], body["minimum_spend"]);
  }

  /** The churn service call on the body. */
  method CallChurn(service: MlPredictionService, ml: Runtime, disk: Disk, body: Body)
    returns (r: Try<ChurnOutcome>)
    requires service.Valid() && HasFields(CHURN_FIELDS, body)
    modifies service
    ensures service.Valid()
    ensures service.LoadedArtifacts(disk, CustomerChurn) == old(service.LoadedArtifacts(disk, CustomerChurn))
    ensures r == ChurnCall(ml, old(service.LoadedArtifacts(disk, CustomerChurn)), body)
  {
    assert CHURN_FIELDS[1] in body && CHURN_FIELDS[2] in body;
    assert CHURN_FIELDS[3] in body && CHURN_FIELDS[4] in body;
    r := service.PredictCustomerChurn(ml, disk, body["discount_amount"], body["points_earned"], body["price"],
                                      body["waiting_time"]);
  }

  /** The cashier service call on the body. */
  method CallCashier(service: MlPredictionService, ml: Runtime, disk: Disk, body: Body)
    returns (r: Try<CashierOutcome>)
    requires service.Valid() && HasFields(CASHIER_FIELDS, body)
    modifies service
    ensures service.Valid()
    ensures service.LoadedArtifacts(disk, CashierRisk) == old(service.LoadedArtifacts(disk, CashierRisk))
    ensures r == CashierCall(ml, old(service.LoadedArtifacts(disk, CashierRisk)), body)
  {
    CashierFieldsCoverColumns(body);
    r := service.DetectCashierAnomalies(ml, disk, ShiftFeatures(body));
  }

  /** POST /campaigns/predict. */
  method PredictCampaign(service: MlPredictionService, ml: Runtime, disk: Disk, clock: Clock, body: Body)
    returns (r: Reply<CampaignOutcome>)
    requires service.Valid()
    modifies service
    ensures service.Valid()
    ensures r == CampaignReply(ml, clock, old(service.LoadedArtifacts(disk, CampaignRoi)), body)
  {
    var missing := MissingFields(CAMPAIGN_FIELDS, body);
    MissingFieldsExact(CAMPAIGN_FIELDS, body);
    if missing != [] {
      return BadRequest(MissingFieldsMessage(missing));
    }
    var prediction := CallCampaign(service, ml, disk, clock, body);
    r := ReplyOf(prediction);
  }

  /** POST /customers/churn-risk. */
  method PredictChurnRisk(service: MlPredictionService, ml: Runtime, disk: Disk, body: Body)
    returns (r: Reply<ChurnOutcome>)
    requires service.Valid()
    modifies service
    ensures service.Valid()
    ensures r == ChurnReply(ml, old(service.LoadedArtifacts(disk, CustomerChurn)), body)
  {
    var missing := MissingFields(CHURN_FIELDS, body);
    MissingFieldsExact(CHURN_FIELDS, body);
    if missing != [] {
      return BadRequest(MissingFieldsMessage(missing));
    }
    var prediction := CallChurn(service, ml, disk, body);
    r := ReplyOf(prediction);
  }

  /** POST /operations/cashier-risk. */
  method DetectCashierRisk(service: MlPredictionService, ml: Runtime, disk: Disk, body: Body)
    returns (r: Reply<CashierOutcome>)
    requires service.Valid()
    modifies service
    ensures service.Valid()
    ensures r == CashierReply(ml, old(service.LoadedArtifacts(disk, CashierRisk)), body)
  {
    var missing := MissingFields(CASHIER_FIELDS, body);
    MissingFieldsExact(CASHIER_FIELDS, body);
    if missing != [] {
      return BadRequest(MissingFieldsMessage(missing));
    }
    var detection := CallCashier(service, ml, disk, body);
    r := ReplyOf(detection);
  }

  // ------------------------------------------------------- campaign batch

  /** One element of the batch campaign reply, tagged with its position. */
  datatype CampaignEntry = CampaignEntry(index: nat, outcome: Try<CampaignOutcome>)

  /** The batch campaign reply. */
  datatype CampaignBatch = CampaignBatch(totalCampaigns: nat, predictions: seq<CampaignEntry>,
                                         bestCampaign: Option<CampaignEntry>)

  /** An entry whose status is success. */
  predicate CampaignSucceeded(e: CampaignEntry) {
    e.outcome.Ok? && e.outcome.value.CampaignPredicted?
  }

  /** The sort key: a successful entry's success probability. */
  function SuccessProbability(e: CampaignEntry): real {
    if CampaignSucceeded(e) then e.outcome.value.prediction.successProbabilityPct else 0.0
  }

  function EntryIndex(e: CampaignEntry): int {
    e.index
  }

  /** A batch element's outcome: a missing field raises KeyError, caught
      into an error entry; otherwise the campaign prediction. */
  function CampaignEntryOutcome(ml: Runtime, clock: Clock, artifacts: Option<map<string, Obj>>, body: Body)
    : (r: Try<CampaignOutcome>)
    ensures !HasFields(CAMPAIGN_FIELDS, body) ==> r == Raised(KeyError)
    ensures HasFields(CAMPAIGN_FIELDS, body) ==> r == CampaignCall(ml, clock, artifacts, body)
  {
    if HasFields(CAMPAIGN_FIELDS, body) then CampaignCall(ml, clock, artifacts, body) else Raised(KeyError)
  }

  /** The head of the successful entries sorted by success probability,
      highest first; None when none succeeded. */
  function BestCampaign(entries: seq<CampaignEntry>): Option<CampaignEntry> {
    var successful := Lists.FilterSorted(entries, CampaignSucceeded, SuccessProbability);
    if successful == [] then None else Some(successful[0])
  }

  /** The best campaign is a successful entry of maximal success probability,
      the first such one in input order; there is none exactly when no entry
      succeeded. */
  lemma BestCampaignIsFirstMax(entries: seq<CampaignEntry>)
    requires forall i :: 0 <= i < |entries| ==> entries[i].index == i
    ensures BestCampaign(entries).None? <==> forall i :: 0 <= i < |entries| ==> !CampaignSucceeded(entries[i])
    ensures BestCampaign(entries).Some? ==>
      var b := BestCampaign(entries).value;
      && b.index < |entries| && entries[b.index] == b && CampaignSucceeded(b)
      && (forall i :: 0 <= i < |entries| && CampaignSucceeded(entries[i]) ==>
            SuccessProbability(entries[i]) <= SuccessProbability(b))
      && (forall i :: 0 <= i < b.index && CampaignSucceeded(entries[i]) ==>
            SuccessProbability(entries[i]) < SuccessProbability(b))
  {
    NoBestCampaign(entries);
    if BestCampaign(entries).Some? {
      BestCampaignWins(entries);
    }
  }

  /** There is no best campaign exactly when no entry succeeded. */
  lemma NoBestCampaign(entries: seq<CampaignEntry>)
    ensures BestCampaign(entries).None? <==> forall i :: 0 <= i < |entries| ==> !CampaignSucceeded(entries[i])
  {
    Lists.FilterSortedMembers(entries, CampaignSucceeded, SuccessProbability);
    if Lists.FilterSorted(entries, CampaignSucceeded, SuccessProbability) == [] {
      forall i | 0 <= i < |entries|
        ensures !CampaignSucceeded(entries[i])
      {
        assert entries[i] in entries;
      }
    }
  }

  /** A best campaign is a successful entry of maximal success probability,
      ahead of every other entry of that probability. */
  lemma BestCampaignWins(entries: seq<CampaignEntry>)
    requires forall i :: 0 <= i < |entries| ==> entries[i].index == i
    requires BestCampaign(entries).Some?
    ensures
      var b := BestCampaign(entries).value;
      && b.index < |entries| && entries[b.index] == b && CampaignSucceeded(b)
      && (forall i :: 0 <= i < |entries| && CampaignSucceeded(entries[i]) ==>
            SuccessProbability(entries[i]) <= SuccessProbability(b))
      && (forall i :: 0 <= i < b.index && CampaignSucceeded(entries[i]) ==>
            SuccessProbability(entries[i]) < SuccessProbability(b))
  {
    var b := BestCampaign(entries).value;
    Lists.FilterSortedHead(entries, CampaignSucceeded, SuccessProbability, EntryIndex);
    var m :| 0 <= m < |entries| && entries[m] == b;
    assert b.index == m;
    forall i | 0 <= i < b.index && CampaignSucceeded(entries[i])
      ensures SuccessProbability(entries[i]) < SuccessProbability(b)
    {
      assert EntryIndex(entries[i]) < EntryIndex(b);
    }
  }

  /** POST /campaigns/batch-predict: one entry per campaign in input order,
      and the best successful one. */
  method BatchPredictCampaigns(service: MlPredictionService, ml: Runtime, disk: Disk, clock: Clock,
                               campaigns: Option<seq<Body>>) returns (r: Reply<CampaignBatch>)
    requires service.Valid()
    modifies service
    ensures service.Valid()
    ensures campaigns.None? ==> r == BadRequest("campaigns array is required")
    ensures campaigns.Some? ==> (
      && r.Success? && r.data.totalCampaigns == |campaigns.value| == |r.data.predictions|
      && (forall i :: 0 <= i < |campaigns.value| ==>
            r.data.predictions[i] == CampaignEntry(i, CampaignEntryOutcome(ml, clock,
              old(service.LoadedArtifacts(disk, CampaignRoi)), campaigns.value[i])))
      && r.data.bestCampaign == BestCampaign(r.data.predictions))
  {
    if campaigns.None? {
      return BadRequest("campaigns array is required");
    }
    var bodies := campaigns.value;
    ghost var artifacts := service.LoadedArtifacts(disk, CampaignRoi);
    var predictions: seq<CampaignEntry> := [];
    var i := 0;
    while i < |bodies|
      invariant 0 <= i <= |bodies| && |predictions| == i
      invariant service.Valid()
      invariant service.LoadedArtifacts(disk, CampaignRoi) == artifacts
      invariant forall k :: 0 <= k < i ==>
        predictions[k] == CampaignEntry(k, CampaignEntryOutcome(ml, clock, artifacts, bodies[k]))
    {
      var outcome: Try<CampaignOutcome>;
      if HasFields(CAMPAIGN_FIELDS, bodies[i]) {
        outcome := CallCampaign(service, ml, disk, clock, bodies[i]);
      } else {
        outcome := Raised(KeyError);
      }
      predictions := predictions + [CampaignEntry(i, outcome)];
      i := i + 1;
    }
    var successful := Lists.FilterSorted(predictions, CampaignSucceeded, SuccessProbability);
    var best := if successful == [] then None else Some(successful[0]);
    return Success(CampaignBatch(|bodies|, predictions, best));
  }

  // ---------------------------------------------------------- churn batch

  /** The batch churn reply. */
  datatype ChurnBatch = ChurnBatch(totalCustomers: nat, predictions: seq<Try<ChurnOutcome>>,
                                   highRiskCount: nat, highRiskCustomers: seq<Try<ChurnOutcome>>)

  /** A successful prediction with a churn probability of at least 50%. */
  predicate IsHighRisk(p: Try<ChurnOutcome>) {
    p.Ok? && p.value.ChurnAssessed? && p.value.probabilityPct >= 50.0
  }

  /** The sort key: an assessed customer's churn probability. */
  function ChurnProbability(p: Try<ChurnOutcome>): real {
    if p.Ok? && p.value.ChurnAssessed? then p.value.probabilityPct else 0.0
  }

  /** A batch element's outcome: `predict_customer_churn(**customer)` raises
      TypeError unless the keys are its parameters, caught into an error
      entry; otherwise the churn prediction. */
  function ChurnEntryOutcome(ml: Runtime, artifacts: Option<map<string, Obj>>, body: Body)
    : (r: Try<ChurnOutcome>)
    ensures !Binds(CHURN_FIELDS, body) ==> r == Raised(TypeError)
    ensures Binds(CHURN_FIELDS, body) ==> r == ChurnCall(ml, artifacts, body)
  {
    if Binds(CHURN_FIELDS, body) then ChurnCall(ml, artifacts, body) else Raised(TypeError)
  }

  /** The high-risk customers, highest probability first. */
  function HighRiskCustomers(predictions: seq<Try<ChurnOutcome>>): seq<Try<ChurnOutcome>> {
    Lists.FilterSorted(predictions, IsHighRisk, ChurnProbability)
  }

  /** The high-risk list holds exactly the assessed predictions of at least
      50%, as often as the batch does, from the highest probability down. */
  lemma HighRiskCustomersExactly(predictions: seq<Try<ChurnOutcome>>)
    ensures forall p :: p in HighRiskCustomers(predictions) <==> p in predictions && IsHighRisk(p)
    ensures forall p ::
      multiset(HighRiskCustomers(predictions))[p] == (if IsHighRisk(p) then multiset(predictions)[p] else 0)
    ensures forall i :: 0 <= i < |HighRiskCustomers(predictions)| ==> IsHighRisk(HighRiskCustomers(predictions)[i])
    ensures Lists.SortedDescending(HighRiskCustomers(predictions), ChurnProbability)
  {
    var h := HighRiskCustomers(predictions);
    Lists.FilterSortedMembers(predictions, IsHighRisk, ChurnProbability);
    forall i | 0 <= i < |h|
      ensures IsHighRisk(h[i])
    {
      assert h[i] in h;
    }
  }

  /** POST /customers/batch-churn-risk: one prediction per customer in input
      order, and the high-risk ones with their count. */
  method BatchPredictChurn(service: MlPredictionService, ml: Runtime, disk: Disk, customers: Option<seq<Body>>)
    returns (r: Reply<ChurnBatch>)
    requires service.Valid()
    modifies service
    ensures service.Valid()
    ensures customers.None? ==> r == BadRequest("customers array is required")
    ensures customers.Some? ==> (
      && r.Success? && r.data.totalCustomers == |customers.value| == |r.data.predictions|
      && (forall i :: 0 <= i < |customers.value| ==>
            r.data.predictions[i] ==
              ChurnEntryOutcome(ml, old(service.LoadedArtifacts(disk, CustomerChurn)), customers.value[i]))
      && r.data.highRiskCustomers == HighRiskCustomers(r.data.predictions)
      && r.data.highRiskCount == |r.data.highRiskCustomers|)
  {
    if customers.None? {
      return BadRequest("customers array is required");
    }
    var bodies := customers.value;
    ghost var artifacts := service.LoadedArtifacts(disk, CustomerChurn);
    var predictions: seq<Try<ChurnOutcome>> := [];
    var i := 0;
    while i < |bodies|
      invariant 0 <= i <= |bodies| && |predictions| == i
      invariant service.Valid()
      invariant service.LoadedArtifacts(disk, CustomerChurn) == artifacts
      invariant forall k :: 0 <= k < i ==> predictions[k] == ChurnEntryOutcome(ml, artifacts, bodies[k])
    {
      var outcome: Try<ChurnOutcome>;
      if Binds(CHURN_FIELDS, bodies[i]) {
        outcome := CallChurn(service, ml, disk, bodies[i]);
      } else {
        outcome := Raised(TypeError);
      }
      predictions := predictions + [outcome];
      i := i + 1;
    }
    var highRisk := Lists.FilterSorted(predictions, IsHighRisk, ChurnProbability);
    return Success(ChurnBatch(|bodies|, predictions, |highRisk|, highRisk));
  }

  // -------------------------------------------------------- cashier batch

  /** The batch cashier reply. */
  datatype CashierBatch = CashierBatch(totalShifts: nat, detections: seq<Try<CashierOutcome>>,
                                       criticalRiskCount: nat, criticalRisks: seq<Try<CashierOutcome>>)

  /** A successful detection at a critical or high risk level. */
  predicate IsCriticalRisk(d: Try<CashierOutcome>) {
    && d.Ok? && d.value.CashierAssessed?
    && (d.value.assessment.level == PredictionLabels.RiskCritical || d.value.assessment.level == PredictionLabels.RiskHigh)
  }

  /** The sort key: an assessed shift's risk score. */
  function RiskScore(d: Try<CashierOutcome>): real {
    if d.Ok? && d.value.CashierAssessed? then d.value.assessment.riskScore else 0.0
  }

  /** A batch element's outcome: `detect_cashier_anomalies(**shift)` raises
      TypeError unless the keys are its parameters; otherwise the
      detection, whose own exceptions are caught into error entries too. */
  function CashierEntryOutcome(ml: Runtime, artifacts: Option<map<string, Obj>>, body: Body)
    : (r: Try<CashierOutcome>)
    ensures !Binds(CASHIER_FIELDS, body) ==> r == Raised(TypeError)
    ensures Binds(CASHIER_FIELDS, body) ==> r == CashierCall(ml, artifacts, body)
  {
    if Binds(CASHIER_FIELDS, body) then CashierCall(ml, artifacts, body) else Raised(TypeError)
  }

  /** The critical and high risk shifts, highest score first. */
  function CriticalRisks(detections: seq<Try<CashierOutcome>>): seq<Try<CashierOutcome>> {
    Lists.FilterSorted(detections, IsCriticalRisk, RiskScore)
  }

  /** The critical-risk list holds exactly the assessed shifts at a critical
      or high level, as often as the batch does, from the highest score
      down; each of them requires action. */
  lemma CriticalRisksExactly(detections: seq<Try<CashierOutcome>>)
    ensures forall d :: d in CriticalRisks(detections) <==> d in detections && IsCriticalRisk(d)
    ensures forall d ::
      multiset(CriticalRisks(detections))[d] == (if IsCriticalRisk(d) then multiset(detections)[d] else 0)
    ensures Lists.SortedDescending(CriticalRisks(detections), RiskScore)
    ensures forall i :: 0 <= i < |CriticalRisks(detections)| ==>
      (IsCriticalRisk(CriticalRisks(detections)[i]) &&
       PredictionLabels.RequiresAction(CriticalRisks(detections)[i].value.assessment.level))
  {
    var c := CriticalRisks(detections);
    Lists.FilterSortedMembers(detections, IsCriticalRisk, RiskScore);
    forall i | 0 <= i < |c|
      ensures IsCriticalRisk(c[i]) && PredictionLabels.RequiresAction(c[i].value.assessment.level)
    {
      assert c[i] in c;
    }
  }

  /** POST /operations/batch-cashier-risk: one detection per shift in input
      order, and the critical ones with their count. */
  method BatchDetectCashierRisk(service: MlPredictionService, ml: Runtime, disk: Disk, shifts: Option<seq<Body>>)
    returns (r: Reply<CashierBatch>)
    requires service.Valid()
    modifies service
    ensures service.Valid()
    ensures shifts.None? ==> r == BadRequest("shifts array is required")
    ensures shifts.Some? ==> (
      && r.Success? && r.data.totalShifts == |shifts.value| == |r.data.detections|
      && (forall i :: 0 <= i < |shifts.value| ==>
            r.data.detections[i] ==
              CashierEntryOutcome(ml, old(service.LoadedArtifacts(disk, CashierRisk)), shifts.value[i]))
      && r.data.criticalRisks == CriticalRisks(r.data.detections)
      && r.data.criticalRiskCount == |r.data.criticalRisks|)
  {
    if shifts.None? {
      return BadRequest("shifts array is required");
    }
    var bodies := shifts.value;
    ghost var artifacts := service.LoadedArtifacts(disk, CashierRisk);
    var detections: seq<Try<CashierOutcome>> := [];
    var i := 0;
    while i < |bodies|
      invariant 0 <= i <= |bodies| && |detections| == i
      invariant service.Valid()
      invariant service.LoadedArtifacts(disk, CashierRisk) == artifacts
      invariant forall k :: 0 <= k < i ==> detections[k] == CashierEntryOutcome(ml, artifacts, bodies[k])
    {
      var outcome: Try<CashierOutcome>;
      if Binds(CASHIER_FIELDS, bodies[i]) {
        outcome := CallCashier(service, ml, disk, bodies[i]);
      } else {
        outcome := Raised(TypeError);
      }
      detections := detections + [outcome];
      i := i + 1;
    }
    var critical := Lists.FilterSorted(detections, IsCriticalRisk, RiskScore);
    return Success(CashierBatch(|bodies|, detections, |critical|, critical));
  }

  // --------------------------------------------------------- optimization

  /** optimize_campaign_parameters on the campaign artifacts loading yields:
      ValueError when the type is not configured, KeyError without a
      regressor entry, not ready with a None regressor, and otherwise the
      grid search's best campaign or its exception. */
  function OptimizeCall(ml: Runtime, clock: Clock, artifacts: Option<map<string, Obj>>, target: int,
                        maxDiscount: real): (r: Try<Optimization>)
    ensures artifacts.None? ==> r == Raised(ValueError)
    ensures artifacts.Some? && "regressor" !in artifacts.value ==> r == Raised(KeyError)
    ensures r == Ok(OptimizerNotReady) <==>
      artifacts.Some? && "regressor" in artifacts.value && artifacts.value["regressor"] == PyNone
    ensures r.Ok? && r.value.Optimized? ==>
      artifacts.Some? &&
      CampaignOptimizer.Fold(CampaignTrial(ml, clock, artifacts.value), target, CampaignOptimizer.Grid(maxDiscount))
        == Ok(r.value.best)
  {
    match artifacts
    case None => Raised(ValueError)
    case Some(a) =>
      if "regressor" !in a then Raised(KeyError)
      else if a["regressor"] == PyNone then Ok(OptimizerNotReady)
      else
        match CampaignOptimizer.Fold(CampaignTrial(ml, clock, a), target, CampaignOptimizer.Grid(maxDiscount))
        case Ok(best) => Ok(Optimized(best))
        case Raised(e) => Raised(e)
  }

  /** POST /campaigns/optimize: the optimization for the body's target
      (25 redemptions by default) and discount cap (30% by default), with an
      escaped exception as 500. */
  method OptimizeCampaign(service: MlPredictionService, ml: Runtime, disk: Disk, clock: Clock,
                          targetRedemptions: Option<int>, maxDiscount: Option<real>) returns (r: Reply<Optimization>)
    requires service.Valid()
    modifies service
    ensures service.Valid()
    ensures r == ReplyOf(OptimizeCall(ml, clock, old(service.LoadedArtifacts(disk, CampaignRoi)),
                                      targetRedemptions.OrElse(25), maxDiscount.OrElse(30.0)))
  {
    var optimization := service.OptimizeCampaignParameters(ml, disk, clock, targetRedemptions.OrElse(25),
                                                           maxDiscount.OrElse(30.0));
    r := ReplyOf(optimization);
  }

  // --------------------------------------------------------------- demand

  /** The row `SELECT id, title, price FROM dim_items WHERE id = ?` gives. */
  datatype ItemRow = ItemRow(id: int, title: Option<string>, price: Option<real>)

  /** The title of an item, None when the item or its title is absent. */
  function ItemTitle(items: map<int, ItemRow>, id: int): Option<string> {
    if id in items then items[id].title else None
  }

  /** A forecast made by the category model of `itemName`: its summary with
      that category's recorded error, over the daily predictions chained
      from the cached model and scaler. */
  predicate ForecastFits(ml: Runtime, clock: Clock, modelCache: map<string, Obj>,
                         scalerCache: map<string, Option<Obj>>, errors: map<string, real>, itemName: string,
                         days: int, isHoliday: bool, campaignActive: bool, f: DemandSummary)
  {
    var category := ForecastCategory(itemName);
    var mae := if category in errors then Some(errors[category]) else None;
    && Summarize(category, f.predictions, days, mae) == Ok(f)
    && (days < 0 ==> f.predictions == [])
    && (days > 0 ==>
          && category in modelCache && category in scalerCache
          && f.predictions == Chain(ml, modelCache[category], scalerCache[category], clock, days, isHoliday,
                                    campaignActive))
  }

  /** A predict_demand outcome for an item titled `title`, with a forecaster:
      no title asks for one, zero days divides by zero, a missing category
      model names the category, and a forecast fits the caches. */
  predicate DemandEntryFits(ml: Runtime, clock: Clock, modelCache: map<string, Obj>,
                            scalerCache: map<string, Option<Obj>>, errors: map<string, real>, title: Option<string>,
                            days: int, isHoliday: bool, campaignActive: bool, outcome: DemandOutcome)
  {
    && outcome != NotInitialized
    && ((title.None? || title == Some("")) ==> outcome == NameRequired)
    && ((title.Some? && title.value != "" && days == 0) ==> outcome == PredictionFailed(ZeroDivisionError))
    && (outcome.NoCategoryModel? ==> title.Some? && outcome.categoryAttempted == ForecastCategory(title.value))
    && (outcome.Forecast? ==>
          && title.Some? && title.value != ""
          && ForecastFits(ml, clock, modelCache, scalerCache, errors, title.value, days, isHoliday, campaignActive,
                          outcome.forecast))
  }

  /** A forecast still fits once the caches have grown around it. */
  lemma DemandEntryFitsGrows(ml: Runtime, clock: Clock, modelCache: map<string, Obj>,
                             scalerCache: map<string, Option<Obj>>, modelCache': map<string, Obj>,
                             scalerCache': map<string, Option<Obj>>, errors: map<string, real>,
                             title: Option<string>, days: int, isHoliday: bool, campaignActive: bool,
                             outcome: DemandOutcome)
    requires forall c :: c in modelCache ==> c in modelCache' && modelCache'[c] == modelCache[c]
    requires forall c :: c in scalerCache ==> c in scalerCache' && scalerCache'[c] == scalerCache[c]
    requires DemandEntryFits(ml, clock, modelCache, scalerCache, errors, title, days, isHoliday, campaignActive, outcome)
    ensures DemandEntryFits(ml, clock, modelCache', scalerCache', errors, title, days, isHoliday, campaignActive, outcome)
  {
    if outcome.Forecast? && days > 0 {
      var category := ForecastCategory(title.value);
      assert modelCache'[category] == modelCache[category];
      assert scalerCache'[category] == scalerCache[category];
    }
  }

  /** Whether predict_demand yields a forecast for an item titled `title`
      over `days` days: it has a non-empty title, the day count is not zero,
      and either no day is predicted or the category's model and scaler can
      be had on this disk. */
  predicate Servable(sf: CategoryForecaster.StockForecaster, disk: Disk, title: Option<string>, days: int)
    reads sf
  {
    title.Some? && title.value != "" && days != 0 && (days < 0 || sf.Loadable(disk, ForecastCategory(title.value)))
  }

  /** The body of predict_item_demand's reply. */
  datatype DemandReply =
    | DemandItemIdRequired                                   // 400: no item_id
    | DemandItemNotFound                                     // 404: no such item
    | DemandRejected(outcome: DemandOutcome)                 // 400: the service reported an error
    | DemandReady(forecast: DemandSummary, item: ItemRow)    // 200: the forecast with the item's details
  {
    function Status(): int {
      match this
      case DemandItemIdRequired => 400
      case DemandItemNotFound => 404
      case DemandRejected(_) => 400
      case DemandReady(_, _) => 200
    }
  }

  /** A forecast request body's fields, None where a key is absent. */
  datatype DemandRequest = DemandRequest(itemId: Option<int>, forecastDays: Option<int>, isHoliday: Option<bool>,
                                         campaignActive: Option<bool>)

  /** POST /forecast/demand: 400 without item_id, 404 for an unknown item,
      400 when the service reports an error, otherwise the forecast of the
      item's category over 7 days by default, with the item's details. */
  method PredictItemDemand(service: MlPredictionService, ml: Runtime, disk: Disk, clock: Clock,
                           items: map<int, ItemRow>, req: DemandRequest) returns (r: DemandReply)
    requires service.Valid()
    modifies service.stockForecaster
    ensures service.Valid()
    ensures r == DemandItemIdRequired <==> req.itemId.None?
    ensures r == DemandItemNotFound <==> req.itemId.Some? && req.itemId.value !in items
    ensures r.DemandRejected? || r.DemandReady? ==> req.itemId.Some? && req.itemId.value in items
    ensures r.DemandRejected? ==> !r.outcome.Forecast?
    ensures r.DemandReady? ==> r.item == items[req.itemId.value]
    ensures req.itemId.Some? && req.itemId.value in items && service.stockForecaster == null ==>
      r == DemandRejected(NotInitialized)
    ensures (r.DemandRejected? || r.DemandReady?) && service.stockForecaster != null ==>
      var sf := service.stockForecaster;
      DemandEntryFits(ml, clock, sf.modelCache, sf.scalerCache, sf.errors, items[req.itemId.value].title,
                      req.forecastDays.OrElse(7), req.isHoliday.OrElse(false), req.campaignActive.OrElse(false),
                      if r.DemandReady? then Forecast(r.forecast) else r.outcome)
    ensures req.itemId.Some? && req.itemId.value in items && service.stockForecaster != null ==>
      var sf := service.stockForecaster;
      var title := items[req.itemId.value].title;
      var days := req.forecastDays.OrElse(7);
      && (r.DemandReady? <==> old(Servable(sf, disk, title, days)))
      && (title.Some? && title.value != "" && days > 0 && ForecastCategory(title.value) !in old(sf.modelCache) &&
          !disk.Exists(sf.ModelPath(ForecastCategory(title.value))) ==>
            r == DemandRejected(NoCategoryModel(ForecastCategory(title.value))))
  {
    if req.itemId.None? {
      return DemandItemIdRequired;
    }
    var id := req.itemId.value;
    if id !in items {
      return DemandItemNotFound;
    }
    var item := items[id];
    var forecast := PredictFitting(service, ml, disk, clock, item.title, req.forecastDays.OrElse(7),
                                   req.isHoliday.OrElse(false), req.campaignActive.OrElse(false));
    if !forecast.Forecast? {
      return DemandRejected(forecast);
    }
    return DemandReady(forecast.forecast, item);
  }

  /** The body of get_reorder_recommendations's reply. */
  datatype ReorderReply =
    | ReorderItemIdRequired                                  // 400: no item_id
    | StockRequired                                          // 400: no current_stock
    | ReorderRejected(outcome: DemandOutcome)                // 400: the forecast failed
    | ReorderReady(forecast: DemandSummary, reorder: Reorder) // 200: the recommendation
  {
    function Status(): int {
      match this
      case ReorderItemIdRequired => 400
      case StockRequired => 400
      case ReorderRejected(_) => 400
      case ReorderReady(_, _) => 200
    }
  }

  /** A reorder request body's fields, None where a key is absent. */
  datatype ReorderRequest = ReorderRequest(itemId: Option<int>, currentStock: Option<real>,
                                           leadTimeDays: Option<int>, safetyMultiplier: Option<real>)

  /** get_reorder_recommendations for an item titled `title`: with a
      forecaster and a title, the advice over a forecast that fits the
      caches. */
  method AdviseFitting(service: MlPredictionService, ml: Runtime, disk: Disk, clock: Clock, title: Option<string>,
                       currentStock: real, leadTimeDays: int, safetyMultiplier: real) returns (r: ReorderOutcome)
    requires service.Valid()
    modifies service.stockForecaster
    ensures service.Valid()
    ensures service.stockForecaster == null ==> r == ForecastError(NotInitialized)
    ensures service.stockForecaster != null && (title.None? || title == Some("")) ==> r == ForecastError(NameRequired)
    ensures r.ForecastError? ==> !r.outcome.Forecast?
    ensures r.Recommendation? ==> (
      && IsAdvice(r.forecast, clock, currentStock, leadTimeDays, safetyMultiplier, r.reorder)
      && service.stockForecaster != null && title.Some?
      && var sf := service.stockForecaster;
      && ForecastFits(ml, clock, sf.modelCache, sf.scalerCache, sf.errors, title.value, leadTimeDays + 7, false,
                      false, r.forecast))
    ensures service.stockForecaster != null ==>
      var sf := service.stockForecaster;
      && (r.Recommendation? <==> old(Servable(sf, disk, title, leadTimeDays + 7)))
      && (title.Some? && title.value != "" && leadTimeDays + 7 == 0 ==>
            r == ForecastError(PredictionFailed(ZeroDivisionError)))
      && (title.Some? && title.value != "" && leadTimeDays + 7 > 0 &&
          ForecastCategory(title.value) !in old(sf.modelCache) &&
          !disk.Exists(sf.ModelPath(ForecastCategory(title.value))) ==>
            r == ForecastError(NoCategoryModel(ForecastCategory(title.value))))
  {
    r := service.ReorderRecommendations(ml, disk, clock, currentStock, leadTimeDays, safetyMultiplier, title);
  }

  /** POST /forecast/reorder-recommendations: 400 without item_id or
      current_stock; an unknown item has no name, so the forecast is refused
      rather than answered with 404; otherwise the advice over the lead time
      (3 days by default) plus a week, with a safety multiplier of 1.2 by
      default. */
  method ReorderRecommendationsRoute(service: MlPredictionService, ml: Runtime, disk: Disk, clock: Clock,
                                     items: map<int, ItemRow>, req: ReorderRequest) returns (r: ReorderReply)
    requires service.Valid()
    modifies service.stockForecaster
    ensures service.Valid()
    ensures r == ReorderItemIdRequired <==> req.itemId.None?
    ensures r == StockRequired <==> req.itemId.Some? && req.currentStock.None?
    ensures r.ReorderRejected? ==> !r.outcome.Forecast?
    ensures req.itemId.Some? && req.currentStock.Some? && service.stockForecaster == null ==>
      r == ReorderRejected(NotInitialized)
    ensures req.itemId.Some? && req.currentStock.Some? && service.stockForecaster != null &&
            (ItemTitle(items, req.itemId.value).None? || ItemTitle(items, req.itemId.value) == Some("")) ==>
      r == ReorderRejected(NameRequired)
    ensures r.ReorderReady? ==> (
      var lead := req.leadTimeDays.OrElse(3);
      var title := ItemTitle(items, req.itemId.value);
      && req.itemId.Some? && req.currentStock.Some?
      && IsAdvice(r.forecast, clock, req.currentStock.value, lead, req.safetyMultiplier.OrElse(1.2), r.reorder)
      && service.stockForecaster != null && title.Some?
      && var sf := service.stockForecaster;
      && ForecastFits(ml, clock, sf.modelCache, sf.scalerCache, sf.errors, title.value, lead + 7, false, false,
                      r.forecast))
    ensures req.itemId.Some? && req.currentStock.Some? && service.stockForecaster != null ==>
      var sf := service.stockForecaster;
      var title := ItemTitle(items, req.itemId.value);
      var days := req.leadTimeDays.OrElse(3) + 7;
      && (r.ReorderReady? <==> old(Servable(sf, disk, title, days)))
      && (title.Some? && title.value != "" && days == 0 ==> r == ReorderRejected(PredictionFailed(ZeroDivisionError)))
      && (title.Some? && title.value != "" && days > 0 && ForecastCategory(title.value) !in old(sf.modelCache) &&
          !disk.Exists(sf.ModelPath(ForecastCategory(title.value))) ==>
            r == ReorderRejected(NoCategoryModel(ForecastCategory(title.value))))
  {
    if req.itemId.None? {
      return ReorderItemIdRequired;
    }
    if req.currentStock.None? {
      return StockRequired;
    }
    var title := ItemTitle(items, req.itemId.value);
    var advice := AdviseFitting(service, ml, disk, clock, title, req.currentStock.value, req.leadTimeDays.OrElse(3),
                                req.safetyMultiplier.OrElse(1.2));
    if advice.ForecastError? {
      return ReorderRejected(advice.outcome);
    }
    return ReorderReady(advice.forecast, advice.reorder);
  }

  /** The bulk forecast reply. */
  datatype BulkForecast = BulkForecast(totalItems: nat, forecasts: seq<DemandOutcome>)

  /** Every outcome fits its item's title. */
  predicate EntriesFit(ml: Runtime, clock: Clock, modelCache: map<string, Obj>,
                       scalerCache: map<string, Option<Obj>>, errors: map<string, real>,
                       titles: seq<Option<string>>, days: int, outcomes: seq<DemandOutcome>)
  {
    && |titles| == |outcomes|
    && forall k :: 0 <= k < |outcomes| ==>
         DemandEntryFits(ml, clock, modelCache, scalerCache, errors, titles[k], days, false, false, outcomes[k])
  }

  /** predict_demand for an item titled `title`: the outcome fits the grown
      caches, which keep every entry they held. */
  method PredictFitting(service: MlPredictionService, ml: Runtime, disk: Disk, clock: Clock, title: Option<string>,
                        days: int, isHoliday: bool, campaignActive: bool) returns (outcome: DemandOutcome)
    requires service.Valid()
    modifies service.stockForecaster
    ensures service.Valid()
    ensures service.stockForecaster == null ==> outcome == NotInitialized
    ensures service.stockForecaster != null ==>
      var sf := service.stockForecaster;
      && (forall c :: c in old(sf.modelCache) ==> c in sf.modelCache && sf.modelCache[c] == old(sf.modelCache[c]))
      && (forall c :: c in old(sf.scalerCache) ==> c in sf.scalerCache && sf.scalerCache[c] == old(sf.scalerCache[c]))
      && DemandEntryFits(ml, clock, sf.modelCache, sf.scalerCache, sf.errors, title, days, isHoliday, campaignActive,
                         outcome)
      && (outcome.Forecast? <==> old(Servable(sf, disk, title, days)))
      && (forall c :: sf.Loadable(disk, c) == old(sf.Loadable(disk, c)))
      && (title.Some? && title.value != "" && days > 0 && ForecastCategory(title.value) !in old(sf.modelCache) &&
          !disk.Exists(sf.ModelPath(ForecastCategory(title.value))) ==>
            outcome == NoCategoryModel(ForecastCategory(title.value)))
  {
    outcome := service.PredictDemand(ml, disk, clock, days, isHoliday, campaignActive, title);
  }

  /** One item of the bulk forecast: predict_demand without holiday or
      campaign; the earlier entries keep fitting the grown caches. */
  method ForecastItem(service: MlPredictionService, ml: Runtime, disk: Disk, clock: Clock, title: Option<string>,
                      days: int, ghost titles: seq<Option<string>>, ghost done: seq<DemandOutcome>)
    returns (outcome: DemandOutcome)
    requires service.Valid()
    requires service.stockForecaster != null ==>
      EntriesFit(ml, clock, service.stockForecaster.modelCache, service.stockForecaster.scalerCache,
                 service.stockForecaster.errors, titles, days, done)
    requires service.stockForecaster != null ==>
      forall k :: 0 <= k < |done| ==> (done[k].Forecast? <==> Servable(service.stockForecaster, disk, titles[k], days))
    modifies service.stockForecaster
    ensures service.Valid()
    ensures service.stockForecaster == null ==> outcome == NotInitialized
    ensures service.stockForecaster != null ==>
      EntriesFit(ml, clock, service.stockForecaster.modelCache, service.stockForecaster.scalerCache,
                 service.stockForecaster.errors, titles + [title], days, done + [outcome])
    ensures service.stockForecaster != null ==>
      && (forall c :: service.stockForecaster.Loadable(disk, c) == old(service.stockForecaster.Loadable(disk, c)))
      && (outcome.Forecast? <==> Servable(service.stockForecaster, disk, title, days))
      && forall k :: 0 <= k < |done| ==> (done[k].Forecast? <==> Servable(service.stockForecaster, disk, titles[k], days))
  {
    var sf := service.stockForecaster;
    ghost var modelCache := if sf != null then sf.modelCache else map[];
    ghost var scalerCache := if sf != null then sf.scalerCache else map[];
    outcome := PredictFitting(service, ml, disk, clock, title, days, false, false);
    if sf != null {
      forall k | 0 <= k < |done|
        ensures DemandEntryFits(ml, clock, sf.modelCache, sf.scalerCache, sf.errors, titles[k], days, false, false,
                                done[k])
      {
        DemandEntryFitsGrows(ml, clock, modelCache, scalerCache, sf.modelCache, sf.scalerCache, sf.errors,
                             titles[k], days, false, false, done[k]);
      }
      assert (titles + [title])[|done|] == title;
    }
  }

  /** POST /forecast/bulk-items: 400 without an item_ids list, otherwise one
      forecast per id in input order, over 7 days by default. */
  method BulkForecastDemand(service: MlPredictionService, ml: Runtime, disk: Disk, clock: Clock,
                            items: map<int, ItemRow>, itemIds: Option<seq<int>>, forecastDays: Option<int>)
    returns (r: Reply<BulkForecast>)
    requires service.Valid()
    modifies service.stockForecaster
    ensures service.Valid()
    ensures itemIds.None? ==> r == BadRequest("item_ids array is required")
    ensures itemIds.Some? ==> r.Success? && r.data.totalItems == |itemIds.value| == |r.data.forecasts|
    ensures itemIds.Some? && service.stockForecaster == null ==>
      forall i :: 0 <= i < |r.data.forecasts| ==> r.data.forecasts[i] == NotInitialized
    ensures itemIds.Some? && service.stockForecaster != null ==>
      var sf := service.stockForecaster;
      forall i :: 0 <= i < |itemIds.value| ==>
        DemandEntryFits(ml, clock, sf.modelCache, sf.scalerCache, sf.errors, ItemTitle(items, itemIds.value[i]),
                        forecastDays.OrElse(7), false, false, r.data.forecasts[i])
    ensures itemIds.Some? && service.stockForecaster != null ==>
      var sf := service.stockForecaster;
      forall i :: 0 <= i < |itemIds.value| ==>
        (r.data.forecasts[i].Forecast? <==> old(Servable(sf, disk, ItemTitle(items, itemIds.value[i]),
                                                         forecastDays.OrElse(7))))
  {
    if itemIds.None? {
      return BadRequest("item_ids array is required");
    }
    var ids := itemIds.value;
    var days := forecastDays.OrElse(7);
    ghost var titles: seq<Option<string>> := [];
    var forecasts: seq<DemandOutcome> := [];
    var i := 0;
    while i < |ids|
      invariant 0 <= i <= |ids| && |forecasts| == i && |titles| == i
      invariant service.Valid()
      invariant forall k :: 0 <= k < i ==> titles[k] == ItemTitle(items, ids[k])
      invariant service.stockForecaster == null ==> forall k :: 0 <= k < i ==> forecasts[k] == NotInitialized
      invariant service.stockForecaster != null ==>
        EntriesFit(ml, clock, service.stockForecaster.modelCache, service.stockForecaster.scalerCache,
                   service.stockForecaster.errors, titles, days, forecasts)
      invariant service.stockForecaster != null ==>
        && (forall c :: service.stockForecaster.Loadable(disk, c) == old(service.stockForecaster.Loadable(disk, c)))
        && forall k :: 0 <= k < i ==>
             (forecasts[k].Forecast? <==> Servable(service.stockForecaster, disk, titles[k], days))
    {
      var title := ItemTitle(items, ids[i]);
      var outcome := ForecastItem(service, ml, disk, clock, title, days, titles, forecasts);
      titles := titles + [title];
      forecasts := forecasts + [outcome];
      i := i + 1;
    }
    return Success(BulkForecast(|ids|, forecasts));
  }
}
