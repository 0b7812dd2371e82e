/**
 * The decisions the HTTP endpoints make around the service: the health
 * status and model count, the bounds and defaults of a prediction request,
 * and the status code each endpoint answers with.
 */
module Api {
  import opened Wrappers
  import opened Decimal
  import opened Calendar
  import opened ServiceConfig
  import opened ParkDatabase
  import opened ModelTrainer
  import opened Predictor

  /** An endpoint's answer: a body with status 200, or an HTTP error status with its detail text. */
  datatype Reply<+T> = Answer(body: T) | HttpError(status: int, detail: string)

  // ---------------------------------------------------------------------------
  // GET /health
  // ---------------------------------------------------------------------------

  datatype HealthResponse = HealthResponse(
    status: string,
    timestamp: Timestamp,
    version: string,
    databaseConnected: bool,
    modelsAvailable: nat)

  /** `sum(1 for park in available_parks if park['has_model'])`. */
  function CountWithModel(entries: seq<ParkEntry>): (n: nat)
    ensures n <= |entries|
  {
    if |entries| == 0 then 0
    else CountWithModel(entries[..|entries| - 1]) + (if entries[|entries| - 1].hasModel then 1 else 0)
  }

  /** Counting over two lists one after the other adds the counts. */
  lemma {:induction false} CountWithModelAppend(a: seq<ParkEntry>, b: seq<ParkEntry>)
    ensures CountWithModel(a + b) == CountWithModel(a) + CountWithModel(b)
    decreases |b|
  {
    if |b| == 0 {
      assert a + b == a;
    } else {
      assert (a + b)[..|a + b| - 1] == a + b[..|b| - 1];
      CountWithModelAppend(a, b[..|b| - 1]);
    }
  }

  /** The count is the whole list exactly when every park has a model, and zero exactly when none has. */
  lemma {:induction false} CountWithModelExtremes(entries: seq<ParkEntry>)
    ensures CountWithModel(entries) == |entries| <==> forall i :: 0 <= i < |entries| ==> entries[i].hasModel
    ensures CountWithModel(entries) == 0 <==> forall i :: 0 <= i < |entries| ==> !entries[i].hasModel
    decreases |entries|
  {
    if |entries| > 0 {
      var front := entries[..|entries| - 1];
      CountWithModelExtremes(front);
      assert forall i :: 0 <= i < |front| ==> front[i] == entries[i];
    }
  }

  /** The number of listed parks whose default model file exists. */
  function CountModelFiles(files: map<string, StoredFile>, ids: seq<string>): nat {
    if |ids| == 0 then 0
    else CountModelFiles(files, ids[..|ids| - 1]) + (if ModelPath(ModelDir, ids[|ids| - 1]) in files then 1 else 0)
  }

  /**
   * When each entry's `has_model` says whether its park's default model file
   * exists (as `ParkEntrySpec` shows for the list the service builds), the
   * model count is the number of parks whose model file exists.
   */
  lemma {:induction false} CountOfAvailableParks(files: map<string, StoredFile>, ids: seq<string>, entries: seq<ParkEntry>)
    requires |entries| == |ids|
    requires forall i :: 0 <= i < |ids| ==> (entries[i].hasModel <==> ModelPath(ModelDir, ids[i]) in files)
    ensures CountWithModel(entries) == CountModelFiles(files, ids)
    decreases |ids|
  {
    if |ids| > 0 {
      var k := |ids| - 1;
      CountOfAvailableParks(files, ids[..k], entries[..k]);
    }
  }

  /** Over the list `get_available_parks` builds, the model count is the number of parks whose model file exists. */
  lemma HealthCountsModelFiles(db: Database, files: map<string, StoredFile>, entries: seq<ParkEntry>)
    requires |entries| == |AllParks(db)|
    requires forall i :: 0 <= i < |entries| ==> entries[i] == ParkEntryFor(db, files, AllParks(db)[i])
    ensures CountWithModel(entries) == CountModelFiles(files, AllParks(db))
  {
    var ids := AllParks(db);
    forall i | 0 <= i < |ids|
      ensures entries[i].hasModel <==> ModelPath(ModelDir, ids[i]) in files
    {
      ParkEntrySpec(ParkNames, ParkCoordinates, db, files, ids[i]);
    }
    CountOfAvailableParks(files, ids, entries);
  }

  /**
   * `health_check`: `parks` is what `get_all_parks` gave and `entries` what
   * `get_available_parks` gave. `get_all_parks` answers an empty list instead
   * of raising, and `len(parks) >= 0` holds for every list, so the database
   * always counts as connected and the status is always "healthy", even when
   * the database is down.
   */
  function HealthCheck(parks: seq<string>, entries: seq<ParkEntry>, now: Timestamp): (r: HealthResponse)
    ensures r.status == "healthy" && r.databaseConnected
    ensures r.version == ApiVersion && r.timestamp == now
    ensures r.modelsAvailable == CountWithModel(entries) && r.modelsAvailable <= |entries|
  {
    var connected := |parks| >= 0;
    HealthResponse(if connected then "healthy" else "degraded", now, ApiVersion, connected, CountWithModel(entries))
  }

  // ---------------------------------------------------------------------------
  // Prediction requests
  // ---------------------------------------------------------------------------

  const DefaultDaysAhead := 30
  const MinDaysAhead := 1
  const MaxDaysAhead := 365
  const DateFormatDetail := "Date must be in YYYY-MM-DD format"

  /** A validated `PredictionRequest`. */
  datatype PredictionRequest = PredictionRequest(parkId: string, startDate: string, daysAhead: int)

  /**
   * A field that failed validation: the start date, with the text of the
   * validator's ValueError, or the number of days, with the bound of the
   * `ge` or `le` constraint it broke. The wording pydantic gives the latter
   * two is not modelled.
   */
  datatype FieldError =
    | StartDateError(message: string)
    | DaysBelowMinimum(limit: int)
    | DaysAboveMaximum(limit: int)

  /** The `days_ahead` bounds `Field(30, ge=1, le=365)` and `Query(30, ge=1, le=365)` share, with their default. */
  function DaysAheadOrDefault(daysAhead: Option<int>): (r: Result<int, FieldError>)
    ensures daysAhead.None? ==> r == Ok(30)
    ensures daysAhead.Some? ==> (r.Ok? <==> 1 <= daysAhead.value <= 365)
    ensures r.Ok? ==> 1 <= r.value <= 365 && (daysAhead.Some? ==> r.value == daysAhead.value)
    ensures daysAhead.Some? && daysAhead.value < 1 ==> r == Err(DaysBelowMinimum(1))
    ensures daysAhead.Some? && daysAhead.value > 365 ==> r == Err(DaysAboveMaximum(365))
  {
    match daysAhead
    case None => Ok(DefaultDaysAhead)
    case Some(d) =>
      if d < MinDaysAhead then Err(DaysBelowMinimum(MinDaysAhead))
      else if d > MaxDaysAhead then Err(DaysAboveMaximum(MaxDaysAhead))
      else Ok(d)
  }

  /**
   * `PredictionRequest(...)`: the field errors in field order (the start date,
   * then the number of days), or the validated request.
   */
  function ValidateRequest(parkId: string, startDate: string, daysAhead: Option<int>): (r: Result<PredictionRequest, seq<FieldError>>)
    ensures r.Ok? <==> ParseIsoDate(startDate).Some? && DaysAheadOrDefault(daysAhead).Ok?
    ensures r.Ok? ==> r.value.parkId == parkId && r.value.startDate == startDate && 1 <= r.value.daysAhead <= 365
    ensures r.Err? ==> 1 <= |r.error| <= 2
    ensures ParseIsoDate(startDate).None? ==> r.Err? && r.error[0] == StartDateError(DateFormatDetail)
    ensures DaysAheadOrDefault(daysAhead).Err? ==> r.Err? && r.error[|r.error| - 1] == DaysAheadOrDefault(daysAhead).error
  {
    var dateErrors := if ParseIsoDate(startDate).Some? then [] else [StartDateError(DateFormatDetail)];
    var dayErrors := if DaysAheadOrDefault(daysAhead).Ok? then [] else [DaysAheadOrDefault(daysAhead).error];
    if dateErrors + dayErrors == [] then Ok(PredictionRequest(parkId, startDate, DaysAheadOrDefault(daysAhead).value))
    else Err(dateErrors + dayErrors)
  }

  /** What `quick_predict` does before it hands the request to the service. */
  datatype QuickPredictStep =
    | Forward(request: PredictionRequest)
    | Refuse(status: int)

  /** `(today + timedelta(days=1)).strftime('%Y-%m-%d')`; None when the day after is past year 9999 (OverflowError). */
  function TomorrowText(today: PyDate): (s: Option<string>)
    ensures s.Some? <==> NextDay(today).year <= 9999
    ensures s.Some? ==> s.value == FormatIsoDate(NextDay(today))
  {
    var tomorrow := NextDay(today);
    if tomorrow.year <= 9999 then Some(FormatIsoDate(tomorrow)) else None
  }

  /**
   * `quick_predict`: a number of days outside the bounds is refused with 422
   * before the handler runs; a missing start date becomes tomorrow; a
   * request the model class then rejects (or a tomorrow past year 9999)
   * raises inside the handler and becomes 500.
   */
  function QuickPredict(parkId: string, daysAhead: Option<int>, startDate: Option<string>, today: PyDate): (step: QuickPredictStep)
    ensures DaysAheadOrDefault(daysAhead).Err? ==> step == Refuse(422)
    ensures step.Forward? ==> step.request.parkId == parkId && step.request.daysAhead == DaysAheadOrDefault(daysAhead).value
    ensures step.Forward? && startDate.Some? ==> step.request.startDate == startDate.value
    ensures DaysAheadOrDefault(daysAhead).Ok? && startDate.Some? ==>
      step == (if ValidateRequest(parkId, startDate.value, daysAhead).Ok?
               then Forward(ValidateRequest(parkId, startDate.value, daysAhead).value) else Refuse(500))
    ensures DaysAheadOrDefault(daysAhead).Ok? && startDate.None? && NextDay(today).year <= 9999 ==>
      step == Forward(PredictionRequest(parkId, FormatIsoDate(NextDay(today)), DaysAheadOrDefault(daysAhead).value))
    ensures DaysAheadOrDefault(daysAhead).Ok? && startDate.None? && NextDay(today).year > 9999 ==> step == Refuse(500)
  {
    match DaysAheadOrDefault(daysAhead)
    case Err(_) => Refuse(422)
    case Ok(days) =>
      if startDate.Some? then ForwardIfValid(parkId, startDate.value, days)
      else if NextDay(today).year > 9999 then Refuse(500)
      else (ParseFormatIsoDate(NextDay(today)); ForwardIfValid(parkId, FormatIsoDate(NextDay(today)), days))
  }

  function ForwardIfValid(parkId: string, startDate: string, days: int): QuickPredictStep {
    match ValidateRequest(parkId, startDate, Some(days))
    case Err(_) => Refuse(500)
    case Ok(request) => Forward(request)
  }

  /**
   * The default start date of `quick_predict` always passes the service's
   * checks: it reads back as tomorrow, which is not in the past.
   */
  lemma QuickPredictDefaultAccepted(parkId: string, daysAhead: Option<int>, today: PyDate)
    requires DaysAheadOrDefault(daysAhead).Ok? && NextDay(today).year <= 9999
    ensures QuickPredict(parkId, daysAhead, None, today).Forward?
    ensures var request := QuickPredict(parkId, daysAhead, None, today).request;
      CheckRequest(request.startDate, request.daysAhead, today) == Ok(NextDay(today))
  {
    var tomorrow := NextDay(today);
    ParseFormatIsoDate(tomorrow);
    NotAfterIffOrdinal(today, tomorrow);
  }

  /** A request the model class accepts passes the service's checks exactly when its start date is not in the past. */
  lemma ValidatedRequestChecks(parkId: string, startDate: string, daysAhead: Option<int>, today: Date)
    requires ValidateRequest(parkId, startDate, daysAhead).Ok?
    ensures var request := ValidateRequest(parkId, startDate, daysAhead).value;
      CheckRequest(request.startDate, request.daysAhead, today).Ok? <==> NotAfter(today, ParseIsoDate(startDate).value)
  {
  }

  // ---------------------------------------------------------------------------
  // GET /parks/{park_id}/stats
  // ---------------------------------------------------------------------------

  function NotFoundDetail(parkId: string): string {
    "Park " + parkId + " not found"
  }

  /**
   * `get_park_stats`: `stats` is what the database call returned. No
   * statistics is 404, and the endpoint's own 404 passes the handler
   * unchanged. The call never raises: it answers None when its query raised,
   * and only then, since a park without rows still has a record with zero
   * days. So the 404 stands for a failed query, not an unknown park, and the
   * handler's 500 branch is never taken.
   */
  function StatsEndpoint(parkId: string, stats: Option<ParkStats>): (r: Reply<ParkStats>)
    ensures r.Answer? <==> stats.Some?
    ensures r.Answer? ==> r.body == stats.value
    ensures stats.None? ==> r == HttpError(404, NotFoundDetail(parkId))
  {
    match stats
    case None => HttpError(404, NotFoundDetail(parkId))
    case Some(s) => Answer(s)
  }

  // ---------------------------------------------------------------------------
  // POST /models/train/{park_id} and POST /models/train-all
  // ---------------------------------------------------------------------------

  /** The body of a training request; the retraining itself runs later as a background task. */
  datatype TrainingStarted = TrainingStarted(message: string, parkId: Option<string>, status: string, parksCount: Option<nat>)

  const TrainingStartedStatus := "training_started"

  /**
   * `retrain_model`: `parks` is what `get_all_parks` returned. A park not in
   * the list is 404; otherwise the training is scheduled and the park echoed.
   * `get_all_parks` answers an empty list when its query fails, so a database
   * failure is also 404, and the handler's 500 branch is never taken.
   */
  function RetrainEndpoint(parkId: string, parks: seq<string>): (r: Reply<TrainingStarted>)
    ensures parkId !in parks ==> r == HttpError(404, NotFoundDetail(parkId))
    ensures r.Answer? <==> parkId in parks
    ensures r.Answer? ==> r.body.parkId == Some(parkId) && r.body.status == "training_started"
  {
    if parkId !in parks then HttpError(404, NotFoundDetail(parkId))
    else Answer(TrainingStarted("Model retraining started for park " + parkId, Some(parkId), TrainingStartedStatus, None))
  }

  /** `retrain_all_models`: the training of every park is scheduled and the number of parks reported. */
  function RetrainAllEndpoint(parks: seq<string>): (r: Reply<TrainingStarted>)
    ensures r.Answer? && r.body.parksCount == Some(|parks|) && r.body.status == "training_started"
    ensures r.body.parkId.None?
  {
    Answer(TrainingStarted("Model retraining started for all " + IntToString(|parks|) + " parks", None,
                           TrainingStartedStatus, Some(|parks|)))
  }

  // ---------------------------------------------------------------------------
  // GET /models/{park_id}/performance
  // ---------------------------------------------------------------------------

  /**
   * `get_model_performance`: `performance` is what the service returned, or
   * the text of what it raised. An unsuccessful answer becomes 404 carrying
   * the service's error text.
   */
  function PerformanceEndpoint(performance: Result<PerformanceResponse, string>): (r: Reply<PerformanceResponse>)
    ensures r.Answer? <==> performance.Ok? && performance.value.PerformanceAvailable?
    ensures r.Answer? ==> r.body == performance.value
    ensures performance.Ok? && performance.value.PerformanceMissing? ==> r == HttpError(404, performance.value.error)
    ensures performance.Err? ==> r == HttpError(500, "Failed to fetch model performance")
  {
    match performance
    case Err(_) => HttpError(500, "Failed to fetch model performance")
    case Ok(PerformanceMissing(e)) => HttpError(404, e)
    case Ok(p) => Answer(p)
  }

  /** For a park without a model file or a fresh cached predictor, the endpoint answers 404 naming the park. */
  lemma MissingModelIsNotFound(parkId: string)
    ensures PerformanceEndpoint(Ok(PerformanceMissing(NoModelAvailableMessage(parkId))))
            == HttpError(404, "No model available for park " + parkId)
  {
  }
}
