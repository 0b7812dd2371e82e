/**
 * The per-park forecaster: the features the trainer derives from history rows
 * and from future dates, the post-processing of the forecast, the model's
 * state (`model`, `trained_at`, `model_metrics`), saving and loading it, and
 * training every park in turn.
 *
 * Prophet itself (fitting, cross-validation, building the future frame and
 * forecasting) is an oracle, `ProphetOracle`; the model files are a map from
 * path to content, `ModelStore`; the clock is a `Timestamp` parameter.
 */
module ModelTrainer {
  import opened Wrappers
  import opened Calendar
  import opened ServiceConfig
  import opened ParkDatabase

  /** A point in time, in microseconds. */
  type Timestamp = int

  // ---------------------------------------------------------------------------
  // History rows and `prepare_data`
  // ---------------------------------------------------------------------------

  /** A row of the frame handed to Prophet, with its 0/1 feature columns. */
  datatype PreparedRow = PreparedRow(
    ds: Date,
    y: int,
    isWeekend: int,
    isHoliday: int,
    schoolInSession: int,
    weekendHoliday: int,
    summerPeak: int,
    winterLow: int)

  function Flag(b: bool): (f: int)
    ensures f == 0 || f == 1
    ensures f == 1 <==> b
  {
    if b then 1 else 0
  }

  /** `column.fillna(default).astype(int)` on a boolean column. */
  function FillFlag(v: Option<bool>, default: int): int {
    match v
    case Some(b) => Flag(b)
    case None => default
  }

  predicate IsSummerPeak(month: int) {
    6 <= month <= 8
  }

  predicate IsWinterLow(month: int) {
    month <= 2 || month == 12
  }

  /** A row survives `dropna(subset=['ds', 'y'])` when both are present. */
  predicate Complete(r: HistoryRow) {
    r.date.Some? && r.visitorCount.Some?
  }

  function DropIncomplete(rows: seq<HistoryRow>): (kept: seq<HistoryRow>)
    ensures |kept| <= |rows|
    ensures forall r :: r in kept <==> r in rows && Complete(r)
    ensures forall i :: 0 <= i < |kept| ==> Complete(kept[i])
  {
    if |rows| == 0 then []
    else if Complete(rows[0]) then [rows[0]] + DropIncomplete(rows[1..])
    else DropIncomplete(rows[1..])
  }

  function PrepareRow(r: HistoryRow): PreparedRow
    requires Complete(r)
  {
    var weekend := FillFlag(r.isWeekend, 0);
    var holiday := FillFlag(r.isHoliday, 0);
    PreparedRow(
      r.date.value, r.visitorCount.value, weekend, holiday, FillFlag(r.schoolInSession, 1),
      Flag(weekend == 1 || holiday == 1), Flag(IsSummerPeak(r.month)), Flag(IsWinterLow(r.month)))
  }

  function NoDataMessage(parkId: string): string {
    "No data available for park " + parkId
  }

  /** `prepare_data`: rename to ds/y, drop incomplete rows, fill and derive the feature columns. */
  function PrepareData(parkId: string, rows: seq<HistoryRow>): (r: Result<seq<PreparedRow>, string>)
    ensures r.Err? <==> |rows| == 0
    ensures r.Err? ==> r.error == NoDataMessage(parkId)
    ensures r.Ok? ==> |r.value| <= |rows|
  {
    if |rows| == 0 then Err(NoDataMessage(parkId))
    else
      var kept := DropIncomplete(rows);
      Ok(seq(|kept|, i requires 0 <= i < |kept| => PrepareRow(kept[i])))
  }

  /**
   * The derived training features: 0/1 flags, missing weekend and holiday
   * flags read as 0, a missing school flag as 1, weekend_holiday is
   * weekend or holiday, summer_peak is June to August and winter_low is
   * December to February.
   */
  lemma PreparedRowFeatures(r: HistoryRow)
    requires Complete(r)
    ensures var p := PrepareRow(r);
      && p.ds == r.date.value && p.y == r.visitorCount.value
      && (p.isWeekend == 1 <==> r.isWeekend == Some(true))
      && (p.isHoliday == 1 <==> r.isHoliday == Some(true))
      && (p.schoolInSession == 0 <==> r.schoolInSession == Some(false))
      && (p.weekendHoliday == 1 <==> p.isWeekend == 1 || p.isHoliday == 1)
      && (p.summerPeak == 1 <==> 6 <= r.month <= 8)
      && (p.winterLow == 1 <==> r.month in {12, 1, 2} || r.month <= 0)
      && p.isWeekend in {0, 1} && p.isHoliday in {0, 1} && p.schoolInSession in {0, 1}
  {
  }

  // ---------------------------------------------------------------------------
  // Features of future dates in `predict`
  // ---------------------------------------------------------------------------

  /** The holiday rule `predict` applies to future dates. */
  predicate FutureIsHoliday(d: Date)
    requires ValidDate(d)
  {
    (d.month == 7 && d.day == 4)
    || (d.month == 5 && d.day >= 25 && Weekday(d) == 0)
    || (d.month == 9 && d.day <= 7 && Weekday(d) == 0)
    || (d.month == 11 && d.day >= 22 && d.day <= 28 && Weekday(d) == 3)
    || (d.month == 12 && d.day == 25)
    || (d.month == 1 && d.day == 1)
  }

  /** A row of the future frame with the columns derived from its date. */
  datatype FutureFeatures = FutureFeatures(
    ds: Date,
    dayOfWeek: int,
    month: int,
    isWeekend: int,
    isHoliday: int,
    schoolInSession: int,
    weekendHoliday: int,
    summerPeak: int,
    winterLow: int)

  /** The feature row of a future date. */
  function FutureRow(d: Date): FutureFeatures
    requires ValidDate(d)
  {
    var weekend := Flag(Weekday(d) in {5, 6});
    var holiday := Flag(FutureIsHoliday(d));
    FutureFeatures(
      d, Weekday(d), d.month, weekend, holiday, Flag(d.month <= 5 || d.month >= 9),
      Flag(weekend == 1 || holiday == 1), Flag(IsSummerPeak(d.month)), Flag(IsWinterLow(d.month)))
  }

  /** The feature columns of a whole future frame. */
  function FutureRows(ds: seq<PyDate>): seq<FutureFeatures> {
    seq(|ds|, i requires 0 <= i < |ds| => FutureRow(ds[i]))
  }

  /**
   * The future features: weekend is Saturday or Sunday, school is in session
   * from September to May, and weekend_holiday, summer_peak and winter_low
   * are as in training.
   */
  lemma FutureRowFeatures(d: Date)
    requires ValidDate(d)
    ensures var f := FutureRow(d);
      && (f.isWeekend == 1 <==> f.dayOfWeek == 5 || f.dayOfWeek == 6)
      && (f.isHoliday == 1 <==> FutureIsHoliday(d))
      && (f.weekendHoliday == 1 <==> f.isWeekend == 1 || f.isHoliday == 1)
      && (f.schoolInSession == 1 <==> d.month <= 5 || d.month >= 9)
      && (f.summerPeak == 1 <==> 6 <= d.month <= 8)
      && (f.winterLow == 1 <==> d.month in {12, 1, 2})
  {
  }

  /** Some earlier row of the frame has the date d and is a holiday. */
  ghost predicate MarkedBefore(ds: seq<PyDate>, i: int, d: Date) {
    exists k :: 0 <= k < i && k < |ds| && ds[k] == d && FutureIsHoliday(ds[k])
  }

  /**
   * The `iterrows` loop of `predict`: for each holiday row, sets `is_holiday`
   * to 1 on every row with that date. The column starts at 0.
   */
  method MarkFutureHolidays(ds: seq<PyDate>, isHoliday: array<int>)
    requires isHoliday.Length == |ds|
    requires forall j :: 0 <= j < isHoliday.Length ==> isHoliday[j] == 0
    modifies isHoliday
    ensures forall j :: 0 <= j < isHoliday.Length ==> isHoliday[j] == Flag(FutureIsHoliday(ds[j]))
  {
    for i := 0 to |ds|
      invariant forall j :: 0 <= j < isHoliday.Length ==> isHoliday[j] == Flag(MarkedBefore(ds, i, ds[j]))
    {
      if FutureIsHoliday(ds[i]) {
        for j := 0 to |ds|
          invariant forall m :: 0 <= m < isHoliday.Length ==>
            isHoliday[m] == Flag(MarkedBefore(ds, i, ds[m]) || (m < j && ds[m] == ds[i]))
        {
          if ds[j] == ds[i] {
            isHoliday[j] := 1;
          }
        }
      }
      assert forall j :: 0 <= j < isHoliday.Length ==>
        (MarkedBefore(ds, i + 1, ds[j]) <==> MarkedBefore(ds, i, ds[j]) || (ds[j] == ds[i] && FutureIsHoliday(ds[i])));
    }
    assert forall j :: 0 <= j < isHoliday.Length ==> (MarkedBefore(ds, |ds|, ds[j]) <==> FutureIsHoliday(ds[j]));
  }

  /** The feature columns `predict` adds to the future frame. */
  method AddFutureFeatures(ds: seq<PyDate>) returns (features: seq<FutureFeatures>)
    ensures features == FutureRows(ds)
  {
    var isHoliday := new int[|ds|](_ => 0);
    MarkFutureHolidays(ds, isHoliday);
    features := seq(|ds|, i requires 0 <= i < |ds| reads isHoliday =>
      var d := ds[i];
      var weekend := Flag(Weekday(d) in {5, 6});
      FutureFeatures(
        d, Weekday(d), d.month, weekend, isHoliday[i], Flag(d.month <= 5 || d.month >= 9),
        Flag(weekend == 1 || isHoliday[i] == 1), Flag(IsSummerPeak(d.month)), Flag(IsWinterLow(d.month))));
  }

  // ---------------------------------------------------------------------------
  // Forecast post-processing
  // ---------------------------------------------------------------------------

  /** A row of Prophet's forecast: the date and the point and interval estimates. */
  datatype ForecastRow = ForecastRow(ds: PyDate, yhat: real, yhatLower: real, yhatUpper: real)

  /** A row of `predict`'s result, after clipping and rounding. */
  datatype Prediction = Prediction(ds: PyDate, yhat: int, yhatLower: int, yhatUpper: int)

  /** `frame.tail(n)`: the last n rows, or all but the first -n rows when n is negative. */
  function Tail<T>(s: seq<T>, n: int): (t: seq<T>)
    ensures 0 <= n ==> |t| == (if n < |s| then n else |s|)
    ensures n < 0 ==> |t| == (if -n < |s| then |s| + n else 0)
    ensures t == s[|s| - |t|..]
  {
    if 0 <= n then (if n < |s| then s[|s| - n..] else s)
    else if -n < |s| then s[-n..]
    else []
  }

  /** `clip(lower=0)`. */
  function Clip(r: real): (c: real)
    ensures 0.0 <= c
    ensures 0.0 <= r ==> c == r
  {
    if r < 0.0 then 0.0 else r
  }

  /** `round()`: to the nearest integer, halves to the even neighbour. */
  function RoundHalfEven(r: real): (n: int)
    ensures r - 0.5 <= n as real <= r + 0.5
    ensures r - r.Floor as real != 0.5 ==> r - 0.5 < n as real < r + 0.5
    ensures r - r.Floor as real == 0.5 ==> n % 2 == 0
  {
    var f := r.Floor;
    var frac := r - f as real;
    if frac < 0.5 then f
    else if frac > 0.5 then f + 1
    else if f % 2 == 0 then f
    else f + 1
  }

  lemma RoundHalfEvenMonotone(a: real, b: real)
    requires a <= b
    ensures RoundHalfEven(a) <= RoundHalfEven(b)
  {
  }

  /** Clipping at 0 and then rounding. */
  function ClipRound(r: real): (n: int)
    ensures 0 <= n
  {
    RoundHalfEven(Clip(r))
  }

  function PostProcessRow(row: ForecastRow): Prediction {
    Prediction(row.ds, ClipRound(row.yhat), ClipRound(row.yhatLower), ClipRound(row.yhatUpper))
  }

  function PostProcess(rows: seq<ForecastRow>): seq<Prediction> {
    seq(|rows|, i requires 0 <= i < |rows| => PostProcessRow(rows[i]))
  }

  /** The post-processed tail: row i is the clipped and rounded row at the same offset from the end. */
  lemma PostProcessTail(rows: seq<ForecastRow>, n: int)
    ensures var out := PostProcess(Tail(rows, n));
      && |out| == |Tail(rows, n)|
      && forall i :: 0 <= i < |out| ==>
           && out[i] == PostProcessRow(rows[|rows| - |out| + i])
           && out[i].ds == rows[|rows| - |out| + i].ds
           && 0 <= out[i].yhat && 0 <= out[i].yhatLower && 0 <= out[i].yhatUpper
  {
    var tail := Tail(rows, n);
    assert forall i :: 0 <= i < |tail| ==> tail[i] == rows[|rows| - |tail| + i];
  }

  /** Clipping and rounding never invert an interval and never produce a negative count. */
  lemma PostProcessKeepsOrder(row: ForecastRow)
    requires row.yhatLower <= row.yhat <= row.yhatUpper
    ensures var p := PostProcessRow(row);
      0 <= p.yhatLower <= p.yhat <= p.yhatUpper
  {
    RoundHalfEvenMonotone(Clip(row.yhatLower), Clip(row.yhat));
    RoundHalfEvenMonotone(Clip(row.yhat), Clip(row.yhatUpper));
  }

  /** A forecast that is already whole and non-negative passes through post-processing unchanged. */
  lemma PostProcessWholeRow(row: ForecastRow, y: nat, lo: nat, hi: nat)
    requires row.yhat == y as real && row.yhatLower == lo as real && row.yhatUpper == hi as real
    ensures PostProcessRow(row) == Prediction(row.ds, y, lo, hi)
  {
  }

  // ---------------------------------------------------------------------------
  // Prophet, as an oracle
  // ---------------------------------------------------------------------------

  /** A model object: created but not fitted, or fitted (its identity is an opaque token). */
  datatype ProphetModel = Unfitted | Fitted(token: nat)

  /**
   * The `performance_metrics` table, reduced to the means of the three
   * columns the trainer reads; None is a column the table does not have
   * (Prophet leaves out `mape` when some observed value is close to 0).
   */
  datatype PerformanceTable = PerformanceTable(mae: Option<real>, mape: Option<real>, rmse: Option<real>)

  /** The three means the trainer reads can be computed: no `[...]` lookup raises. */
  predicate HasMeans(t: PerformanceTable) {
    t.mae.Some? && t.mape.Some? && t.rmse.Some?
  }

  /** The future frame handed to `model.predict`: the dates, and the feature columns when history exists. */
  datatype FutureFrame = FutureFrame(ds: seq<PyDate>, features: Option<seq<FutureFeatures>>)

  /**
   * What Prophet answers: `fit` gives a fitted model or the text of the
   * exception, `crossValidate` the performance table or None when it raises,
   * `futureDates` the dates of `make_future_dataframe(periods)`, and
   * `forecast` the rows of `model.predict(future)` or the exception text.
   */
  datatype ProphetOracle = ProphetOracle(
    fit: seq<PreparedRow> -> Result<nat, string>,
    crossValidate: nat -> Option<PerformanceTable>,
    futureDates: (nat, int) -> seq<PyDate>,
    forecast: (nat, FutureFrame) -> Result<seq<ForecastRow>, string>)

  /** What `train` returns. */
  datatype TrainingSummary = TrainingSummary(
    mae: Option<real>,
    mape: Option<real>,
    rmse: Option<real>,
    trainingPoints: nat,
    trainedAt: Timestamp)

  /**
   * The summary `train` returns: the means when cross-validation gave a table
   * whose means can be computed, and otherwise (the `except` branch) none of them.
   */
  function SummaryOf(cv: Option<PerformanceTable>, points: nat, now: Timestamp): TrainingSummary {
    if cv.Some? && HasMeans(cv.value) then TrainingSummary(cv.value.mae, cv.value.mape, cv.value.rmse, points, now)
    else TrainingSummary(None, None, None, points, now)
  }

  /** The frame `train` fits: the prepared rows. */
  function PreparedRows(parkId: string, rows: seq<HistoryRow>): seq<PreparedRow>
    requires |rows| > 0
  {
    PrepareData(parkId, rows).value
  }

  /** The result of `train` on these history rows: the summary, or the text of the exception. */
  function TrainResult(parkId: string, rows: seq<HistoryRow>, prophet: ProphetOracle, now: Timestamp): Result<TrainingSummary, string> {
    if |rows| == 0 then Err(NoDataMessage(parkId))
    else
      var prepared := PreparedRows(parkId, rows);
      match prophet.fit(prepared)
      case Err(e) => Err(e)
      case Ok(t) => Ok(SummaryOf(prophet.crossValidate(t), |prepared|, now))
  }

  /** The saved fields of a freshly created predictor whose training succeeded. */
  function TrainedData(parkId: string, rows: seq<HistoryRow>, prophet: ProphetOracle, now: Timestamp): ModelData
    requires TrainResult(parkId, rows, prophet, now).Ok?
  {
    var t := prophet.fit(PreparedRows(parkId, rows)).value;
    ModelData(Fitted(t), parkId, Some(now), prophet.crossValidate(t))
  }

  /** Training fails exactly when there is no history or the fit raises, and then reports why. */
  lemma TrainResultCases(parkId: string, rows: seq<HistoryRow>, prophet: ProphetOracle, now: Timestamp)
    ensures |rows| == 0 ==> TrainResult(parkId, rows, prophet, now) == Err(NoDataMessage(parkId))
    ensures |rows| > 0 ==>
      (TrainResult(parkId, rows, prophet, now).Err? <==> prophet.fit(PreparedRows(parkId, rows)).Err?)
    ensures TrainResult(parkId, rows, prophet, now).Ok? ==>
      var s := TrainResult(parkId, rows, prophet, now).value;
      && s.trainedAt == now
      && s.trainingPoints <= |rows|
      && var cv := prophet.crossValidate(prophet.fit(PreparedRows(parkId, rows)).value);
         && (s.mae.Some? <==> cv.Some? && HasMeans(cv.value))
         && (s.mae.Some? ==> s.mae == cv.value.mae && s.mape == cv.value.mape && s.rmse == cv.value.rmse)
         && (s.mae.None? ==> s.mape.None? && s.rmse.None?)
  {
  }

  /**
   * A cross-validation table whose means cannot be computed is still what
   * the saved model carries, while the summary of that training has no metrics.
   */
  lemma TableKeptWithoutMeans(parkId: string, rows: seq<HistoryRow>, prophet: ProphetOracle, now: Timestamp)
    requires TrainResult(parkId, rows, prophet, now).Ok?
    requires var cv := prophet.crossValidate(prophet.fit(PreparedRows(parkId, rows)).value);
      cv.Some? && !HasMeans(cv.value)
    ensures TrainedData(parkId, rows, prophet, now).metrics.Some?
    ensures TrainResult(parkId, rows, prophet, now).value.mae.None?
  {
  }

  const NotTrainedMessage := "Model must be trained before making predictions"
  /** What Prophet raises when asked for the future frame of a model that was never fitted. */
  const NotFittedMessage := "Model has not been fit."
  const NoModelMessage := "No model to save"

  /** The result of `predict(days_ahead)` for a model state; `historyAvailable` says the park has history rows. */
  function PredictResult(model: Option<ProphetModel>, daysAhead: int, historyAvailable: bool, prophet: ProphetOracle): Result<seq<Prediction>, string> {
    match model
    case None => Err(NotTrainedMessage)
    case Some(Unfitted) => Err(NotFittedMessage)
    case Some(Fitted(t)) =>
      var dates := prophet.futureDates(t, daysAhead);
      var frame := FutureFrame(dates, if historyAvailable then Some(FutureRows(dates)) else None);
      match prophet.forecast(t, frame)
      case Err(e) => Err(e)
      case Ok(rows) => Ok(PostProcess(Tail(rows, daysAhead)))
  }

  /**
   * `predict` raises without a model, and Prophet raises for a model that was
   * never fitted; otherwise its rows are the last `days_ahead` forecast
   * rows, in order, each clipped and rounded, so every count is at least 0.
   */
  lemma PredictResultSpec(model: Option<ProphetModel>, daysAhead: int, historyAvailable: bool, prophet: ProphetOracle)
    ensures model.None? ==> PredictResult(model, daysAhead, historyAvailable, prophet) == Err(NotTrainedMessage)
    ensures model == Some(Unfitted) ==> PredictResult(model, daysAhead, historyAvailable, prophet) == Err(NotFittedMessage)
    ensures PredictResult(model, daysAhead, historyAvailable, prophet).Ok? ==> model.Some? && model.value.Fitted?
    ensures PredictResult(model, daysAhead, historyAvailable, prophet).Ok? ==>
      var out := PredictResult(model, daysAhead, historyAvailable, prophet).value;
      var t := model.value.token;
      var frame := FutureFrame(prophet.futureDates(t, daysAhead),
                               if historyAvailable then Some(FutureRows(prophet.futureDates(t, daysAhead))) else None);
      var rows := prophet.forecast(t, frame).value;
      && (0 <= daysAhead ==> |out| == (if daysAhead < |rows| then daysAhead else |rows|))
      && (daysAhead < 0 ==> |out| == (if -daysAhead < |rows| then |rows| + daysAhead else 0))
      && forall i :: 0 <= i < |out| ==>
           && out[i] == PostProcessRow(rows[|rows| - |out| + i])
           && out[i].ds == rows[|rows| - |out| + i].ds
           && 0 <= out[i].yhat && 0 <= out[i].yhatLower && 0 <= out[i].yhatUpper
  {
    if model.Some? && model.value.Fitted? {
      var t := model.value.token;
      var dates := prophet.futureDates(t, daysAhead);
      var frame := FutureFrame(dates, if historyAvailable then Some(FutureRows(dates)) else None);
      if prophet.forecast(t, frame).Ok? {
        var rows := prophet.forecast(t, frame).value;
        assert PredictResult(model, daysAhead, historyAvailable, prophet) == Ok(PostProcess(Tail(rows, daysAhead)));
        PostProcessTail(rows, daysAhead);
      }
    }
  }

  /** When Prophet's intervals contain their point estimates, every predicted row keeps 0 <= lower <= yhat <= upper. */
  lemma PredictKeepsIntervals(t: nat, daysAhead: int, historyAvailable: bool, prophet: ProphetOracle)
    requires PredictResult(Some(Fitted(t)), daysAhead, historyAvailable, prophet).Ok?
    requires var dates := prophet.futureDates(t, daysAhead);
      var rows := prophet.forecast(t, FutureFrame(dates, if historyAvailable then Some(FutureRows(dates)) else None)).value;
      forall i :: 0 <= i < |rows| ==> rows[i].yhatLower <= rows[i].yhat <= rows[i].yhatUpper
    ensures var out := PredictResult(Some(Fitted(t)), daysAhead, historyAvailable, prophet).value;
      forall i :: 0 <= i < |out| ==> 0 <= out[i].yhatLower <= out[i].yhat <= out[i].yhatUpper
  {
    var dates := prophet.futureDates(t, daysAhead);
    var rows := prophet.forecast(t, FutureFrame(dates, if historyAvailable then Some(FutureRows(dates)) else None)).value;
    var out := PostProcess(Tail(rows, daysAhead));
    assert PredictResult(Some(Fitted(t)), daysAhead, historyAvailable, prophet) == Ok(out);
    PostProcessTail(rows, daysAhead);
    forall i | 0 <= i < |out|
      ensures 0 <= out[i].yhatLower <= out[i].yhat <= out[i].yhatUpper
    {
      PostProcessKeepsOrder(rows[|rows| - |out| + i]);
    }
  }

  // ---------------------------------------------------------------------------
  // Model files
  // ---------------------------------------------------------------------------

  /** The dictionary `save_model` writes. */
  datatype ModelData = ModelData(model: ProphetModel, parkId: string, trainedAt: Option<Timestamp>, metrics: Option<PerformanceTable>)

  /** A file under a model path: one `save_model` wrote, or one `joblib.load` cannot read. */
  datatype StoredFile = Saved(data: ModelData) | Unreadable

  /** The model files on disk, by path. */
  class ModelStore {
    var files: map<string, StoredFile>

    constructor(files: map<string, StoredFile>)
      ensures this.files == files
    {
      this.files := files;
    }
  }

  /** What `load_model(path)` finds at a path. */
  function LoadFrom(files: map<string, StoredFile>, path: string): Option<ModelData> {
    if path in files && files[path].Saved? then Some(files[path].data) else None
  }

  /** The files after saving a park's model into a directory. */
  function StoreAfterSave(files: map<string, StoredFile>, directory: string, data: ModelData): map<string, StoredFile> {
    files[ModelPath(directory, data.parkId) := Saved(data)]
  }

  /** Loading from the path just saved to gives back every saved field; other paths read as before. */
  lemma {:induction false} LoadAfterSave(files: map<string, StoredFile>, directory: string, data: ModelData, path: string)
    ensures LoadFrom(StoreAfterSave(files, directory, data), ModelPath(directory, data.parkId)) == Some(data)
    ensures path != ModelPath(directory, data.parkId) ==>
      LoadFrom(StoreAfterSave(files, directory, data), path) == LoadFrom(files, path)
  {
  }

  /** A park's models saved in the default directory never overwrite another park's. */
  lemma SaveKeepsOtherParks(files: map<string, StoredFile>, data: ModelData, other: string)
    requires other != data.parkId
    ensures LoadFrom(StoreAfterSave(files, ModelDir, data), ModelPath(ModelDir, other)) == LoadFrom(files, ModelPath(ModelDir, other))
  {
    if ModelPath(ModelDir, other) == ModelPath(ModelDir, data.parkId) {
      ModelPathInjective(ModelDir, other, data.parkId);
    }
  }

  // ---------------------------------------------------------------------------
  // The predictor
  // ---------------------------------------------------------------------------

  /** `ParkVisitorPredictor`: one park's model and what is known about it. */
  class ParkVisitorPredictor {
    var parkId: string
    var model: Option<ProphetModel>
    var metrics: Option<PerformanceTable>
    var trainedAt: Option<Timestamp>

    constructor(parkId: string)
      ensures this.parkId == parkId
      ensures model == None && metrics == None && trainedAt == None
    {
      this.parkId := parkId;
      model := None;
      metrics := None;
      trainedAt := None;
    }

    /**
     * `train`: `rows` stands for `get_park_data(park_id, days_back)`. The model
     * object is stored before it is fitted, so a failed fit leaves an unfitted
     * model behind; a failed cross-validation keeps the old metrics. The
     * table is stored before its means are taken, so a table without a mean
     * is kept even though the summary then reports no metrics.
     */
    method Train(rows: seq<HistoryRow>, prophet: ProphetOracle, now: Timestamp) returns (r: Result<TrainingSummary, string>)
      modifies this
      ensures r == TrainResult(old(parkId), rows, prophet, now)
      ensures parkId == old(parkId)
      ensures |rows| == 0 ==> model == old(model) && metrics == old(metrics) && trainedAt == old(trainedAt)
      ensures |rows| > 0 ==>
        match prophet.fit(PreparedRows(parkId, rows))
        case Err(_) => model == Some(Unfitted) && metrics == old(metrics) && trainedAt == old(trainedAt)
        case Ok(t) =>
          && model == Some(Fitted(t))
          && trainedAt == Some(now)
          && metrics == (if prophet.crossValidate(t).Some? then prophet.crossValidate(t) else old(metrics))
    {
      if |rows| == 0 {
        return Err(NoDataMessage(parkId));
      }
      var prepared := PrepareData(parkId, rows).value;
      model := Some(Unfitted);
      var fitted := prophet.fit(prepared);
      if fitted.Err? {
        return Err(fitted.error);
      }
      model := Some(Fitted(fitted.value));
      trainedAt := Some(now);
      var cv := prophet.crossValidate(fitted.value);
      if cv.Some? {
        metrics := cv;
      }
      r := Ok(SummaryOf(cv, |prepared|, now));
    }

    /** `predict(days_ahead)`: `history` stands for `get_park_data(park_id)`. */
    method Predict(daysAhead: int, history: seq<HistoryRow>, prophet: ProphetOracle) returns (r: Result<seq<Prediction>, string>)
      ensures r == PredictResult(model, daysAhead, |history| > 0, prophet)
    {
      if model.None? {
        return Err(NotTrainedMessage);
      }
      if model.value.Unfitted? {
        return Err(NotFittedMessage);
      }
      var t := model.value.token;
      var dates := prophet.futureDates(t, daysAhead);
      var features: Option<seq<FutureFeatures>> := None;
      if |history| > 0 {
        var columns := AddFutureFeatures(dates);
        features := Some(columns);
      }
      var forecast := prophet.forecast(t, FutureFrame(dates, features));
      if forecast.Err? {
        return Err(forecast.error);
      }
      r := Ok(PostProcess(Tail(forecast.value, daysAhead)));
    }

    /** `save_model(model_dir)`: the default directory is `models`. */
    method SaveModel(modelDir: Option<string>, store: ModelStore) returns (r: Result<string, string>)
      modifies store
      ensures model.None? ==> r == Err(NoModelMessage) && store.files == old(store.files)
      ensures model.Some? ==>
        var directory := if modelDir.Some? then modelDir.value else ModelDir;
        var data := ModelData(model.value, parkId, trainedAt, metrics);
        && r == Ok(ModelPath(directory, parkId))
        && store.files == StoreAfterSave(old(store.files), directory, data)
    {
      if model.None? {
        return Err(NoModelMessage);
      }
      var directory := if modelDir.Some? then modelDir.value else ModelDir;
      var path := ModelPath(directory, parkId);
      store.files := store.files[path := Saved(ModelData(model.value, parkId, trainedAt, metrics))];
      r := Ok(path);
    }

    /** `load_model(path)`: true and every field replaced when the file reads, false and nothing changed otherwise. */
    method LoadModel(path: string, store: ModelStore) returns (loaded: bool)
      modifies this
      ensures loaded <==> LoadFrom(store.files, path).Some?
      ensures loaded ==>
        var data := LoadFrom(store.files, path).value;
        model == Some(data.model) && parkId == data.parkId && trainedAt == data.trainedAt && metrics == data.metrics
      ensures !loaded ==> model == old(model) && parkId == old(parkId) && trainedAt == old(trainedAt) && metrics == old(metrics)
    {
      if path !in store.files || store.files[path].Unreadable? {
        return false;
      }
      var data := store.files[path].data;
      model := Some(data.model);
      parkId := data.parkId;
      trainedAt := data.trainedAt;
      metrics := data.metrics;
      loaded := true;
    }
  }

  // ---------------------------------------------------------------------------
  // `train_all_parks`
  // ---------------------------------------------------------------------------

  /** One entry of the results table. */
  datatype ParkTrainingResult = TrainingSucceeded(metrics: TrainingSummary) | TrainingFailed(error: string)

  function TrainingOutcome(parkId: string, rows: seq<HistoryRow>, prophet: ProphetOracle, now: Timestamp): ParkTrainingResult {
    match TrainResult(parkId, rows, prophet, now)
    case Ok(s) => TrainingSucceeded(s)
    case Err(e) => TrainingFailed(e)
  }

  /** The results table of `train_all_parks`: one entry per park. */
  function ResultsTable(parks: seq<string>, history: string -> seq<HistoryRow>, prophet: ProphetOracle, now: Timestamp): map<string, ParkTrainingResult> {
    map p | p in parks :: TrainingOutcome(p, history(p), prophet, now)
  }

  /** The model files after training the parks in order, each success saved under its default path. */
  function FilesAfterTraining(files: map<string, StoredFile>, parks: seq<string>, history: string -> seq<HistoryRow>, prophet: ProphetOracle, now: Timestamp): map<string, StoredFile>
    decreases |parks|
  {
    if |parks| == 0 then files
    else
      var before := FilesAfterTraining(files, parks[..|parks| - 1], history, prophet, now);
      var p := parks[|parks| - 1];
      if TrainResult(p, history(p), prophet, now).Ok? then StoreAfterSave(before, ModelDir, TrainedData(p, history(p), prophet, now))
      else before
  }

  /** Every park that trained can be loaded back from its default path with the fields it was trained with. */
  lemma {:induction false} TrainedModelsSaved(files: map<string, StoredFile>, parks: seq<string>, history: string -> seq<HistoryRow>, prophet: ProphetOracle, now: Timestamp, p: string)
    requires p in parks && TrainResult(p, history(p), prophet, now).Ok?
    ensures LoadFrom(FilesAfterTraining(files, parks, history, prophet, now), ModelPath(ModelDir, p)) == Some(TrainedData(p, history(p), prophet, now))
    decreases |parks|
  {
    var front, last := parks[..|parks| - 1], parks[|parks| - 1];
    assert parks == front + [last];
    var before := FilesAfterTraining(files, front, history, prophet, now);
    if last == p {
      LoadAfterSave(before, ModelDir, TrainedData(p, history(p), prophet, now), ModelPath(ModelDir, p));
    } else {
      assert p in front;
      TrainedModelsSaved(files, front, history, prophet, now, p);
      if TrainResult(last, history(last), prophet, now).Ok? {
        SaveKeepsOtherParks(before, TrainedData(last, history(last), prophet, now), p);
      }
    }
  }

  /** Training touches only the default model paths of the parks: every other file is kept as it was. */
  lemma {:induction false} TrainingKeepsOtherFiles(files: map<string, StoredFile>, parks: seq<string>, history: string -> seq<HistoryRow>, prophet: ProphetOracle, now: Timestamp, path: string)
    requires forall p :: p in parks ==> path != ModelPath(ModelDir, p)
    ensures path in FilesAfterTraining(files, parks, history, prophet, now) <==> path in files
    ensures path in files ==> FilesAfterTraining(files, parks, history, prophet, now)[path] == files[path]
    decreases |parks|
  {
    if |parks| > 0 {
      var front := parks[..|parks| - 1];
      assert forall p :: p in front ==> p in parks;
      TrainingKeepsOtherFiles(files, front, history, prophet, now, path);
    }
  }

  /**
   * `train_all_parks`: `parks` stands for `get_all_parks()` and `history(p)`
   * for `get_park_data(p, 365)`. Every park gets an entry, a failure does not
   * stop the loop, and each trained model is saved under its default path.
   */
  method TrainAllParks(parks: seq<string>, history: string -> seq<HistoryRow>, prophet: ProphetOracle, store: ModelStore, now: Timestamp)
    returns (results: map<string, ParkTrainingResult>)
    modifies store
    ensures results == ResultsTable(parks, history, prophet, now)
    ensures store.files == FilesAfterTraining(old(store.files), parks, history, prophet, now)
  {
    results := map[];
    for i := 0 to |parks|
      invariant results == ResultsTable(parks[..i], history, prophet, now)
      invariant store.files == FilesAfterTraining(old(store.files), parks[..i], history, prophet, now)
    {
      var parkId := parks[i];
      assert parks[..i + 1][..i] == parks[..i];
      assert parks[..i + 1] == parks[..i] + [parkId];
      var result := TrainAndSavePark(parkId, history(parkId), prophet, store, now);
      results := results[parkId := result];
    }
    assert parks[..|parks|] == parks;
  }

  /** One pass of the `train_all_parks` loop: train a new predictor and save it, or record why it failed. */
  method TrainAndSavePark(parkId: string, rows: seq<HistoryRow>, prophet: ProphetOracle, store: ModelStore, now: Timestamp)
    returns (result: ParkTrainingResult)
    modifies store
    ensures result == TrainingOutcome(parkId, rows, prophet, now)
    ensures TrainResult(parkId, rows, prophet, now).Ok? ==>
      store.files == StoreAfterSave(old(store.files), ModelDir, TrainedData(parkId, rows, prophet, now))
    ensures TrainResult(parkId, rows, prophet, now).Err? ==> store.files == old(store.files)
  {
    var predictor := new ParkVisitorPredictor(parkId);
    var trained := predictor.Train(rows, prophet, now);
    match trained {
      case Ok(summary) =>
        var saved := predictor.SaveModel(None, store);
        result := TrainingSucceeded(summary);
      case Err(e) =>
        result := TrainingFailed(e);
    }
  }
}
