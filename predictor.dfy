/**
 * The prediction service: the per-park cache of trained predictors, request
 * checking, the window of forecast rows a response returns and the records it
 * is rendered into, and the park list enriched from the coordinate and name
 * tables.
 */
module Predictor {
  import opened Wrappers
  import opened Decimal
  import opened Calendar
  import opened ServiceConfig
  import opened ParkDatabase
  import opened ModelTrainer

  // ---------------------------------------------------------------------------
  // The coordinate and name tables
  // ---------------------------------------------------------------------------

  // PARK_COORDINATES (latitude, longitude) and PARK_NAMES, each written as the
  // union of blocks of at most ten entries taken in the order of the source
  // dictionary; no park code occurs twice in either dictionary.

  const CoordinateBlock1: map<string, (real, real)> := map[
    "YELL" := (44.428, -110.588),
    "GRCA" := (36.1069, -112.1129),
    "YOSE" := (37.8651, -119.5383),
    "ZION" := (37.2982, -113.0263),
    "ACAD" := (44.35, -68.21),
    "ARCH" := (38.68, -109.57),
    "ROMO" := (40.4, -105.58),
    "GRSM" := (35.6117, -83.4895),
    "OLYM" := (47.8021, -123.6044),
    "GLAC" := (48.7596, -113.787)
  ]

  const CoordinateBlock2: map<string, (real, real)> := map[
    "DEVA" := (36.5054, -117.0794),
    "JOTR" := (33.8734, -115.901),
    "BAND" := (35.7781, -106.2708),
    "CACO" := (42.0699, -70.0464),
    "STLI" := (40.6892, -74.0445),
    "GLEN" := (37.0042, -111.1892),
    "LAME" := (36.0905, -114.7366),
    "CURE" := (38.4619, -107.1817),
    "CAHA" := (35.2590, -75.5277),
    "ASIS" := (38.0593, -75.1458)
  ]

  const CoordinateBlock3: map<string, (real, real)> := map[
    "INDE" := (39.9496, -75.1503),
    "COLO" := (37.2707, -76.6135),
    "BOST" := (42.3601, -71.0589),
    "GETT" := (39.8309, -77.2361),
    "ANTI" := (39.4618, -77.7311),
    "BRCA" := (37.5930, -112.1871),
    "CANY" := (38.2, -109.93),
    "CARE" := (38.0877, -111.1660),
    "REDW" := (41.2132, -124.0046),
    "SHEN" := (38.2928, -78.6795)
  ]

  const CoordinateBlock4: map<string, (real, real)> := map[
    "BADL" := (43.8554, -101.9777),
    "EVER" := (25.2866, -80.8987),
    "ABLI" := (37.5429, -85.6739),
    "ADAM" := (42.2553, -71.0275),
    "AFBG" := (40.7150, -74.0042),
    "AGFO" := (42.4186, -103.7273),
    "ALFL" := (35.5669, -101.6719),
    "AMIS" := (29.5255, -101.0769),
    "ANIA" := (56.8987, -158.6114),
    "APCO" := (37.3760, -78.7959)
  ]

  const CoordinateBlock5: map<string, (real, real)> := map[
    "AZRU" := (36.8389, -107.9983),
    "BEPA" := (38.9072, -77.0369),
    "BIBE" := (29.1275, -103.2425),
    "BICA" := (45.0293, -108.1618),
    "BICR" := (33.5186, -86.8104),
    "BISC" := (25.4390, -80.4017),
    "BLCA" := (38.5753, -107.7018),
    "BLRV" := (42.1341, -71.1636),
    "BOWA" := (37.1214, -79.9081),
    "BOHA" := (42.3398, -70.9661)
  ]

  const CoordinateBlock6: map<string, (real, real)> := map[
    "BRVB" := (39.0409, -95.6890),
    "BUIS" := (17.7539, -64.6255),
    "CABR" := (32.6722, -117.2417),
    "CANE" := (37.7862, -84.5985),
    "CANA" := (28.8123, -80.8101),
    "CARI" := (31.0407, -93.0096),
    "CACH" := (36.1490, -109.3389),
    "CALO" := (34.6204, -76.5197),
    "CAVO" := (36.7828, -103.9705),
    "CIBS" := (40.2019, -77.1956)
  ]

  const CoordinateBlock7: map<string, (real, real)> := map[
    "CAVE" := (32.1478, -104.5567),
    "CAGR" := (32.4797, -111.5375),
    "CASA" := (29.8974, -81.3123),
    "CACL" := (40.7033, -74.0170),
    "CAMO" := (35.2917, -115.0881),
    "CEBR" := (37.6283, -112.8453),
    "CEBE" := (39.0052, -78.3086),
    "CAME" := (36.9212, -76.0051),
    "CAKR" := (67.4162, -163.1524),
    "CHCU" := (36.0544, -107.9914)
  ]

  const CoordinateBlock8: map<string, (real, real)> := map[
    "CHIS" := (34.0069, -119.7785)
  ]

  const NameBlock1: map<string, string> := map[
    "YELL" := "Yellowstone National Park",
    "GRCA" := "Grand Canyon National Park",
    "YOSE" := "Yosemite National Park",
    "ZION" := "Zion National Park",
    "ACAD" := "Acadia National Park",
    "ARCH" := "Arches National Park",
    "ROMO" := "Rocky Mountain National Park",
    "GRSM" := "Great Smoky Mountains National Park",
    "OLYM" := "Olympic National Park",
    "GLAC" := "Glacier National Park"
  ]

  const NameBlock2: map<string, string> := map[
    "DEVA" := "Death Valley National Monument",
    "JOTR" := "Joshua Tree National Park",
    "BAND" := "Bandelier National Monument",
    "CACO" := "Cape Cod National Seashore",
    "GLEN" := "Glen Canyon National Recreation Area",
    "LAME" := "Lake Mead National Recreation Area",
    "CURE" := "Curecanti National Recreation Area",
    "CAHA" := "Cape Hatteras National Seashore",
    "ASIS" := "Assateague Island National Seashore",
    "INDE" := "Independence National Historical Park"
  ]

  const NameBlock3: map<string, string> := map[
    "COLO" := "Colonial National Historical Park",
    "BOST" := "Boston National Historical Park",
    "GETT" := "Gettysburg National Battlefield",
    "ANTI" := "Antietam National Battlefield",
    "BRCA" := "Bryce Canyon National Park",
    "CANY" := "Canyonlands National Park",
    "CARE" := "Capitol Reef National Park",
    "REDW" := "Redwood National and State Parks",
    "SHEN" := "Shenandoah National Park",
    "BADL" := "Badlands National Park"
  ]

  const NameBlock4: map<string, string> := map[
    "EVER" := "Everglades National Park",
    "ABLI" := "Abraham Lincoln Birthplace National Historical Park",
    "ADAM" := "Adams National Historical Park",
    "AFBG" := "African Burial Ground National Monument",
    "AGFO" := "Agate Fossil Beds National Monument",
    "ALFL" := "Alibates Flint Quarries National Monument",
    "AMIS" := "Amistad National Recreation Area",
    "ANIA" := "Aniakchak National Monument & Preserve",
    "APCO" := "Appomattox Court House National Historical Park",
    "AZRU" := "Aztec Ruins National Monument"
  ]

  const NameBlock5: map<string, string> := map[
    "BEPA" := "Belmont-Paul Women's Equality National Monument",
    "BIBE" := "Big Bend National Park",
    "BICA" := "Bighorn Canyon National Recreation Area",
    "BICR" := "Birmingham Civil Rights National Monument",
    "BISC" := "Biscayne National Park",
    "BLCA" := "Black Canyon Of The Gunnison National Park",
    "BLRV" := "Blackstone River Valley National Historical Park",
    "BOWA" := "Booker T Washington National Monument",
    "BOHA" := "Boston Harbor Islands National Recreation Area",
    "BRVB" := "Brown v. Board of Education National Historical Park"
  ]

  const NameBlock6: map<string, string> := map[
    "BUIS" := "Buck Island Reef National Monument",
    "CABR" := "Cabrillo National Monument",
    "CANE" := "Camp Nelson National Monument",
    "CANA" := "Canaveral National Seashore",
    "CARI" := "Cane River Creole National Historical Park",
    "CACH" := "Canyon de Chelly National Monument",
    "CALO" := "Cape Lookout National Seashore",
    "CAVO" := "Capulin Volcano National Monument",
    "CIBS" := "Carlisle Federal Indian Boarding School National Monument",
    "CAVE" := "Carlsbad Caverns National Park"
  ]

  const NameBlock7: map<string, string> := map[
    "CAGR" := "Casa Grande Ruins National Monument",
    "CASA" := "Castillo de San Marcos National Monument",
    "CACL" := "Castle Clinton National Monument",
    "CAMO" := "Castle Mountains National Monument",
    "CEBR" := "Cedar Breaks National Monument",
    "CEBE" := "Cedar Creek & Belle Grove National Historical Park",
    "CAME" := "Cape Henry Memorial Part of Colonial National Historical Park",
    "CAKR" := "Cape Krusenstern National Monument"
  ]

  const ParkCoordinates: map<string, (real, real)> := CoordinateBlock1 + CoordinateBlock2 + CoordinateBlock3 + CoordinateBlock4 + CoordinateBlock5 + CoordinateBlock6 + CoordinateBlock7 + CoordinateBlock8
  const ParkNames: map<string, string> := NameBlock1 + NameBlock2 + NameBlock3 + NameBlock4 + NameBlock5 + NameBlock6 + NameBlock7

  // ---------------------------------------------------------------------------
  // Requests
  // ---------------------------------------------------------------------------

  const DaysAheadMessage := "days_ahead must be between 1 and 365"
  const PastStartMessage := "start_date cannot be in the past"

  /**
   * The text of the ValueError `strptime` raises for a start date that does
   * not have the shape of the format. Its other messages (a day that does not
   * exist in its month, text left over after the day) are not distinguished.
   */
  function DateFormatMessage(startDate: string): string {
    "time data '" + startDate + "' does not match format '%Y-%m-%d'"
  }

  /**
   * The checks `predict_visitors` makes before it touches the cache: the
   * number of days first, then the date format, then whether the start date
   * lies before `today`.
   */
  function CheckRequest(startDate: string, daysAhead: int, today: Date): (r: Result<Date, string>)
    ensures !(1 <= daysAhead <= 365) ==> r == Err(DaysAheadMessage)
    ensures 1 <= daysAhead <= 365 && ParseIsoDate(startDate).None? ==> r == Err(DateFormatMessage(startDate))
    ensures 1 <= daysAhead <= 365 && ParseIsoDate(startDate).Some? && !NotAfter(today, ParseIsoDate(startDate).value) ==>
      r == Err(PastStartMessage)
    ensures r.Ok? <==> 1 <= daysAhead <= 365 && ParseIsoDate(startDate).Some? && NotAfter(today, ParseIsoDate(startDate).value)
    ensures r.Ok? ==> ValidDate(r.value) && r.value.year <= 9999 && FormatIsoDate(r.value) == startDate
  {
    if daysAhead < 1 || daysAhead > 365 then Err(DaysAheadMessage)
    else
      match ParseIsoDate(startDate)
      case None => Err(DateFormatMessage(startDate))
      case Some(start) =>
        if !NotAfter(today, start) then Err(PastStartMessage)
        else (FormatParseIsoDate(startDate); Ok(start))
  }

  // ---------------------------------------------------------------------------
  // The window of forecast rows
  // ---------------------------------------------------------------------------

  /** `forecast_df[forecast_df['ds'] >= start]`: the rows dated on or after `start`. */
  function OnOrAfter(rows: seq<Prediction>, start: Date): (kept: seq<Prediction>)
    ensures |kept| <= |rows|
    ensures forall r :: r in kept <==> r in rows && NotAfter(start, r.ds)
  {
    if |rows| == 0 then []
    else (if NotAfter(start, rows[0].ds) then [rows[0]] else []) + OnOrAfter(rows[1..], start)
  }

  /** Filtering a concatenation filters each part and keeps them in order. */
  lemma {:induction false} OnOrAfterAppend(a: seq<Prediction>, b: seq<Prediction>, start: Date)
    ensures OnOrAfter(a + b, start) == OnOrAfter(a, start) + OnOrAfter(b, start)
    decreases |a|
  {
    if |a| > 0 {
      assert (a + b)[0] == a[0];
      assert (a + b)[1..] == a[1..] + b;
      OnOrAfterAppend(a[1..], b, start);
    } else {
      assert a + b == b;
    }
  }

  /** Rows that all lie on or after the start are kept whole; rows that all lie before it are all dropped. */
  lemma {:induction false} OnOrAfterExtremes(rows: seq<Prediction>, start: Date)
    ensures (forall i :: 0 <= i < |rows| ==> NotAfter(start, rows[i].ds)) ==> OnOrAfter(rows, start) == rows
    ensures (forall i :: 0 <= i < |rows| ==> !NotAfter(start, rows[i].ds)) ==> OnOrAfter(rows, start) == []
    decreases |rows|
  {
    if |rows| > 0 {
      OnOrAfterExtremes(rows[1..], start);
      assert forall i :: 1 <= i < |rows| ==> rows[1..][i - 1] == rows[i];
      assert [rows[0]] + rows[1..] == rows;
    }
  }

  /** `.head(n)` of pandas: the first n rows, or all but the last -n when n is negative. */
  function Head<T>(s: seq<T>, n: int): (t: seq<T>)
    ensures |t| <= |s| && t == s[..|t|]
    ensures 0 <= n ==> |t| == (if n < |s| then n else |s|)
    ensures n < 0 ==> |t| == (if |s| + n < 0 then 0 else |s| + n)
  {
    if n >= 0 then (if n < |s| then s[..n] else s)
    else if |s| + n < 0 then []
    else s[..|s| + n]
  }

  /** The rows a response returns: those dated on or after the start, at most `daysAhead` of them. */
  function Window(rows: seq<Prediction>, start: Date, daysAhead: int): seq<Prediction> {
    Head(OnOrAfter(rows, start), daysAhead)
  }

  /**
   * The window is the first `daysAhead` rows on or after the start, in their
   * forecast order: a prefix of the filtered rows, every one of them dated on
   * or after the start, and shorter than `daysAhead` only when the forecast
   * has no more such rows.
   */
  lemma WindowSpec(rows: seq<Prediction>, start: Date, daysAhead: int)
    requires 0 <= daysAhead
    ensures Window(rows, start, daysAhead) == OnOrAfter(rows, start)[..|Window(rows, start, daysAhead)|]
    ensures |Window(rows, start, daysAhead)| <= daysAhead
    ensures |Window(rows, start, daysAhead)| < daysAhead ==> Window(rows, start, daysAhead) == OnOrAfter(rows, start)
    ensures forall r :: r in Window(rows, start, daysAhead) ==> r in rows && NotAfter(start, r.ds)
  {
    var kept := OnOrAfter(rows, start);
    var w := Window(rows, start, daysAhead);
    forall r | r in w
      ensures r in rows && NotAfter(start, r.ds)
    {
      assert r in kept;
    }
  }

  // ---------------------------------------------------------------------------
  // Response records
  // ---------------------------------------------------------------------------

  /** One entry of the `predictions` list. */
  datatype PredictionRecord = PredictionRecord(
    date: string,
    predictedVisitors: int,
    lowerBound: int,
    upperBound: int,
    confidenceInterval: string)

  /** The `confidence_interval` text: `str(lower) + "-" + str(upper)`. */
  function IntervalText(lower: int, upper: int): string {
    IntToString(lower) + "-" + IntToString(upper)
  }

  function RecordOf(row: Prediction): PredictionRecord {
    PredictionRecord(FormatIsoDate(row.ds), row.yhat, row.yhatLower, row.yhatUpper,
                     IntervalText(row.yhatLower, row.yhatUpper))
  }

  function Records(rows: seq<Prediction>): seq<PredictionRecord> {
    seq(|rows|, i requires 0 <= i < |rows| => RecordOf(rows[i]))
  }

  /** The position of the first '-', or the length when there is none. */
  function DashIndex(s: string): (k: nat)
    ensures k <= |s|
    ensures forall i :: 0 <= i < k ==> s[i] != '-'
    ensures k < |s| ==> s[k] == '-'
  {
    if |s| == 0 || s[0] == '-' then 0 else 1 + DashIndex(s[1..])
  }

  /** Reading `"lower-upper"` back into two non-negative numbers. */
  function ParseInterval(s: string): Option<(nat, nat)> {
    var k := DashIndex(s);
    if 0 < k && k + 1 < |s| && AllDigits(s[..k]) && AllDigits(s[k + 1..])
    then Some((DigitsValue(s[..k]), DigitsValue(s[k + 1..])))
    else None
  }

  /** The interval text of two non-negative bounds reads back as those bounds. */
  lemma IntervalRoundTrip(lower: nat, upper: nat)
    ensures ParseInterval(IntervalText(lower, upper)) == Some((lower, upper))
  {
    var a, b := NatToString(lower), NatToString(upper);
    var s := IntervalText(lower, upper);
    assert s == a + "-" + b;
    assert s[|a|] == '-';
    assert forall i :: 0 <= i < |a| ==> s[i] == a[i];
    var k := DashIndex(s);
    assert k == |a|;
    assert s[..k] == a;
    assert s[k + 1..] == b;
    NatToStringRoundTrip(lower);
    NatToStringRoundTrip(upper);
  }

  /**
   * A record keeps the row's counts unchanged, its date reads back as the
   * row's date, and for non-negative bounds its interval reads back as the
   * two bounds.
   */
  lemma RecordReadsBack(row: Prediction)
    ensures RecordOf(row).predictedVisitors == row.yhat
    ensures RecordOf(row).lowerBound == row.yhatLower && RecordOf(row).upperBound == row.yhatUpper
    ensures ParseIsoDate(RecordOf(row).date) == Some(row.ds)
    ensures 0 <= row.yhatLower && 0 <= row.yhatUpper ==>
      ParseInterval(RecordOf(row).confidenceInterval) == Some((row.yhatLower as nat, row.yhatUpper as nat))
  {
    ParseFormatIsoDate(row.ds);
    if 0 <= row.yhatLower && 0 <= row.yhatUpper {
      IntervalRoundTrip(row.yhatLower, row.yhatUpper);
    }
  }

  /** The loop of `predict_visitors` that appends one record per window row. */
  method BuildPredictionRecords(rows: seq<Prediction>) returns (records: seq<PredictionRecord>)
    ensures records == Records(rows)
  {
    records := [];
    for i := 0 to |rows|
      invariant records == Records(rows[..i])
    {
      records := records + [RecordOf(rows[i])];
    }
    assert rows[..|rows|] == rows;
  }

  // ---------------------------------------------------------------------------
  // Responses
  // ---------------------------------------------------------------------------

  datatype PredictionResponse =
    | PredictionSucceeded(
        parkId: string,
        predictionStart: string,
        daysPredicted: nat,
        predictions: seq<PredictionRecord>,
        trainedAt: Option<Timestamp>,
        parkStats: Option<ParkStats>,
        generatedAt: Timestamp)
    | PredictionFailed(error: string, parkId: string)

  /**
   * The last day of pandas' nanosecond `Timestamp` (it ends at
   * 2262-04-11 23:47:16.854775807), the default resolution of `pd.to_datetime`.
   */
  const TimestampMaxDate := Date(2262, 4, 11)

  /** The text of the OutOfBoundsDatetime `pd.to_datetime(start_date)` raises for a start past that day. */
  function OutOfBoundsMessage(startDate: string): string {
    "Out of bounds nanosecond timestamp: " + startDate + " 00:00:00"
  }

  /**
   * The response `predict_visitors` builds from the predictor's forecast once
   * the request has passed its checks. The forecast comes first; then the
   * filter converts the start date to a pandas `Timestamp`, which fails for a
   * start after `TimestampMaxDate`.
   */
  function ForecastResponse(parkId: string, startDate: string, start: Date, daysAhead: int,
                            forecast: Result<seq<Prediction>, string>, trainedAt: Option<Timestamp>,
                            stats: Option<ParkStats>, now: Timestamp): (resp: PredictionResponse)
    ensures resp.parkId == parkId
    ensures resp.PredictionSucceeded? <==> forecast.Ok? && NotAfter(start, TimestampMaxDate)
    ensures forecast.Err? ==> resp.error == forecast.error
    ensures forecast.Ok? && !NotAfter(start, TimestampMaxDate) ==> resp == PredictionFailed(OutOfBoundsMessage(startDate), parkId)
    ensures resp.PredictionSucceeded? ==>
      && resp.daysPredicted == |resp.predictions|
      && (0 <= daysAhead ==> resp.daysPredicted <= daysAhead)
      && resp.predictionStart == startDate
      && resp.trainedAt == trainedAt && resp.parkStats == stats && resp.generatedAt == now
      && resp.predictions == Records(Window(forecast.value, start, daysAhead))
  {
    match forecast
    case Err(e) => PredictionFailed(e, parkId)
    case Ok(rows) =>
      if !NotAfter(start, TimestampMaxDate) then PredictionFailed(OutOfBoundsMessage(startDate), parkId)
      else
      var records := Records(Window(rows, start, daysAhead));
      PredictionSucceeded(parkId, startDate, |records|, records, trainedAt, stats, now)
  }

  /**
   * What a successful response promises about a forecast taken from
   * `predict`: every record is dated on or after the start, and its interval
   * text reads back as its two bounds.
   */
  lemma PredictedRecordsReadBack(model: Option<ProphetModel>, daysAhead: int, historyAvailable: bool, prophet: ProphetOracle,
                                 start: Date, i: int)
    requires PredictResult(model, daysAhead, historyAvailable, prophet).Ok?
    requires 0 <= i < |Window(PredictResult(model, daysAhead, historyAvailable, prophet).value, start, daysAhead)|
    ensures var row := Window(PredictResult(model, daysAhead, historyAvailable, prophet).value, start, daysAhead)[i];
      && NotAfter(start, row.ds)
      && ParseIsoDate(Records(Window(PredictResult(model, daysAhead, historyAvailable, prophet).value, start, daysAhead))[i].date) == Some(row.ds)
      && ParseInterval(Records(Window(PredictResult(model, daysAhead, historyAvailable, prophet).value, start, daysAhead))[i].confidenceInterval)
         == Some((row.yhatLower as nat, row.yhatUpper as nat))
  {
    var out := PredictResult(model, daysAhead, historyAvailable, prophet).value;
    var w := Window(out, start, daysAhead);
    var row := w[i];
    PredictResultSpec(model, daysAhead, historyAvailable, prophet);
    assert row in OnOrAfter(out, start);
    assert row in out;
    var j :| 0 <= j < |out| && out[j] == row;
    RecordReadsBack(row);
  }

  /** What `retrain_model` returns. */
  datatype RetrainResponse =
    | RetrainSucceeded(parkId: string, metrics: TrainingSummary, message: string)
    | RetrainFailed(parkId: string, error: string)

  const RetrainedMessage := "Model retrained successfully"

  /** What `get_model_performance` returns. */
  datatype PerformanceResponse =
    | PerformanceAvailable(parkId: string, trainedAt: Option<Timestamp>, metrics: Option<PerformanceTable>)
    | PerformanceMissing(error: string)

  function NoModelAvailableMessage(parkId: string): string {
    "No model available for park " + parkId
  }

  function TrainFailureMessage(parkId: string, error: string): string {
    "Could not train model for park " + parkId + ": " + error
  }

  // ---------------------------------------------------------------------------
  // The park list
  // ---------------------------------------------------------------------------

  /** The `visitor_stats` of a park entry. */
  datatype VisitorStats = VisitorStats(minVisitors: Option<int>, maxVisitors: Option<int>, avgVisitors: real)

  /** One entry of `get_available_parks`; an absent key of the source dictionary is None. */
  datatype ParkEntry = ParkEntry(
    parkId: string,
    name: string,
    state: Option<string>,
    region: Option<string>,
    parkType: Option<string>,
    hasModel: bool,
    dataAvailable: bool,
    coordinates: Option<(real, real)>,
    visitorStats: Option<VisitorStats>,
    metadata: Option<MetadataAggregates>)

  const Unknown := "Unknown"

  /** `_get_model_path`: the default model path of the park when a file lies there. */
  function ModelPathFor(files: map<string, StoredFile>, parkId: string): (path: Option<string>)
    ensures path.Some? <==> ModelPath(ModelDir, parkId) in files
    ensures path.Some? ==> path.value == DefaultModelPathText(parkId)
  {
    DefaultModelPath(parkId);
    if ModelPath(ModelDir, parkId) in files then Some(ModelPath(ModelDir, parkId)) else None
  }

  function DefaultModelPathText(parkId: string): string {
    "models/prophet_model_" + parkId + ".joblib"
  }

  /** A park whose model was just saved in the default directory has a model path; the others keep theirs. */
  lemma SavedModelIsFound(files: map<string, StoredFile>, data: ModelData, parkId: string)
    ensures ModelPathFor(StoreAfterSave(files, ModelDir, data), data.parkId).Some?
    ensures parkId != data.parkId ==>
      ModelPathFor(StoreAfterSave(files, ModelDir, data), parkId) == ModelPathFor(files, parkId)
  {
    if parkId != data.parkId && ModelPath(ModelDir, parkId) == ModelPath(ModelDir, data.parkId) {
      ModelPathInjective(ModelDir, parkId, data.parkId);
    }
  }

  /** The entry `get_available_parks` builds for one park from the name and coordinate tables. */
  function ParkEntryFrom(names: map<string, string>, coordinates: map<string, (real, real)>,
                         db: Database, files: map<string, StoredFile>, parkId: string): ParkEntry {
    var stats := StatsOf(db, parkId);
    var metadata := MetadataOf(db, parkId);
    ParkEntry(
      parkId,
      if parkId in names then names[parkId] else parkId,
      if metadata.Some? then metadata.value.state else Some(Unknown),
      if metadata.Some? then metadata.value.region else Some(Unknown),
      if metadata.Some? then metadata.value.parkType else Some(Unknown),
      ModelPathFor(files, parkId).Some?,
      stats.Some?,
      if parkId in coordinates then Some(coordinates[parkId]) else None,
      if stats.Some? then Some(VisitorStats(stats.value.minVisitors, stats.value.maxVisitors, stats.value.avgVisitors)) else None,
      if metadata.Some? then Some(metadata.value.aggregates) else None)
  }

  /** The entry `get_available_parks` builds for one park. */
  function ParkEntryFor(db: Database, files: map<string, StoredFile>, parkId: string): ParkEntry {
    ParkEntryFrom(ParkNames, ParkCoordinates, db, files, parkId)
  }

  /**
   * A park entry: coordinates exactly for the parks in the table, the table's
   * name or else the code itself, 'Unknown' place and type without metadata,
   * a model exactly when the default model file exists, and visitor figures
   * exactly when the database has statistics.
   */
  lemma ParkEntrySpec(names: map<string, string>, coordinates: map<string, (real, real)>,
                      db: Database, files: map<string, StoredFile>, parkId: string)
    ensures var e := ParkEntryFrom(names, coordinates, db, files, parkId);
      && e.parkId == parkId
      && (e.coordinates.Some? <==> parkId in coordinates)
      && (e.coordinates.Some? ==> e.coordinates.value == coordinates[parkId])
      && (parkId in names ==> e.name == names[parkId])
      && (parkId !in names ==> e.name == parkId)
      && (MetadataOf(db, parkId).None? ==> e.state == Some("Unknown") && e.region == Some("Unknown") && e.parkType == Some("Unknown"))
      && (MetadataOf(db, parkId).Some? ==>
            e.state == MetadataOf(db, parkId).value.state && e.region == MetadataOf(db, parkId).value.region
            && e.parkType == MetadataOf(db, parkId).value.parkType)
      && (e.metadata.Some? <==> MetadataOf(db, parkId).Some?)
      && (e.hasModel <==> ModelPath(ModelDir, parkId) in files)
      && (e.dataAvailable <==> StatsOf(db, parkId).Some?)
      && (e.visitorStats.Some? <==> StatsOf(db, parkId).Some?)
      && (e.visitorStats.Some? ==>
            e.visitorStats.value.avgVisitors == StatsOf(db, parkId).value.avgVisitors
            && e.visitorStats.value.minVisitors == StatsOf(db, parkId).value.minVisitors
            && e.visitorStats.value.maxVisitors == StatsOf(db, parkId).value.maxVisitors)
  {
  }

  /** The loop of `get_available_parks`: one entry per park the database lists, in its order. */
  method GetAvailableParks(db: Database, store: ModelStore) returns (parks: seq<ParkEntry>)
    ensures |parks| == |AllParks(db)|
    ensures forall i :: 0 <= i < |parks| ==> parks[i] == ParkEntryFor(db, store.files, AllParks(db)[i])
  {
    parks := ParkEntries(ParkNames, ParkCoordinates, db, store);
  }

  /** The loop itself, over given tables. */
  method ParkEntries(names: map<string, string>, coordinates: map<string, (real, real)>, db: Database, store: ModelStore)
    returns (parks: seq<ParkEntry>)
    ensures |parks| == |AllParks(db)|
    ensures forall i :: 0 <= i < |parks| ==> parks[i] == ParkEntryFrom(names, coordinates, db, store.files, AllParks(db)[i])
  {
    var ids := AllParks(db);
    parks := [];
    for i := 0 to |ids|
      invariant |parks| == i
      invariant forall j :: 0 <= j < i ==> parks[j] == ParkEntryFrom(names, coordinates, db, store.files, ids[j])
    {
      var entry := ParkEntryFrom(names, coordinates, db, store.files, ids[i]);
      parks := parks + [entry];
    }
  }

  // ---------------------------------------------------------------------------
  // The service
  // ---------------------------------------------------------------------------

  /** The 24-hour time to live of a cached predictor, in microseconds. */
  const ModelCacheTtl: int := 24 * 60 * 60 * 1000000

  /** The predictor holds the fields of a model file. */
  predicate Holds(p: ParkVisitorPredictor, data: ModelData)
    reads p
  {
    p.model == Some(data.model) && p.parkId == data.parkId && p.trainedAt == data.trainedAt && p.metrics == data.metrics
  }

  /** `_load_model`: a new predictor holding the park's saved model, or null when there is none that reads. */
  method LoadPredictor(parkId: string, store: ModelStore) returns (p: ParkVisitorPredictor?)
    ensures p == null <==> LoadFrom(store.files, ModelPath(ModelDir, parkId)).None?
    ensures p != null ==> fresh(p) && Holds(p, LoadFrom(store.files, ModelPath(ModelDir, parkId)).value)
  {
    var path := ModelPathFor(store.files, parkId);
    if path.None? {
      return null;
    }
    p := new ParkVisitorPredictor(parkId);
    var loaded := p.LoadModel(path.value, store);
    if !loaded {
      p := null;
    }
  }

  /** `PredictionService`: the predictors loaded so far, by park. */
  class PredictionService {
    var loadedModels: map<string, ParkVisitorPredictor>

    /** Every cached predictor holds a model: it was either loaded from a file or trained. */
    ghost predicate Valid()
      reads this, loadedModels.Values
    {
      forall q :: q in loadedModels ==> loadedModels[q].model.Some?
    }

    constructor()
      ensures Valid() && loadedModels == map[]
    {
      loadedModels := map[];
    }

    /** The park's predictor is cached, has a training time, and is younger than the time to live. */
    predicate CachedAndFresh(parkId: string, now: Timestamp)
      reads this, loadedModels.Values
    {
      && parkId in loadedModels
      && loadedModels[parkId].trainedAt.Some?
      && now - loadedModels[parkId].trainedAt.value < ModelCacheTtl
    }

    /**
     * `_get_or_load_model`: the cached predictor while it is fresh; otherwise
     * the model file is read again, and the cache entry is replaced only when
     * that succeeds. No other entry changes.
     */
    method GetOrLoadModel(parkId: string, store: ModelStore, now: Timestamp) returns (p: ParkVisitorPredictor?)
      requires Valid()
      modifies this
      ensures Valid()
      ensures old(CachedAndFresh(parkId, now)) ==> p == old(loadedModels[parkId]) && loadedModels == old(loadedModels)
      ensures !old(CachedAndFresh(parkId, now)) ==>
        && (p == null <==> LoadFrom(store.files, ModelPath(ModelDir, parkId)).None?)
        && (p == null ==> loadedModels == old(loadedModels))
        && (p != null ==> fresh(p) && Holds(p, LoadFrom(store.files, ModelPath(ModelDir, parkId)).value)
                          && loadedModels == old(loadedModels)[parkId := p])
    {
      if CachedAndFresh(parkId, now) {
        return loadedModels[parkId];
      }
      p := LoadPredictor(parkId, store);
      if p != null {
        loadedModels := loadedModels[parkId := p];
      }
    }

    /**
     * The part of `predict_visitors` that finds the park's predictor: the one
     * `_get_or_load_model` gives, or else a new one trained from the database,
     * saved in the default directory and cached. The result is null exactly
     * when that training fails, and the error is then the message the request
     * fails with.
     */
    method PredictorForRequest(parkId: string, db: Database, prophet: ProphetOracle, store: ModelStore, now: Timestamp)
      returns (p: ParkVisitorPredictor?, error: string)
      requires Valid()
      modifies this, store
      ensures Valid()
      ensures loadedModels - {parkId} == old(loadedModels) - {parkId}
      ensures p != null ==> parkId in loadedModels && loadedModels[parkId] == p
      ensures old(CachedAndFresh(parkId, now)) ==>
        p == old(loadedModels[parkId]) && loadedModels == old(loadedModels) && store.files == old(store.files)
      ensures !old(CachedAndFresh(parkId, now)) && LoadFrom(old(store.files), ModelPath(ModelDir, parkId)).Some? ==>
        && p != null && fresh(p) && store.files == old(store.files)
        && Holds(p, LoadFrom(old(store.files), ModelPath(ModelDir, parkId)).value)
      ensures !old(CachedAndFresh(parkId, now)) && LoadFrom(old(store.files), ModelPath(ModelDir, parkId)).None? ==>
        var trained := TrainResult(parkId, ParkData(db, parkId), prophet, now);
        && (p == null <==> trained.Err?)
        && (trained.Err? ==> error == TrainFailureMessage(parkId, trained.error)
                             && loadedModels == old(loadedModels) && store.files == old(store.files))
        && (trained.Ok? ==> fresh(p)
                            && store.files == StoreAfterSave(old(store.files), ModelDir, TrainedData(parkId, ParkData(db, parkId), prophet, now))
                            && Holds(p, TrainedData(parkId, ParkData(db, parkId), prophet, now)))
    {
      error := "";
      p := GetOrLoadModel(parkId, store, now);
      if p == null {
        p, error := TrainAndCache(parkId, db, prophet, store, now);
      }
    }

    /** The branch of `predict_visitors` that trains a park without a saved model, saves it and caches it. */
    method TrainAndCache(parkId: string, db: Database, prophet: ProphetOracle, store: ModelStore, now: Timestamp)
      returns (p: ParkVisitorPredictor?, error: string)
      requires Valid()
      modifies this, store
      ensures Valid()
      ensures loadedModels - {parkId} == old(loadedModels) - {parkId}
      ensures p != null ==> parkId in loadedModels && loadedModels[parkId] == p
      ensures
        var trained := TrainResult(parkId, ParkData(db, parkId), prophet, now);
        && (p == null <==> trained.Err?)
        && (trained.Err? ==> error == TrainFailureMessage(parkId, trained.error)
                             && loadedModels == old(loadedModels) && store.files == old(store.files))
        && (trained.Ok? ==> fresh(p)
                            && store.files == StoreAfterSave(old(store.files), ModelDir, TrainedData(parkId, ParkData(db, parkId), prophet, now))
                            && Holds(p, TrainedData(parkId, ParkData(db, parkId), prophet, now)))
    {
      error := "";
      var rows := ParkData(db, parkId);
      var predictor := new ParkVisitorPredictor(parkId);
      var trained := predictor.Train(rows, prophet, now);
      if trained.Err? {
        return null, TrainFailureMessage(parkId, trained.error);
      }
      ghost var data := TrainedData(parkId, rows, prophet, now);
      assert Holds(predictor, data);
      var saved := predictor.SaveModel(None, store);
      assert store.files == StoreAfterSave(old(store.files), ModelDir, data);
      loadedModels := loadedModels[parkId := predictor];
      p := predictor;
    }

    /**
     * `predict_visitors`. `today` and `now` stand for the clock, `db` for the
     * database and `prophet` for the forecasting library. A request that
     * fails its checks changes nothing; otherwise the park's predictor is
     * found (trained if need be) and the answer is the window of its forecast.
     */
    method PredictVisitors(parkId: string, startDate: string, daysAhead: int, today: Date, now: Timestamp,
                           db: Database, prophet: ProphetOracle, store: ModelStore) returns (resp: PredictionResponse)
      requires Valid()
      modifies this, store
      ensures Valid()
      ensures loadedModels - {parkId} == old(loadedModels) - {parkId}
      ensures resp.parkId == parkId
      ensures CheckRequest(startDate, daysAhead, today).Err? ==>
        && resp == PredictionFailed(CheckRequest(startDate, daysAhead, today).error, parkId)
        && loadedModels == old(loadedModels) && store.files == old(store.files)
      ensures CheckRequest(startDate, daysAhead, today).Ok? && old(CachedAndFresh(parkId, now)) ==>
        loadedModels == old(loadedModels) && store.files == old(store.files)
      ensures CheckRequest(startDate, daysAhead, today).Ok? && !old(CachedAndFresh(parkId, now))
              && LoadFrom(old(store.files), ModelPath(ModelDir, parkId)).Some? ==>
        && store.files == old(store.files)
        && parkId in loadedModels && fresh(loadedModels[parkId])
        && Holds(loadedModels[parkId], LoadFrom(old(store.files), ModelPath(ModelDir, parkId)).value)
      ensures CheckRequest(startDate, daysAhead, today).Ok? && !old(CachedAndFresh(parkId, now))
              && LoadFrom(old(store.files), ModelPath(ModelDir, parkId)).None? ==>
        var trained := TrainResult(parkId, ParkData(db, parkId), prophet, now);
        && (trained.Err? ==> resp == PredictionFailed(TrainFailureMessage(parkId, trained.error), parkId)
                             && loadedModels == old(loadedModels) && store.files == old(store.files))
        && (trained.Ok? ==> store.files == StoreAfterSave(old(store.files), ModelDir, TrainedData(parkId, ParkData(db, parkId), prophet, now))
                            && parkId in loadedModels && fresh(loadedModels[parkId])
                            && Holds(loadedModels[parkId], TrainedData(parkId, ParkData(db, parkId), prophet, now)))
      ensures CheckRequest(startDate, daysAhead, today).Ok?
              && (old(CachedAndFresh(parkId, now)) || LoadFrom(old(store.files), ModelPath(ModelDir, parkId)).Some?
                  || TrainResult(parkId, ParkData(db, parkId), prophet, now).Ok?) ==>
        && parkId in loadedModels
        && var p := loadedModels[parkId];
           && p.model.Some?
           && resp == ForecastResponse(parkId, startDate, CheckRequest(startDate, daysAhead, today).value, daysAhead,
                                    PredictResult(p.model, daysAhead, |ParkData(db, p.parkId)| > 0, prophet),
                                    p.trainedAt, StatsOf(db, parkId), now)
    {
      var checked := CheckRequest(startDate, daysAhead, today);
      if checked.Err? {
        return PredictionFailed(checked.error, parkId);
      }
      var start := checked.value;
      var predictor, error := PredictorForRequest(parkId, db, prophet, store, now);
      if predictor == null {
        return PredictionFailed(error, parkId);
      }
      var forecast := predictor.Predict(daysAhead, ParkData(db, predictor.parkId), prophet);
      if forecast.Err? {
        return PredictionFailed(forecast.error, parkId);
      }
      if !NotAfter(start, TimestampMaxDate) {
        return PredictionFailed(OutOfBoundsMessage(startDate), parkId);
      }
      var window := Window(forecast.value, start, daysAhead);
      var records := BuildPredictionRecords(window);
      resp := PredictionSucceeded(parkId, startDate, |records|, records, predictor.trainedAt, StatsOf(db, parkId), now);
    }

    /** `retrain_model`: a new predictor trained from the database, saved and cached; a failure changes nothing. */
    method RetrainModel(parkId: string, db: Database, prophet: ProphetOracle, store: ModelStore, now: Timestamp)
      returns (resp: RetrainResponse)
      requires Valid()
      modifies this, store
      ensures Valid()
      ensures resp.parkId == parkId
      ensures TrainResult(parkId, ParkData(db, parkId), prophet, now).Err? ==>
        && resp == RetrainFailed(parkId, TrainResult(parkId, ParkData(db, parkId), prophet, now).error)
        && loadedModels == old(loadedModels) && store.files == old(store.files)
      ensures TrainResult(parkId, ParkData(db, parkId), prophet, now).Ok? ==>
        && resp == RetrainSucceeded(parkId, TrainResult(parkId, ParkData(db, parkId), prophet, now).value, RetrainedMessage)
        && store.files == StoreAfterSave(old(store.files), ModelDir, TrainedData(parkId, ParkData(db, parkId), prophet, now))
        && parkId in loadedModels && fresh(loadedModels[parkId])
        && Holds(loadedModels[parkId], TrainedData(parkId, ParkData(db, parkId), prophet, now))
        && loadedModels - {parkId} == old(loadedModels) - {parkId}
    {
      var predictor := new ParkVisitorPredictor(parkId);
      var trained := predictor.Train(ParkData(db, parkId), prophet, now);
      if trained.Err? {
        return RetrainFailed(parkId, trained.error);
      }
      var saved := predictor.SaveModel(None, store);
      loadedModels := loadedModels[parkId := predictor];
      resp := RetrainSucceeded(parkId, trained.value, RetrainedMessage);
    }

    /** `get_model_performance`: the training time and metrics of the predictor `_get_or_load_model` finds. */
    method GetModelPerformance(parkId: string, store: ModelStore, now: Timestamp) returns (resp: PerformanceResponse)
      requires Valid()
      modifies this
      ensures Valid()
      ensures loadedModels - {parkId} == old(loadedModels) - {parkId}
      ensures resp.PerformanceMissing? <==>
        !old(CachedAndFresh(parkId, now)) && LoadFrom(store.files, ModelPath(ModelDir, parkId)).None?
      ensures resp.PerformanceMissing? ==> resp.error == NoModelAvailableMessage(parkId) && loadedModels == old(loadedModels)
      ensures old(CachedAndFresh(parkId, now)) ==> loadedModels == old(loadedModels)
      ensures !old(CachedAndFresh(parkId, now)) && LoadFrom(store.files, ModelPath(ModelDir, parkId)).Some? ==>
        && parkId in loadedModels && fresh(loadedModels[parkId])
        && Holds(loadedModels[parkId], LoadFrom(store.files, ModelPath(ModelDir, parkId)).value)
      ensures resp.PerformanceAvailable? ==>
        parkId in loadedModels
        && resp == PerformanceAvailable(parkId, loadedModels[parkId].trainedAt, loadedModels[parkId].metrics)
        && loadedModels[parkId].model.Some?
    {
      var predictor := GetOrLoadModel(parkId, store, now);
      if predictor == null {
        return PerformanceMissing(NoModelAvailableMessage(parkId));
      }
      resp := PerformanceAvailable(parkId, predictor.trainedAt, predictor.metrics);
    }
  }
}
