# Park visitor forecasting: a verified model

This project models the deterministic core of a park-visitor forecasting service and proves its properties in Dafny. The service has five parts:

- **The synthetic dataset generator** (`data-scripts/generate_park_dataset.py`). It writes one record per park per day. The generator computes:
  - the five federal holidays of a year: three fixed dates, the last Monday of May and the first Monday of September;
  - the school-session rule;
  - the state-to-region table;
  - the visitor-level categories;
  - the 30 parks it covers.
- **The Prophet trainer** (`ml-service/app/model_trainer.py`). For each park it prepares history rows into training features and derives the same features for future dates. It clips and rounds forecasts, saves and loads a park's model file, and trains every park in turn.
- **The prediction service** (`ml-service/app/predictor.py`). It keeps a cache of loaded predictors per park with a 24-hour time to live, checks prediction requests, and cuts the forecast down to the requested window. It renders that window as response records and enriches the park list from its coordinate and name tables.
- **The HTTP endpoints** (`ml-service/main.py`). These cover the health status and model count, the `days_ahead` bounds and defaults, the "tomorrow" default start date, and the choice between 404 and 500.
- **The configuration** (`ml-service/app/config.py`). It supplies the database connection string and the model file location.

## How the model is built

Dates are `Calendar.Date` values. They are numbered by the proleptic Gregorian ordinal that Python's `date.toordinal` uses, and `Weekday` follows Python's convention (Monday = 0). Dates are read and written as ISO 8601 calendar dates in the extended format `YYYY-MM-DD` (section 4.1.2.2 of ISO 8601:2004). The two conversions are proved inverse to each other.

The generator's float multipliers become scaled integers:

- holiday multipliers ×10 (1.3 is 13);
- seasonal factors ×100 (0.65 is 65).

Forecast values are exact reals.

The outside world enters as values:

- **Database**: a `ParkDatabase.Database` value. Each query answers from it. A query swallows its own errors and answers an empty list, `None` or an empty frame. For a park without rows, the park list and the frame are empty and the metadata (grouped by park type, state and region) is `None`. The stats query aggregates without grouping, so it still answers a record with zero days; its `None` comes only from a query that raised, and the stats endpoint's 404 therefore reports a failed query rather than an unknown park.
- **Prophet**: `ModelTrainer.ProphetOracle`. Its functions give the fit, the cross-validation, the future dates and the forecast. The fit and the forecast may fail.
- **Model files**: the `ModelTrainer.ModelStore` class, a map from path to stored file.
- **Clock**: `today` and `now` are passed as parameters.

What the source changes in place stays imperative:

- `ParkVisitorPredictor` and `PredictionService` are classes with the source's fields (`model`, `trained_at`, `model_metrics`, `loaded_models`).
- The holiday loops, the day loop, the future-holiday marking loop and the park-list loop are `while`/`for` loops. Each is proved against a specification function.

The `Consistency` module relates the parts to each other:

- Every generator holiday is a holiday for the trainer's future-date rule; the converse fails only for Thanksgiving.
- School in session for the generator implies school in session for the trainer's rule.
- A generated record prepares into the same date, weekend and season features that the trainer derives for that date. The holiday features agree too, except on Thanksgiving, and the generator has school in session no more often than the trainer's rule.
- Every generated park has coordinates in the service's table. Every generated park except the Statue of Liberty (`STLI`) also has a name there, so the park list shows `STLI` under its code.

## Model

| member | source | states |
|---|---|---|
| Calendar.DaysInMonth | data-scripts/generate_park_dataset.py:344 | a month has 28 to 31 days, and 29 exactly for February of a leap year |
| Calendar.Weekday | data-scripts/generate_park_dataset.py:292 | `weekday()` is in 0..6 |
| Calendar.DaysBeforeYearStep | data-scripts/generate_park_dataset.py:344 | the ordinal of January 1 advances by the length of the year before it |
| Calendar.OrdinalWithinYear | data-scripts/generate_park_dataset.py:289 | a date's ordinal lies strictly after the days of the earlier years and within its own year |
| Calendar.DaysBeforeYearIncreasing | data-scripts/generate_park_dataset.py:289 | a later year starts after every day of an earlier year |
| Calendar.OrdinalStrictlyIncreasing | data-scripts/generate_park_dataset.py:289 | a strictly later date has a strictly larger ordinal |
| Calendar.NotAfterIffOrdinal | data-scripts/generate_park_dataset.py:289 | Python's date comparison `<=` holds exactly when the ordinals compare the same way |
| Calendar.OrdinalInjective | data-scripts/generate_park_dataset.py:289 | two valid dates with the same ordinal are the same date |
| Calendar.NextDay | data-scripts/generate_park_dataset.py:124 | adding `timedelta(days=1)` gives a valid date whose ordinal is one more |
| Calendar.MaxDateIsLatest | data-scripts/generate_park_dataset.py:344 | no date `datetime.date` can hold is after `date.max` |
| Calendar.NextDayBeforeMax | data-scripts/generate_park_dataset.py:344 | the day after any earlier date is still within year 9999 |
| Calendar.PrevDay | data-scripts/generate_park_dataset.py:118 | subtracting `timedelta(days=1)` gives a valid date whose ordinal is one less |
| Calendar.PrevDayInMonth | data-scripts/generate_park_dataset.py:118 | stepping back within a month only lowers the day |
| Calendar.NextPrevInverse | data-scripts/generate_park_dataset.py:118-124 | stepping forward and back by a day undo each other, in both orders |
| Calendar.WeekdayAdvance | data-scripts/generate_park_dataset.py:117-124 | k days later the weekday has advanced by k modulo 7 |
| Calendar.WeekdaysWithinAWeekDiffer | data-scripts/generate_park_dataset.py:117-124 | two dates less than a week apart fall on different weekdays |
| Calendar.FormatIsoDate | ml-service/app/predictor.py:270 | `strftime('%Y-%m-%d')` gives ten characters with dashes at positions 4 and 7 |
| Calendar.ParseIsoDate | ml-service/app/predictor.py:240 | a successful `strptime(s, '%Y-%m-%d')` gives a valid date with a year of at most 9999 |
| Calendar.ParseFormatIsoDate | ml-service/app/predictor.py:240-270 | parsing the text of a formatted date gives the date back |
| Calendar.FormatParseIsoDate | ml-service/app/predictor.py:240-270 | formatting a parsed date gives the same text back |
| Decimal.DigitChar | ml-service/app/predictor.py:274 | the digit character of 0..9 reads back as that number |
| Decimal.NatToString | ml-service/app/predictor.py:274 | `str` of a natural number is a non-empty string of digits, one character long exactly below 10 |
| Decimal.IntToString | ml-service/app/predictor.py:274 | `str` of an integer is digits, or a minus sign followed by `str` of its absolute value |
| Decimal.NatToStringRoundTrip | ml-service/app/predictor.py:274 | the decimal text of a number reads back as that number |
| Decimal.Pad2 | ml-service/app/predictor.py:270 | the `%m`/`%d` field is two digits |
| Decimal.Pad4 | ml-service/app/predictor.py:270 | the `%Y` field is four digits |
| Decimal.Pad2RoundTrip | ml-service/app/predictor.py:270 | a two-digit field reads back as its number |
| Decimal.Pad2OfDigits | ml-service/app/predictor.py:240 | any two digits are the padded text of their value |
| Decimal.Pad4RoundTrip | ml-service/app/predictor.py:270 | a four-digit field reads back as its number |
| Decimal.Pad4OfDigits | ml-service/app/predictor.py:240 | any four digits are the padded text of their value |
| ServiceConfig.EnvText | ml-service/app/config.py:8-12 | a set variable prints as its value, an unset one (`os.getenv` gives `None`) as `None` |
| ServiceConfig.DatabaseUrl | ml-service/app/config.py:23-25 | the connection URL built from the five settings; its form is stated by the two lemmas below |
| ServiceConfig.DatabaseUrlPrefix | ml-service/app/config.py:23-25 | `database_url` always starts with `postgresql+psycopg://` |
| ServiceConfig.DatabaseUrlSuffix | ml-service/app/config.py:23-25 | `database_url` always ends with `/` and the database name |
| ServiceConfig.PathJoin | ml-service/app/model_trainer.py:310-313 | `os.path.join` keeps a relative name as the tail of the path |
| ServiceConfig.ModelFileName | ml-service/app/model_trainer.py:312 | the model file name starts with `p`, the first letter of the prefix, so joining it never discards the directory |
| ServiceConfig.DefaultModelPath | ml-service/app/config.py:15-16 | the model of park p is at `models/prophet_model_p.joblib` |
| ServiceConfig.ModelFileNameInjective | ml-service/app/predictor.py:179-182 | a model file name determines its park |
| ServiceConfig.ModelPathInjective | ml-service/app/model_trainer.py:310-313 | different parks never share a model file in the same directory |
| ParkDataset.MemorialDay | data-scripts/generate_park_dataset.py:115-119 | Memorial Day is a valid date in May of the year |
| ParkDataset.LaborDay | data-scripts/generate_park_dataset.py:121-125 | Labor Day is a valid date in September of the year |
| ParkDataset.FederalHolidays | data-scripts/generate_park_dataset.py:101-127 | the reference table of a year's five holidays with their multipliers; the loop builds it and its shape is stated below |
| ParkDataset.GetFederalHolidays | data-scripts/generate_park_dataset.py:101-127 | the loop over the fixed holidays followed by the two search loops builds exactly the federal holiday table of the year |
| ParkDataset.FindMemorialDay | data-scripts/generate_park_dataset.py:115-118 | stepping back from May 31 stops at the year's Memorial Day |
| ParkDataset.FindLaborDay | data-scripts/generate_park_dataset.py:121-124 | stepping forward from September 1 stops at the year's Labor Day |
| ParkDataset.FixedHolidaysUnfolded | data-scripts/generate_park_dataset.py:106-113 | the fixed holidays are January 1 (1.3), July 4 (1.5) and December 25 (1.2) |
| ParkDataset.FederalHolidaysShape | data-scripts/generate_park_dataset.py:101-127 | the table has exactly five keys with their multipliers (Memorial Day 1.5, Labor Day 1.4), all valid dates of that year |
| ParkDataset.MemorialDayIsLastMonday | data-scripts/generate_park_dataset.py:115-119 | Memorial Day is a Monday from May 25 to 31 and no later day of May is a Monday, so the loop takes at most six steps |
| ParkDataset.LaborDayIsFirstMonday | data-scripts/generate_park_dataset.py:121-125 | Labor Day is a Monday from September 1 to 7 and no earlier day of September is a Monday |
| ParkDataset.MemorialDayUnique | data-scripts/generate_park_dataset.py:115-119 | every Monday from May 25 on is Memorial Day |
| ParkDataset.LaborDayUnique | data-scripts/generate_park_dataset.py:121-125 | every Monday up to September 7 is Labor Day |
| ParkDataset.MergeHolidays | data-scripts/generate_park_dataset.py:284-286 | the `update` loop over the years builds the merged table of the range |
| ParkDataset.MergedHolidaysStep | data-scripts/generate_park_dataset.py:285-286 | one more year updates the table with that year's holidays |
| ParkDataset.MergedHolidaysMembership | data-scripts/generate_park_dataset.py:284-286 | a date is in the merged table exactly when its year is in the range and it is a holiday of that year |
| ParkDataset.FederalHolidaysInTheirYear | data-scripts/generate_park_dataset.py:101-127 | every holiday key of a year lies in that year |
| ParkDataset.SeasonalFactor | data-scripts/generate_park_dataset.py:129-135 | the factor is 0.6 to 1.6, at its highest exactly in July and lowest exactly in January |
| ParkDataset.SchoolBreaks | data-scripts/generate_park_dataset.py:177-191 | school is out exactly in June to August, December 21 to 31, January 1 to 7 and March 10 to 20 |
| ParkDataset.IsSchoolInSession | data-scripts/generate_park_dataset.py:177-191 | school is in session outside the breaks; the breaks are stated by the lemma above |
| ParkDataset.FirstRegionFrom | data-scripts/generate_park_dataset.py:203-206 | the scan answers `Other` exactly when no remaining list holds the state, and otherwise the region of a list holding it |
| ParkDataset.RegionListsDisjoint | data-scripts/generate_park_dataset.py:195-201 | no state is in two region lists |
| ParkDataset.RegionForState | data-scripts/generate_park_dataset.py:193-206 | the region of a state, the first list holding it; its meaning is stated by the next lemma |
| ParkDataset.RegionForStateSpec | data-scripts/generate_park_dataset.py:193-206 | a listed state gets the region of its list, and `Other` exactly when no list holds it |
| ParkDataset.CategorizeVisitorLevel | data-scripts/generate_park_dataset.py:210-211 | a base of zero gives `Low` |
| ParkDataset.CategorizeThresholds | data-scripts/generate_park_dataset.py:208-221 | for a positive base the level is `Low`, `Medium`, `High` or `Peak` exactly as the ratio is below 0.5, below 1.0, below 1.5 or otherwise |
| ParkDataset.CategorizeMonotone | data-scripts/generate_park_dataset.py:213-221 | more visitors never give a lower level |
| ParkDataset.ExpandedParkListShape | data-scripts/generate_park_dataset.py:223-271 | the list has 30 parks with distinct codes and positive base visitors |
| ParkDataset.ExpandedParkListRegions | data-scripts/generate_park_dataset.py:193-271 | every listed park's state has a region other than `Other` |
| ParkDataset.ParkStatesListed | data-scripts/generate_park_dataset.py:223-271 | every park's state occurs in a region list |
| ParkDataset.ListedStateHasRegion | data-scripts/generate_park_dataset.py:193-206 | a state in a region list never maps to `Other` |
| ParkDataset.TruncateTowardZero | data-scripts/generate_park_dataset.py:310-319 | `int()` of a float truncates toward zero: within one of the value, and not away from zero |
| ParkDataset.RecordFor | data-scripts/generate_park_dataset.py:290-341 | the record of one day; its flags and count are stated by `GeneratedRecordFields` |
| ParkDataset.GenerateParkData | data-scripts/generate_park_dataset.py:273-346 | a range ending on `date.max` (9999-12-31) raises "date value out of range" at the step past its last record, and no other range fails. Otherwise the loop yields one record per day from start to end inclusive, in increasing date order, each the record of its day |
| ParkDataset.GeneratedRecordsCoverRange | data-scripts/generate_park_dataset.py:288-344 | every day of the range has its record, found at its offset from the start |
| ParkDataset.GeneratedRecordFields | data-scripts/generate_park_dataset.py:310-341 | a record is on a weekend exactly when the weekday is at least 5 and on a holiday exactly when its date is a holiday of its year; its count is the truncated product clamped at zero, so never negative |
| ModelTrainer.Flag | ml-service/app/model_trainer.py:48-50 | `astype(int)` gives 1 exactly for true, and 0 otherwise |
| ModelTrainer.DropIncomplete | ml-service/app/model_trainer.py:39 | `dropna(subset=['ds', 'y'])` keeps exactly the rows that have a date and a count |
| ModelTrainer.PrepareData | ml-service/app/model_trainer.py:23-63 | preparation fails exactly on an empty frame, with the "No data available" message, and never yields more rows than it was given |
| ModelTrainer.PreparedRowFeatures | ml-service/app/model_trainer.py:39-60 | a prepared row keeps its date and count; missing weekend and holiday flags become 0 and missing school flags 1; `weekend_holiday` is their or; summer is June to August; winter is months up to 2 or December |
| ModelTrainer.PrepareRow | ml-service/app/model_trainer.py:39-60 | the training features of one history row; stated by the lemma above |
| ModelTrainer.FutureRowFeatures | ml-service/app/model_trainer.py:249-278 | a future date is a weekend exactly on days 5 and 6 and a holiday exactly by the holiday rule. School is in session exactly in months up to May or from September; summer is June to August; winter is December to February; `weekend_holiday` is the or of weekend and holiday |
| ModelTrainer.FutureIsHoliday | ml-service/app/model_trainer.py:258-263 | the trainer's future holiday rule; related to the generator's holidays by the `Consistency` lemmas |
| ModelTrainer.FutureRow | ml-service/app/model_trainer.py:249-278 | the future features of one date; stated by the lemma above |
| ModelTrainer.MarkFutureHolidays | ml-service/app/model_trainer.py:254-264 | after the `iterrows` loop each row's `is_holiday` is 1 exactly when its date satisfies the holiday rule |
| ModelTrainer.AddFutureFeatures | ml-service/app/model_trainer.py:248-278 | the future feature columns are those of each future date |
| ModelTrainer.Tail | ml-service/app/model_trainer.py:284-286 | `tail(n)` is the last n rows, or all rows but the first -n when n is negative |
| ModelTrainer.Clip | ml-service/app/model_trainer.py:289-291 | `clip(lower=0)` is never negative and leaves a non-negative value alone |
| ModelTrainer.RoundHalfEven | ml-service/app/model_trainer.py:294-296 | `round()` lands within one half of the value, strictly except on a tie, and a tie goes to the even neighbour |
| ModelTrainer.RoundHalfEvenMonotone | ml-service/app/model_trainer.py:294-296 | rounding preserves order |
| ModelTrainer.ClipRound | ml-service/app/model_trainer.py:289-296 | a clipped and rounded forecast value is never negative |
| ModelTrainer.PostProcessKeepsOrder | ml-service/app/model_trainer.py:289-296 | clipping and rounding keep 0 <= lower <= yhat <= upper when the row had it |
| ModelTrainer.PostProcessTail | ml-service/app/model_trainer.py:284-296 | row i of the post-processed tail is the clipped and rounded forecast row at the same offset from the end, with non-negative values |
| ModelTrainer.PostProcessWholeRow | ml-service/app/model_trainer.py:289-296 | a row of whole non-negative values passes unchanged |
| ModelTrainer.TrainResultCases | ml-service/app/model_trainer.py:151-215 | training fails on empty history with the "No data" message, and otherwise exactly when the fit fails. A success is stamped `now` and counts at most the given rows. It has the three means of the cross-validation table exactly when cross-validation succeeded and all three columns exist, and otherwise none of them |
| ModelTrainer.TableKeptWithoutMeans | ml-service/app/model_trainer.py:188-193 | a cross-validation table lacking a mean column is still stored as the model's metrics, while the summary then reports none |
| ModelTrainer.TrainResult | ml-service/app/model_trainer.py:151-215 | the result of `train`; its cases are stated by `TrainResultCases` |
| ModelTrainer.PredictResultSpec | ml-service/app/model_trainer.py:217-298 | predicting without a model raises "Model must be trained", and with the unfitted model of a failed fit raises Prophet's "Model has not been fit.". Otherwise the result is the last `days_ahead` forecast rows (all but the first `-days_ahead` when negative), in order, each the clipped and rounded forecast row, so yhat and both bounds are non-negative |
| ModelTrainer.PredictKeepsIntervals | ml-service/app/model_trainer.py:282-298 | when Prophet's intervals contain their estimates, every predicted row has 0 <= lower <= yhat <= upper |
| ModelTrainer.PredictResult | ml-service/app/model_trainer.py:217-298 | the result of `predict`; stated by the two lemmas above |
| ModelTrainer.ModelStore.constructor | ml-service/app/model_trainer.py:322 | a store starts with the given files |
| ModelTrainer.LoadFrom | ml-service/app/model_trainer.py:327-341 | what loading a path gives: the stored fields, or nothing; stated by `LoadAfterSave` |
| ModelTrainer.LoadAfterSave | ml-service/app/model_trainer.py:300-341 | loading the saved path restores model, park, training time and metrics exactly; every other path still loads as before |
| ModelTrainer.SaveKeepsOtherParks | ml-service/app/model_trainer.py:310-322 | saving one park's model leaves every other park's model file as it was |
| ModelTrainer.ParkVisitorPredictor.constructor | ml-service/app/model_trainer.py:16-21 | a new predictor has its park and no model, metrics or training time |
| ModelTrainer.ParkVisitorPredictor.Train | ml-service/app/model_trainer.py:151-215 | the summary is the training result. Empty history changes nothing; a failed fit still leaves an unfitted model. A fit sets the model and training time. The metrics become the cross-validation table whenever cross-validation succeeded, even when a mean then cannot be taken, and stay as they were otherwise |
| ModelTrainer.ParkVisitorPredictor.Predict | ml-service/app/model_trainer.py:217-298 | the forecast is the prediction result of the current model from the park's history |
| ModelTrainer.ParkVisitorPredictor.SaveModel | ml-service/app/model_trainer.py:300-325 | without a model it raises "No model to save" and writes nothing; otherwise it writes the four fields to the park's path in the given or default directory and returns that path |
| ModelTrainer.ParkVisitorPredictor.LoadModel | ml-service/app/model_trainer.py:327-341 | it answers true exactly when the path loads, and then takes all four fields from the file; on failure it changes nothing |
| ModelTrainer.TrainedModelsSaved | ml-service/app/model_trainer.py:343-368 | after training every park, each park that trained loads from its default path with its own training data |
| ModelTrainer.TrainingKeepsOtherFiles | ml-service/app/model_trainer.py:343-368 | a path that is no park's model file is untouched by training all parks |
| ModelTrainer.TrainAllParks | ml-service/app/model_trainer.py:343-368 | the results table has the outcome of every park, success with metrics or failure with the error, and the files are those after each success was saved |
| ModelTrainer.TrainAndSavePark | ml-service/app/model_trainer.py:350-366 | one park's outcome; a success saves its model under the default directory, and a failure leaves the files unchanged |
| Predictor.CheckRequest | ml-service/app/predictor.py:236-242 | a request passes exactly when `days_ahead` is in 1..365, the start date parses and it is not before today. The bound is checked first, then the format, then the past, and each failure gives its own message; an accepted date formats back to the given text |
| Predictor.OnOrAfter | ml-service/app/predictor.py:261-263 | the filter keeps exactly the rows dated on or after the start |
| Predictor.OnOrAfterAppend | ml-service/app/predictor.py:261-263 | the filter keeps the original order: filtering two parts is filtering the whole |
| Predictor.OnOrAfterExtremes | ml-service/app/predictor.py:261-263 | rows all on or after the start are all kept, and rows all before it are all dropped |
| Predictor.Head | ml-service/app/predictor.py:264 | `head(n)` is a prefix of n rows at most, or all but the last -n when n is negative |
| Predictor.Window | ml-service/app/predictor.py:258-264 | the rows returned for a request; stated by `WindowSpec` |
| Predictor.WindowSpec | ml-service/app/predictor.py:258-264 | the window is a prefix of the rows dated on or after the start; it has at most `days_ahead` rows, and fewer only when it is all of them |
| Predictor.DashIndex | ml-service/app/predictor.py:274 | the position of the first dash in an interval text |
| Predictor.IntervalText | ml-service/app/predictor.py:274 | the `"lower-upper"` text; read back by `IntervalRoundTrip` |
| Predictor.IntervalRoundTrip | ml-service/app/predictor.py:274 | the `"lower-upper"` text reads back as the two bounds |
| Predictor.RecordReadsBack | ml-service/app/predictor.py:267-275 | a record copies the predicted value and both bounds unchanged; its date reads back as the row's date and its interval as the two bounds |
| Predictor.BuildPredictionRecords | ml-service/app/predictor.py:267-275 | the append loop builds one record per row, in order |
| Predictor.ForecastResponse | ml-service/app/predictor.py:257-300 | the response succeeds exactly when the forecast did and the start is no later than 2262-04-11, the last day of a pandas nanosecond `Timestamp`. A failed forecast fails with its own error, which comes first. A later start fails with the out-of-bounds message. On success the records are those of the window, `days_predicted` is their number and at most `days_ahead`, and the start, training time, stats and time are echoed; a failure carries its error |
| Predictor.PredictedRecordsReadBack | ml-service/app/predictor.py:258-275 | every returned record is of a row on or after the start, and reads back as its date and bounds |
| Predictor.ModelPathFor | ml-service/app/predictor.py:177-185 | a path is found exactly when the park's default model file exists, and it is that file's path |
| Predictor.SavedModelIsFound | ml-service/app/predictor.py:177-185 | after a save the saved park's path is found, and the lookup of every other park is unchanged |
| Predictor.ParkEntrySpec | ml-service/app/predictor.py:307-351 | an entry has coordinates exactly when the table has them and the table's name or else the id. Without metadata the place fields are `Unknown`. `has_model` is whether the model file exists, and the visitor stats are present exactly when the stats are and copy them |
| Predictor.ParkEntryFrom | ml-service/app/predictor.py:307-351 | the park-list entry of one park; stated by the lemma above |
| Predictor.GetAvailableParks | ml-service/app/predictor.py:302-353 | one entry per database park, in order, each as the park's entry over the service tables |
| Predictor.ParkEntries | ml-service/app/predictor.py:304-353 | the entry loop over any name and coordinate tables builds the entry of each park, in order |
| Predictor.LoadPredictor | ml-service/app/predictor.py:187-199 | no predictor exactly when the default file does not load; otherwise a new predictor holding the file's fields |
| Predictor.PredictionService.constructor | ml-service/app/predictor.py:173-175 | the cache starts empty |
| Predictor.PredictionService.GetOrLoadModel | ml-service/app/predictor.py:201-216 | a cached predictor with a training time younger than 24 hours is returned and nothing changes. Otherwise the file is loaded, the cache entry is written only when loading succeeds, and no other key changes |
| Predictor.PredictionService.PredictorForRequest | ml-service/app/predictor.py:245-255 | a fresh cached or loadable model is used as is. Without one the park is trained: failure gives "Could not train model" with cache and files unchanged; success saves the model and caches it under the park |
| Predictor.PredictionService.TrainAndCache | ml-service/app/predictor.py:249-255 | training and saving a new predictor, cached only when training succeeds |
| Predictor.PredictionService.PredictVisitors | ml-service/app/predictor.py:218-300 | a rejected request fails with the check's error before any cache lookup, so cache and files are unchanged. A fresh cached predictor is used with nothing changed; else a loadable file is loaded and cached with the files unchanged; else the park is trained, and a failed training fails with its message. Otherwise the answer is the forecast response, including its failure for a start after 2262-04-11, of the cached, loaded or trained predictor, which holds a model. The park is always echoed and no other cache key changes |
| Predictor.PredictionService.RetrainModel | ml-service/app/predictor.py:355-378 | success saves and caches the new predictor and reports its metrics; failure reports the error and leaves cache and files unchanged |
| Predictor.PredictionService.GetModelPerformance | ml-service/app/predictor.py:380-395 | `success=False` with "No model available" exactly when no fresh cached or loadable model exists. A fresh cached predictor leaves the cache unchanged; otherwise the loaded predictor is cached holding the file's fields. The answer is the training time and metrics of a predictor that holds a model |
| Api.CountWithModel | ml-service/main.py:100 | the model count is at most the number of parks |
| Api.CountWithModelAppend | ml-service/main.py:100 | the count over two lists is the sum of their counts |
| Api.CountWithModelExtremes | ml-service/main.py:100 | the count is all parks exactly when every park has a model, and zero exactly when none has |
| Api.CountOfAvailableParks | ml-service/main.py:99-100 | when each `has_model` says whether the park's model file exists, the count is the number of parks with a model file |
| Api.HealthCountsModelFiles | ml-service/main.py:99-100 | over the service's park list the model count is the number of database parks whose model file exists |
| Api.HealthCheck | ml-service/main.py:91-108 | the database always counts as connected and the status is always "healthy": `get_all_parks` answers a list even when its query fails, and `len(parks) >= 0` holds for every list. The model count is the number of entries with a model, and the version and time are echoed |
| Api.DaysAheadOrDefault | ml-service/main.py:49 | `days_ahead` defaults to 30 and is accepted exactly in 1..365, unchanged; below 1 it breaks the `ge=1` bound and above 365 the `le=365` bound |
| Api.ValidateRequest | ml-service/main.py:46-57 | a request validates exactly when the date parses and `days_ahead` is in bounds, keeping its fields. Otherwise there are one or two field errors: the date's first, with the validator's text, and the bound `days_ahead` broke last |
| Api.TomorrowText | ml-service/main.py:154-155 | tomorrow's text is the formatted next day, absent only past year 9999 |
| Api.QuickPredict | ml-service/main.py:145-163 | an out-of-bounds `days_ahead` is 422. A given start date is forwarded as the validated request, or is 500 when the request model rejects it. A missing one becomes tomorrow, or 500 when tomorrow is past year 9999 |
| Api.QuickPredictDefaultAccepted | ml-service/main.py:154-163 | the default start date is forwarded and passes the service's checks as tomorrow |
| Api.ValidatedRequestChecks | ml-service/main.py:46-57 | a validated request passes the service's checks exactly when its date is not in the past |
| Api.StatsEndpoint | ml-service/main.py:165-179 | the stats are answered exactly when present, and no stats (a failed query) is 404 naming the park |
| Api.RetrainEndpoint | ml-service/main.py:181-206 | a park not in the list is 404, which includes every park when the query fails and the list is empty; otherwise `training_started` echoing the park |
| Api.RetrainAllEndpoint | ml-service/main.py:208-222 | `training_started` with the number of parks |
| Api.PerformanceEndpoint | ml-service/main.py:228-243 | a successful performance is answered unchanged; `success=False` is 404 with the service's error text, and a raised error is 500 |
| Api.MissingModelIsNotFound | ml-service/main.py:234-235 | a park without a model gets 404 "No model available for park ..." |
| ParkDatabase.AllParks | ml-service/app/database.py:63-77 | the park ids `get_all_parks` answers |
| ParkDatabase.StatsOf | ml-service/app/database.py:79-117 | the record `get_park_stats` answers, None only for a query that raised |
| ParkDatabase.MetadataOf | ml-service/app/database.py:119-167 | the record `get_park_metadata` answers, None for a park without rows or a query that raised |
| ParkDatabase.ParkData | ml-service/app/database.py:13-61 | the rows `get_park_data` answers, empty for a park without rows |
| Consistency.GeneratorHolidaysAreFutureHolidays | ml-service/app/model_trainer.py:258-263 | every holiday the generator writes satisfies the trainer's future holiday rule |
| Consistency.FutureHolidaysAreGeneratorHolidaysOrThanksgiving | ml-service/app/model_trainer.py:258-263 | the trainer's future holidays are exactly the generator's holidays of the year plus the Thursdays of November 22 to 28 |
| Consistency.ThanksgivingOnlyInTrainer | ml-service/app/model_trainer.py:261 | November 27, 2025 is a trainer holiday but not a generator holiday |
| Consistency.SchoolInSessionAgrees | ml-service/app/model_trainer.py:267 | school in session for the generator implies it for the trainer's future rule |
| Consistency.ChristmasBreakOnlyInGenerator | ml-service/app/model_trainer.py:267 | on Christmas Day the trainer's rule has school in session and the generator does not |
| Consistency.TrainingFeaturesMatchFutureFeatures | ml-service/app/model_trainer.py:48-60 | a generated day prepares into the trainer's future features for that date: the same date, weekend and season flags; the same holiday flags except on Thanksgiving; school in session no more often |
| Consistency.GeneratedParksHaveCoordinates | ml-service/app/predictor.py:15-98 | every generated park code has coordinates in the service's table |
| Consistency.GeneratedParksHaveNames | ml-service/app/predictor.py:101-170 | every generated park code except `STLI` has a name in the service's table |
| Consistency.StatueOfLibertyHasNoName | ml-service/app/predictor.py:101-170 | the name table has no `STLI` entry |
| Consistency.StatueOfLibertyListedByCode | ml-service/app/predictor.py:315 | so the park list names `STLI` by its code |

## Left out

- Years past 9999: `Calendar.Date` has no upper bound on the year. Python's `MAXYEAR` overflow is modelled where the core steps or formats dates: `ParkDataset.GenerateParkData` (which takes `PyDate` bounds and fails on a range ending on `date.max`), `Api.TomorrowText` and `Api.QuickPredict`.
- Predictor.ForecastResponse: a start after 2262-04-11 fails with the text `Predictor.OutOfBoundsMessage`. The exact wording of pandas' `OutOfBoundsDatetime` differs between pandas versions, and pandas versions that let `to_datetime` pick a coarser resolution are not modelled.
- Predictor.CheckRequest: a start date `strptime` rejects gets the one message of a text without the format's shape. Its other messages (`day is out of range for month`, `unconverted data remains: ...`) and the repr quoting of the text are not modelled.
- Calendar.ParseIsoDate: accepts only four ASCII digits, a dash, two ASCII digits, a dash and two ASCII digits. Python's `strptime` also accepts one-digit months and days (`2025-7-4`), a space before a one-digit field (`2025-07- 4`, itself ten characters) and non-ASCII decimal digits. The model rejects all of these.
- Floating point: forecast values are exact reals, and IEEE rounding is not modelled. The generator's multipliers are exact decimals (scaled integers and reals).
- The weather simulation, the gas price and the random factor of the generator use floats and the per-process salted `hash()`. They enter `ParkDataset.GenerateParkData` as one abstract `otherFactors` per day.
- The generator's `simulate_weather`, schema creation, upsert and `main()` are left out: they are I/O and printing.
- The temperature, precipitation, seasonal-factor and gas-price columns are ignored in two places: the prepared training rows and the future frame. They come from means, sines and Poisson draws.
- Prophet is an oracle: `create_model`'s configuration, `fit`, `cross_validation`, `performance_metrics`, `make_future_dataframe` and `predict`.
- `add_holidays` (and its list of holiday dates, including Thanksgiving) is never called in the source, so it is not modelled.
- joblib files are the `ModelStore` map. Pickling, partly written files, a missing `park_id` key in a loaded file and I/O errors on save are not modelled. `load_model` succeeds exactly when the path holds a stored model.
- `glob`: a park id containing glob metacharacters is taken literally.
- The clock: `datetime.now()` and `date.today()` are the parameters `now` and `today`, which stay fixed within one call.
- The database (`ml-service/app/database.py`) is a `Database` value. Its SQL aggregates (averages, minimum and maximum, ratios) are taken as given. `get_park_data` does not take `days_back`, because the source's query never uses it either (`ml-service/app/database.py:13-51`).
- Logging is not modelled.
- The `except Exception` branches of `health_check` (`degraded`), `get_park_stats` (500) and `retrain_model` (500) in `ml-service/main.py` are not modelled. `get_all_parks` and `get_park_stats` catch every exception themselves (`ml-service/app/database.py:75-77`, `115-117`), so nothing in those handlers can raise. `Api.HealthCheck`, `Api.StatsEndpoint` and `Api.RetrainEndpoint` therefore take the answers of those calls directly.
- FastAPI routing, pydantic's error format (a field error carries only which bound or validator failed), CORS, uvicorn and `BackgroundTasks` are not modelled: retraining scheduled by an endpoint is not run by the endpoint model.
- `GET /parks` and `POST /predict` only wrap service calls into response classes. They are not modelled beyond `Predictor.GetAvailableParks` and `Predictor.PredictionService.PredictVisitors`.
- `ml-service/create_visualizations.py` and `ml-service/test_service.py` are not part of this model.
- The browser-side frontend (the proxy endpoints and the map aggregation) is not part of this model.
