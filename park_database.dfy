/**
 * What the database queries answer; one value of `Database` stands for every
 * answer during a call. Each query swallows its own errors and then answers
 * an empty list, None or an empty frame. For a park without rows the list
 * and the frame are empty and `get_park_metadata` (which groups its rows) is
 * None, but `get_park_stats` aggregates without grouping and so still answers
 * a record, with zero days: its None comes only from a query that raised.
 */
module ParkDatabase {
  import opened Wrappers
  import opened Calendar

  /** The columns of a `get_park_data` row the trainer reads; None is a missing value. */
  datatype HistoryRow = HistoryRow(
    date: Option<Date>,
    visitorCount: Option<int>,
    month: int,
    isWeekend: Option<bool>,
    isHoliday: Option<bool>,
    schoolInSession: Option<bool>)

  /** The fields of `get_park_stats` the service reads (the minimum and maximum are NULL without rows). */
  datatype ParkStats = ParkStats(totalDays: nat, avgVisitors: real, minVisitors: Option<int>, maxVisitors: Option<int>)

  /** The aggregate fields of `get_park_metadata`, passed through unchanged into the park list. */
  datatype MetadataAggregates = MetadataAggregates(
    avgTemperatureHigh: Option<real>,
    avgPrecipitation: Option<real>,
    mostCommonWeather: Option<string>,
    weekendRatio: Option<real>,
    holidayRatio: Option<real>,
    schoolSessionRatio: Option<real>,
    avgSeasonalFactor: Option<real>,
    mostCommonVisitorCategory: Option<string>,
    totalDataPoints: nat,
    earliestDate: Option<string>,
    latestDate: Option<string>)

  /** The fields of `get_park_metadata`; the place and type are NULL for rows without them. */
  datatype ParkMetadata = ParkMetadata(parkType: Option<string>, state: Option<string>, region: Option<string>, aggregates: MetadataAggregates)

  datatype Database = Database(
    parks: seq<string>,
    stats: map<string, ParkStats>,
    metadata: map<string, ParkMetadata>,
    history: map<string, seq<HistoryRow>>)

  /** `get_all_parks()`. */
  function AllParks(db: Database): seq<string> {
    db.parks
  }

  /**
   * `get_park_stats(park_id)`: a park without rows has a record with zero
   * days in `stats`; a park missing from `stats` is one whose query raised.
   */
  function StatsOf(db: Database, parkId: string): Option<ParkStats> {
    if parkId in db.stats then Some(db.stats[parkId]) else None
  }

  /** `get_park_metadata(park_id)`. */
  function MetadataOf(db: Database, parkId: string): Option<ParkMetadata> {
    if parkId in db.metadata then Some(db.metadata[parkId]) else None
  }

  /** `get_park_data(park_id, days_back)`: the query does not use `days_back`. */
  function ParkData(db: Database, parkId: string): seq<HistoryRow> {
    if parkId in db.history then db.history[parkId] else []
  }
}
