/**
 * The calendar and feature rules of the synthetic visitor-data generator:
 * federal holidays with their visitor multipliers, the seasonal factor, the
 * school-session rule, the state-to-region table, the visitor-level
 * categories, the fixed list of 30 parks, and the day-by-day record loop.
 *
 * Multipliers are scaled integers: holiday multipliers in tenths (1.3 is 13),
 * seasonal factors in hundredths (0.65 is 65).
 */
module ParkDataset {
  import opened Wrappers
  import opened Calendar

  // ---------------------------------------------------------------------------
  // Federal holidays
  // ---------------------------------------------------------------------------

  /** The fixed-date holidays as (month, day, multiplier in tenths): New Year, Independence Day, Christmas. */
  const FixedHolidayTable: seq<(int, int, int)> := [(1, 1, 13), (7, 4, 15), (12, 25, 12)]

  const MemorialDayMultiplier := 15
  const LaborDayMultiplier := 14

  /** The last Monday in May: May 31 moved back to the Monday on or before it. */
  function MemorialDay(y: int): (d: Date)
    requires 1 <= y
    ensures ValidDate(d) && d.year == y && d.month == 5
  {
    Date(y, 5, 31 - Weekday(Date(y, 5, 31)))
  }

  /** The first Monday in September: September 1 moved on to the Monday on or after it. */
  function LaborDay(y: int): (d: Date)
    requires 1 <= y
    ensures ValidDate(d) && d.year == y && d.month == 9
  {
    Date(y, 9, 1 + (7 - Weekday(Date(y, 9, 1))) % 7)
  }

  /** The dictionary after the first n fixed holidays have been stored. */
  function FixedHolidays(y: int, n: nat): map<Date, int>
    requires n <= |FixedHolidayTable|
  {
    if n == 0 then map[]
    else
      var (m, d, f) := FixedHolidayTable[n - 1];
      FixedHolidays(y, n - 1)[Date(y, m, d) := f]
  }

  /** What `get_federal_holidays(year)` returns: the dictionary in the order the source fills it. */
  function FederalHolidays(y: int): map<Date, int>
    requires 1 <= y
  {
    FixedHolidays(y, |FixedHolidayTable|)[MemorialDay(y) := MemorialDayMultiplier][LaborDay(y) := LaborDayMultiplier]
  }

  /**
   * `get_federal_holidays`: stores the fixed holidays, then steps back from
   * May 31 to a Monday and forward from September 1 to a Monday.
   */
  method GetFederalHolidays(year: int) returns (holidays: map<Date, int>)
    requires 1 <= year
    ensures holidays == FederalHolidays(year)
  {
    holidays := map[];
    for i := 0 to |FixedHolidayTable|
      invariant holidays == FixedHolidays(year, i)
    {
      var (month, day, multiplier) := FixedHolidayTable[i];
      holidays := holidays[Date(year, month, day) := multiplier];
    }

    var memorialDay := FindMemorialDay(year);
    holidays := holidays[memorialDay := MemorialDayMultiplier];
    var laborDay := FindLaborDay(year);
    holidays := holidays[laborDay := LaborDayMultiplier];
  }

  /** The loop of `get_federal_holidays` that steps back from May 31 until it reaches a Monday. */
  method FindMemorialDay(year: int) returns (memorialDay: Date)
    requires 1 <= year
    ensures memorialDay == MemorialDay(year)
  {
    memorialDay := Date(year, 5, 31);
    MemorialDayIsLastMonday(year);
    while Weekday(memorialDay) != 0
      invariant memorialDay.year == year && memorialDay.month == 5
      invariant MemorialDay(year).day <= memorialDay.day <= 31
      decreases memorialDay.day
    {
      PrevDayInMonth(memorialDay);
      memorialDay := PrevDay(memorialDay);
    }
  }

  /** The loop of `get_federal_holidays` that steps forward from September 1 until it reaches a Monday. */
  method FindLaborDay(year: int) returns (laborDay: Date)
    requires 1 <= year
    ensures laborDay == LaborDay(year)
  {
    laborDay := Date(year, 9, 1);
    LaborDayIsFirstMonday(year);
    while Weekday(laborDay) != 0
      invariant laborDay.year == year && laborDay.month == 9
      invariant 1 <= laborDay.day <= LaborDay(year).day
      decreases LaborDay(year).day - laborDay.day
    {
      laborDay := NextDay(laborDay);
    }
  }

  lemma FixedHolidaysUnfolded(y: int)
    ensures FixedHolidays(y, |FixedHolidayTable|) == map[Date(y, 1, 1) := 13, Date(y, 7, 4) := 15, Date(y, 12, 25) := 12]
  {
    assert FixedHolidays(y, 1) == map[Date(y, 1, 1) := 13];
    assert FixedHolidays(y, 2) == map[Date(y, 1, 1) := 13, Date(y, 7, 4) := 15];
  }

  /** The holiday dictionary of a year: exactly five dates, all in that year, with their multipliers. */
  lemma FederalHolidaysShape(y: int)
    requires 1 <= y
    ensures FederalHolidays(y).Keys == {Date(y, 1, 1), Date(y, 7, 4), Date(y, 12, 25), MemorialDay(y), LaborDay(y)}
    ensures |FederalHolidays(y)| == 5
    ensures FederalHolidays(y)[Date(y, 1, 1)] == 13
    ensures FederalHolidays(y)[Date(y, 7, 4)] == 15
    ensures FederalHolidays(y)[Date(y, 12, 25)] == 12
    ensures FederalHolidays(y)[MemorialDay(y)] == 15
    ensures FederalHolidays(y)[LaborDay(y)] == 14
    ensures forall d :: d in FederalHolidays(y) ==> ValidDate(d) && d.year == y
  {
    FixedHolidaysUnfolded(y);
    var keys := {Date(y, 1, 1), Date(y, 7, 4), Date(y, 12, 25), MemorialDay(y), LaborDay(y)};
    var k1 := keys - {Date(y, 1, 1)};
    var k2 := k1 - {Date(y, 7, 4)};
    var k3 := k2 - {Date(y, 12, 25)};
    var k4 := k3 - {MemorialDay(y)};
    assert k4 == {LaborDay(y)};
  }

  /** Memorial Day is a Monday in May between the 25th and the 31st, and no later day of May is a Monday. */
  lemma MemorialDayIsLastMonday(y: int)
    requires 1 <= y
    ensures Weekday(MemorialDay(y)) == 0
    ensures 25 <= MemorialDay(y).day <= 31
    ensures forall k :: MemorialDay(y).day < k <= 31 ==> Weekday(Date(y, 5, k)) != 0
  {
    var md, last := MemorialDay(y), Date(y, 5, 31);
    WeekdayAdvance(md, last, 31 - md.day);
    forall k | md.day < k <= 31
      ensures Weekday(Date(y, 5, k)) != 0
    {
      WeekdaysWithinAWeekDiffer(md, Date(y, 5, k));
    }
  }

  /** Labor Day is a Monday in September between the 1st and the 7th, and no earlier day of September is a Monday. */
  lemma LaborDayIsFirstMonday(y: int)
    requires 1 <= y
    ensures Weekday(LaborDay(y)) == 0
    ensures 1 <= LaborDay(y).day <= 7
    ensures forall k :: 1 <= k < LaborDay(y).day ==> Weekday(Date(y, 9, k)) != 0
  {
    var ld, first := LaborDay(y), Date(y, 9, 1);
    var w := Weekday(first);
    var shift := if w == 0 then 0 else 7 - w;
    assert (7 - w) % 7 == shift;
    assert ld == Date(y, 9, 1 + shift);
    WeekdayAdvance(first, ld, shift);
    assert (w + shift) % 7 == 0;
    forall k | 1 <= k < ld.day
      ensures Weekday(Date(y, 9, k)) != 0
    {
      WeekdaysWithinAWeekDiffer(Date(y, 9, k), ld);
    }
  }

  /** A Monday in the last seven days of May is Memorial Day. */
  lemma MemorialDayUnique(d: Date)
    requires ValidDate(d) && d.month == 5 && 25 <= d.day && Weekday(d) == 0
    ensures d == MemorialDay(d.year)
  {
    var md := MemorialDay(d.year);
    MemorialDayIsLastMonday(d.year);
    if d.day < md.day {
      WeekdaysWithinAWeekDiffer(d, md);
    } else if md.day < d.day {
      WeekdaysWithinAWeekDiffer(md, d);
    }
  }

  /** A Monday in the first seven days of September is Labor Day. */
  lemma LaborDayUnique(d: Date)
    requires ValidDate(d) && d.month == 9 && d.day <= 7 && Weekday(d) == 0
    ensures d == LaborDay(d.year)
  {
    var ld := LaborDay(d.year);
    LaborDayIsFirstMonday(d.year);
    if d.day < ld.day {
      WeekdaysWithinAWeekDiffer(d, ld);
    } else if ld.day < d.day {
      WeekdaysWithinAWeekDiffer(ld, d);
    }
  }

  /** The holidays of the years first .. last, merged year by year with `dict.update`. */
  function MergedHolidays(first: int, last: int): map<Date, int>
    requires 1 <= first
    decreases last - first
  {
    if last < first then map[] else MergedHolidays(first, last - 1) + FederalHolidays(last)
  }

  /** The loop of `generate_park_data` that merges the holidays of every year of the range. */
  method MergeHolidays(first: int, last: int) returns (holidays: map<Date, int>)
    requires 1 <= first
    ensures holidays == MergedHolidays(first, last)
  {
    holidays := map[];
    var year := first;
    while year <= last
      invariant first <= year && (year <= last + 1 || year == first)
      invariant holidays == MergedHolidays(first, year - 1)
    {
      MergedHolidaysStep(first, year);
      var yearHolidays := GetFederalHolidays(year);
      holidays := holidays + yearHolidays;
      year := year + 1;
    }
  }

  lemma MergedHolidaysStep(first: int, last: int)
    requires 1 <= first <= last
    ensures MergedHolidays(first, last) == MergedHolidays(first, last - 1) + FederalHolidays(last)
  {
  }

  /** A date is in the merged dictionary exactly when its year is in range and it is a holiday of that year. */
  lemma {:induction false} MergedHolidaysMembership(first: int, last: int, d: Date)
    requires 1 <= first
    ensures d in MergedHolidays(first, last) <==> first <= d.year <= last && d in FederalHolidays(d.year)
    decreases last - first
  {
    if first <= last {
      MergedHolidaysMembership(first, last - 1, d);
      FederalHolidaysInTheirYear(last, d);
    }
  }

  /** Every date of a year's holiday dictionary lies in that year. */
  lemma FederalHolidaysInTheirYear(y: int, d: Date)
    requires 1 <= y
    ensures d in FederalHolidays(y) ==> d.year == y
  {
    FixedHolidaysUnfolded(y);
  }

  // ---------------------------------------------------------------------------
  // Seasonal factor and school session
  // ---------------------------------------------------------------------------

  /** `get_seasonal_factor`, in hundredths; a month outside 1..12 gets the default 1.0. */
  function SeasonalFactor(month: int): (f: int)
    ensures 60 <= f <= 160
    ensures f == 160 <==> month == 7
    ensures f == 60 <==> month == 1
  {
    if month == 1 then 60 else if month == 2 then 65 else if month == 3 then 80
    else if month == 4 then 110 else if month == 5 then 130 else if month == 6 then 150
    else if month == 7 then 160 else if month == 8 then 150 else if month == 9 then 120
    else if month == 10 then 110 else if month == 11 then 80 else if month == 12 then 70
    else 100
  }

  /** `is_school_in_session`: summer, winter and spring breaks are off. */
  predicate IsSchoolInSession(d: Date) {
    if d.month in {6, 7, 8} then false
    else if (d.month == 12 && d.day > 20) || (d.month == 1 && d.day < 8) then false
    else if d.month == 3 && 10 <= d.day <= 20 then false
    else true
  }

  /** School is out exactly in June to August, December 21 to 31, January 1 to 7 and March 10 to 20. */
  lemma SchoolBreaks(d: Date)
    requires ValidDate(d)
    ensures !IsSchoolInSession(d) <==>
      6 <= d.month <= 8
      || (d.month == 12 && 21 <= d.day <= 31)
      || (d.month == 1 && 1 <= d.day <= 7)
      || (d.month == 3 && 10 <= d.day <= 20)
  {
  }

  // ---------------------------------------------------------------------------
  // Regions
  // ---------------------------------------------------------------------------

  /** The region table of `get_region_for_state`, in the order the dictionary is searched. */
  const RegionTable: seq<(string, seq<string>)> := [
    ("West", ["CA", "OR", "WA", "AK", "HI", "NV", "UT", "CO", "WY", "MT", "ID"]),
    ("Southwest", ["AZ", "NM", "TX"]),
    ("Midwest", ["IL", "IN", "IA", "KS", "MI", "MN", "MO", "NE", "ND", "OH", "SD", "WI"]),
    ("Southeast", ["AL", "AR", "FL", "GA", "KY", "LA", "MS", "NC", "SC", "TN", "VA", "WV"]),
    ("Northeast", ["CT", "DE", "ME", "MD", "MA", "NH", "NJ", "NY", "PA", "RI", "VT"])
  ]

  const OtherRegion := "Other"

  /** The first region of the table (from entry i on) whose list holds the state, or 'Other'. */
  function FirstRegionFrom(i: nat, state: string): (r: string)
    requires i <= |RegionTable|
    ensures r == OtherRegion <==> forall j :: i <= j < |RegionTable| ==> state !in RegionTable[j].1
    ensures r != OtherRegion ==> exists j :: i <= j < |RegionTable| && state in RegionTable[j].1 && r == RegionTable[j].0
    decreases |RegionTable| - i
  {
    if i == |RegionTable| then OtherRegion
    else if state in RegionTable[i].1 then RegionTable[i].0
    else FirstRegionFrom(i + 1, state)
  }

  /** `get_region_for_state`. */
  function RegionForState(state: string): string {
    FirstRegionFrom(0, state)
  }

  /** No state is listed under two regions. */
  lemma RegionListsDisjoint()
    ensures forall i, j, s :: 0 <= i < j < |RegionTable| && s in RegionTable[i].1 ==> s !in RegionTable[j].1
  {
    WestStatesListedOnce();
    SouthwestStatesListedOnce();
    MidwestStatesListedOnce();
    SoutheastStatesListedOnce();
    forall i, j, s | 0 <= i < j < |RegionTable| && s in RegionTable[i].1
      ensures s !in RegionTable[j].1
    {
      var a :| 0 <= a < |RegionTable[i].1| && RegionTable[i].1[a] == s;
    }
  }

  lemma WestStatesListedOnce()
    ensures forall a :: 0 <= a < |RegionTable[0].1| ==>
      RegionTable[0].1[a] !in RegionTable[1].1 && RegionTable[0].1[a] !in RegionTable[2].1
      && RegionTable[0].1[a] !in RegionTable[3].1 && RegionTable[0].1[a] !in RegionTable[4].1
  {
  }

  lemma SouthwestStatesListedOnce()
    ensures forall a :: 0 <= a < |RegionTable[1].1| ==>
      RegionTable[1].1[a] !in RegionTable[2].1 && RegionTable[1].1[a] !in RegionTable[3].1 && RegionTable[1].1[a] !in RegionTable[4].1
  {
  }

  lemma MidwestStatesListedOnce()
    ensures forall a :: 0 <= a < |RegionTable[2].1| ==> RegionTable[2].1[a] !in RegionTable[3].1 && RegionTable[2].1[a] !in RegionTable[4].1
  {
  }

  lemma SoutheastStatesListedOnce()
    ensures forall a :: 0 <= a < |RegionTable[3].1| ==> RegionTable[3].1[a] !in RegionTable[4].1
  {
  }

  /** A state gets the region that lists it, and 'Other' when no region does. */
  lemma RegionForStateSpec(state: string)
    ensures forall j :: 0 <= j < |RegionTable| && state in RegionTable[j].1 ==> RegionForState(state) == RegionTable[j].0
    ensures RegionForState(state) == OtherRegion <==> forall j :: 0 <= j < |RegionTable| ==> state !in RegionTable[j].1
  {
    RegionListsDisjoint();
  }

  // ---------------------------------------------------------------------------
  // Visitor levels
  // ---------------------------------------------------------------------------

  datatype VisitorLevel = Low | Medium | High | Peak {
    function Rank(): nat {
      match this
      case Low => 0
      case Medium => 1
      case High => 2
      case Peak => 3
    }
  }

  /** `categorize_visitor_level`: the ratio visitors / base against 0.5, 1.0 and 1.5 (exact division). */
  function CategorizeVisitorLevel(visitors: int, base: int): (level: VisitorLevel)
    ensures base == 0 ==> level == Low
  {
    if base == 0 then Low
    else
      var ratio := visitors as real / base as real;
      if ratio < 0.5 then Low
      else if ratio < 1.0 then Medium
      else if ratio < 1.5 then High
      else Peak
  }

  lemma RatioBelow(v: int, b: int, c: real)
    requires b > 0
    ensures v as real / b as real < c <==> v as real < c * b as real
  {
    var q := v as real / b as real;
    assert q * b as real == v as real;
  }

  /** With a positive base, the level is decided by integer thresholds on 2 * visitors. */
  lemma CategorizeThresholds(visitors: int, base: int)
    requires base > 0
    ensures CategorizeVisitorLevel(visitors, base) == Low <==> 2 * visitors < base
    ensures CategorizeVisitorLevel(visitors, base) == Medium <==> base <= 2 * visitors < 2 * base
    ensures CategorizeVisitorLevel(visitors, base) == High <==> 2 * base <= 2 * visitors < 3 * base
    ensures CategorizeVisitorLevel(visitors, base) == Peak <==> 3 * base <= 2 * visitors
  {
    RatioBelow(visitors, base, 0.5);
    RatioBelow(visitors, base, 1.0);
    RatioBelow(visitors, base, 1.5);
  }

  /** More visitors never give a lower level, for a positive base. */
  lemma CategorizeMonotone(v1: int, v2: int, base: int)
    requires base > 0 && v1 <= v2
    ensures CategorizeVisitorLevel(v1, base).Rank() <= CategorizeVisitorLevel(v2, base).Rank()
  {
    CategorizeThresholds(v1, base);
    CategorizeThresholds(v2, base);
  }

  // ---------------------------------------------------------------------------
  // The park list
  // ---------------------------------------------------------------------------

  datatype ParkSpec = ParkSpec(code: string, parkType: string, state: string, baseVisitors: int)

  /** `get_expanded_park_list`. */
  const ExpandedParkList: seq<ParkSpec> := [
    ParkSpec("YELL", "National Park", "WY", 3000),
    ParkSpec("GRCA", "National Park", "AZ", 5000),
    ParkSpec("YOSE", "National Park", "CA", 4000),
    ParkSpec("ZION", "National Park", "UT", 3500),
    ParkSpec("ACAD", "National Park", "ME", 2500),
    ParkSpec("ARCH", "National Park", "UT", 2800),
    ParkSpec("ROMO", "National Park", "CO", 2200),
    ParkSpec("GRSM", "National Park", "TN", 4500),
    ParkSpec("OLYM", "National Park", "WA", 2000),
    ParkSpec("GLAC", "National Park", "MT", 1800),
    ParkSpec("STLI", "National Monument", "NY", 1200),
    ParkSpec("DEVA", "National Monument", "CA", 800),
    ParkSpec("JOTR", "National Monument", "CA", 1500),
    ParkSpec("BAND", "National Monument", "NM", 600),
    ParkSpec("CACO", "National Monument", "AZ", 700),
    ParkSpec("GLEN", "National Recreation Area", "UT", 2000),
    ParkSpec("LAME", "National Recreation Area", "NV", 1800),
    ParkSpec("CURE", "National Recreation Area", "CO", 1200),
    ParkSpec("CAHA", "National Seashore", "NC", 1500),
    ParkSpec("ASIS", "National Seashore", "MD", 1200),
    ParkSpec("INDE", "National Historical Park", "PA", 800),
    ParkSpec("COLO", "National Historical Park", "VA", 600),
    ParkSpec("BOST", "National Historical Park", "MA", 500),
    ParkSpec("GETT", "National Battlefield", "PA", 400),
    ParkSpec("ANTI", "National Battlefield", "MD", 300),
    ParkSpec("BRCA", "National Park", "UT", 2500),
    ParkSpec("CANY", "National Park", "UT", 2000),
    ParkSpec("CARE", "National Park", "UT", 1800),
    ParkSpec("REDW", "National Park", "CA", 1500),
    ParkSpec("SHEN", "National Park", "VA", 2200)
  ]

  /** Thirty parks, with pairwise distinct codes and positive base visitor counts. */
  lemma ExpandedParkListShape()
    ensures |ExpandedParkList| == 30
    ensures forall i, j :: 0 <= i < j < |ExpandedParkList| ==> ExpandedParkList[i].code != ExpandedParkList[j].code
    ensures forall p :: p in ExpandedParkList ==> p.baseVisitors > 0
  {
    ParkCodesDistinctBefore15();
    ParkCodesDistinctFrom15();
    ParkCodesDistinctAcross15();
    ParkBasesPositive();
  }

  lemma ParkCodesDistinctBefore15()
    ensures forall i, j :: 0 <= i < j < 15 ==> ExpandedParkList[i].code != ExpandedParkList[j].code
  {
  }

  lemma ParkCodesDistinctFrom15()
    ensures forall i, j :: 15 <= i < j < 30 ==> ExpandedParkList[i].code != ExpandedParkList[j].code
  {
  }

  lemma ParkCodesDistinctAcross15()
    ensures forall i, j :: 0 <= i < 15 <= j < 30 ==> ExpandedParkList[i].code != ExpandedParkList[j].code
  {
  }

  lemma ParkBasesPositive()
    ensures forall i :: 0 <= i < |ExpandedParkList| ==> ExpandedParkList[i].baseVisitors > 0
  {
  }

  /** Every listed park lies in a state of one of the five regions. */
  lemma ExpandedParkListRegions()
    ensures forall p :: p in ExpandedParkList ==> RegionForState(p.state) != OtherRegion
  {
    ParkStatesListed();
    forall p | p in ExpandedParkList
      ensures RegionForState(p.state) != OtherRegion
    {
      ListedStateHasRegion(p.state);
    }
  }

  /** The states of all five region lists, one after another. */
  function ListedStates(): seq<string> {
    RegionTable[0].1 + RegionTable[1].1 + RegionTable[2].1 + RegionTable[3].1 + RegionTable[4].1
  }

  lemma ParkStatesListed()
    ensures forall i :: 0 <= i < |ExpandedParkList| ==> ExpandedParkList[i].state in ListedStates()
  {
  }

  /** A state in one of the region lists gets a region other than 'Other'. */
  lemma ListedStateHasRegion(state: string)
    requires state in ListedStates()
    ensures RegionForState(state) != OtherRegion
  {
    var j := if state in RegionTable[0].1 then 0
      else if state in RegionTable[1].1 then 1
      else if state in RegionTable[2].1 then 2
      else if state in RegionTable[3].1 then 3
      else 4;
    assert state in RegionTable[j].1;
  }

  // ---------------------------------------------------------------------------
  // The day-by-day record loop
  // ---------------------------------------------------------------------------

  /** One row of `generate_park_data` (weather, temperature, precipitation and gas price are not modelled). */
  datatype DayRecord = DayRecord(
    parkId: string,
    date: Date,
    visitorCount: int,
    parkType: string,
    state: string,
    region: string,
    dayOfWeek: int,
    month: int,
    isWeekend: bool,
    isHoliday: bool,
    schoolInSession: bool,
    seasonalFactor: int,
    visitorCategory: VisitorLevel)

  /** Python's `int()` on a float: truncation toward zero. */
  function TruncateTowardZero(r: real): (t: int)
    ensures 0.0 <= r ==> 0 <= t && t as real <= r < t as real + 1.0
    ensures r < 0.0 ==> t <= 0 && t as real - 1.0 < r <= t as real
  {
    if 0.0 <= r then r.Floor else -((-r).Floor)
  }

  /** The holiday multiplier of a day, 1.0 on an ordinary day (`holidays.get(date, 1.0)`). */
  function HolidayFactor(holidays: map<Date, int>, date: Date): real {
    if date in holidays then holidays[date] as real / 10.0 else 1.0
  }

  /**
   * The visitor product of one day before truncation. `otherFactors` stands
   * for the product of the weather, gas-price and random factors.
   */
  function VisitorProduct(park: ParkSpec, holidays: map<Date, int>, date: Date, otherFactors: real): real
    requires ValidDate(date)
  {
    park.baseVisitors as real
    * (SeasonalFactor(date.month) as real / 100.0)
    * (if Weekday(date) >= 5 then 1.3 else 1.0)
    * HolidayFactor(holidays, date)
    * (if IsSchoolInSession(date) then 0.7 else 1.2)
    * otherFactors
  }

  /** The record of one day: the truncated product clamped at zero, and the calendar features. */
  function RecordFor(park: ParkSpec, region: string, holidays: map<Date, int>, date: Date, otherFactors: real): DayRecord
    requires ValidDate(date)
  {
    var raw := TruncateTowardZero(VisitorProduct(park, holidays, date, otherFactors));
    var visitors := if raw < 0 then 0 else raw;
    DayRecord(
      park.code, date, visitors, park.parkType, park.state, region,
      Weekday(date), date.month, Weekday(date) >= 5, date in holidays,
      IsSchoolInSession(date), SeasonalFactor(date.month),
      CategorizeVisitorLevel(visitors, park.baseVisitors))
  }

  /** The number of days from start to end inclusive (none when end is before start). */
  function DaySpan(start: Date, end: Date): nat
    requires ValidDate(start) && ValidDate(end)
  {
    if Ordinal(start) <= Ordinal(end) then Ordinal(end) - Ordinal(start) + 1 else 0
  }

  /** The records of the first days from `start` on, each the record of its day. */
  ghost predicate RecordsFrom(park: ParkSpec, region: string, holidays: map<Date, int>, start: Date,
                              otherFactors: Date -> real, records: seq<DayRecord>)
    requires ValidDate(start)
  {
    forall i :: 0 <= i < |records| ==>
      && ValidDate(records[i].date) && Ordinal(records[i].date) == Ordinal(start) + i
      && records[i] == RecordFor(park, region, holidays, records[i].date, otherFactors(records[i].date))
  }

  /** One more day's record keeps `RecordsFrom`. */
  lemma RecordsFromAppend(park: ParkSpec, region: string, holidays: map<Date, int>, start: Date,
                          otherFactors: Date -> real, records: seq<DayRecord>, d: Date)
    requires ValidDate(start) && RecordsFrom(park, region, holidays, start, otherFactors, records)
    requires ValidDate(d) && Ordinal(d) == Ordinal(start) + |records|
    ensures RecordsFrom(park, region, holidays, start, otherFactors,
                        records + [RecordFor(park, region, holidays, d, otherFactors(d))])
  {
  }

  /** The text of the OverflowError `date + timedelta` raises past the last day of year 9999. */
  const DateOutOfRangeMessage := "date value out of range"

  /**
   * `generate_park_data`: one record per day from start to end inclusive.
   * `otherFactors` gives each day's weather, gas-price and random factors.
   * The loop steps to the next day after each record, so a range that ends
   * on the last day `datetime.date` can hold fails as that step overflows,
   * and the records built so far are lost with the exception.
   */
  method GenerateParkData(park: ParkSpec, start: PyDate, end: PyDate, otherFactors: Date -> real)
    returns (r: Result<seq<DayRecord>, string>)
    ensures r.Err? <==> NotAfter(start, end) && end == MaxDate
    ensures r.Err? ==> r.error == DateOutOfRangeMessage
    ensures r.Ok? ==> |r.value| == DaySpan(start, end)
    ensures r.Ok? ==> forall i :: 0 <= i < |r.value| ==> ValidDate(r.value[i].date) && Ordinal(r.value[i].date) == Ordinal(start) + i
    ensures r.Ok? ==> forall i :: 0 <= i < |r.value| ==>
      r.value[i] == RecordFor(park, RegionForState(park.state), MergedHolidays(start.year, end.year),
                              r.value[i].date, otherFactors(r.value[i].date))
  {
    var region := RegionForState(park.state);
    var holidays := MergeHolidays(start.year, end.year);
    var records: seq<DayRecord> := [];
    var current: PyDate := start;
    while NotAfter(current, end)
      invariant Ordinal(current) == Ordinal(start) + |records|
      invariant |records| > 0 ==> Ordinal(current) <= Ordinal(end) + 1
      invariant RecordsFrom(park, region, holidays, start, otherFactors, records)
      decreases Ordinal(end) - Ordinal(current)
    {
      NotAfterIffOrdinal(current, end);
      if current == MaxDate {
        NotAfterIffOrdinal(start, end);
        MaxDateIsLatest(end);
        return Err(DateOutOfRangeMessage);
      }
      RecordsFromAppend(park, region, holidays, start, otherFactors, records, current);
      records := records + [RecordFor(park, region, holidays, current, otherFactors(current))];
      NextDayBeforeMax(current);
      current := NextDay(current);
    }
    MaxDateIsLatest(current);
    NotAfterIffOrdinal(current, end);
    NotAfterIffOrdinal(start, end);
    r := Ok(records);
  }

  /** Every day of the range has its record, at the position of its distance from the start. */
  lemma GeneratedRecordsCoverRange(start: Date, end: Date, records: seq<DayRecord>, d: Date)
    requires ValidDate(start) && ValidDate(end) && ValidDate(d)
    requires |records| == DaySpan(start, end)
    requires forall i :: 0 <= i < |records| ==> ValidDate(records[i].date) && Ordinal(records[i].date) == Ordinal(start) + i
    requires NotAfter(start, d) && NotAfter(d, end)
    ensures 0 <= Ordinal(d) - Ordinal(start) < |records|
    ensures records[Ordinal(d) - Ordinal(start)].date == d
  {
    NotAfterIffOrdinal(start, d);
    NotAfterIffOrdinal(d, end);
    var i := Ordinal(d) - Ordinal(start);
    OrdinalInjective(records[i].date, d);
  }

  /**
   * The fields of a generated record: the weekend flag is weekday >= 5, the
   * holiday flag says the day is a federal holiday of its own year, and the
   * visitor count is never negative.
   */
  lemma GeneratedRecordFields(park: ParkSpec, start: Date, end: Date, d: Date, otherFactors: real)
    requires ValidDate(start) && ValidDate(end) && ValidDate(d)
    requires NotAfter(start, d) && NotAfter(d, end)
    ensures var r := RecordFor(park, RegionForState(park.state), MergedHolidays(start.year, end.year), d, otherFactors);
      && (r.isWeekend <==> Weekday(d) >= 5)
      && (r.isHoliday <==> d in FederalHolidays(d.year))
      && r.visitorCount >= 0
      && (r.visitorCount as real <= VisitorProduct(park, MergedHolidays(start.year, end.year), d, otherFactors) < r.visitorCount as real + 1.0
          || r.visitorCount == 0)
      && r.dayOfWeek == Weekday(d)
  {
    MergedHolidaysMembership(start.year, end.year, d);
  }
}
