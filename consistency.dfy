/**
 * How the pieces agree with each other: the holidays and calendar features
 * the dataset generator writes against the ones the trainer derives for
 * future dates, and the generator's park list against the service's
 * coordinate and name tables.
 */
module Consistency {
  import opened Wrappers
  import opened Calendar
  import opened ParkDatabase
  import opened ParkDataset
  import opened ModelTrainer
  import opened Predictor

  /** Thanksgiving as the trainer writes it: a Thursday from November 22 to 28. */
  predicate IsThanksgiving(d: Date)
    requires ValidDate(d)
  {
    d.month == 11 && 22 <= d.day <= 28 && Weekday(d) == 3
  }

  /** Every holiday the generator writes is a holiday for the trainer's future rule. */
  lemma GeneratorHolidaysAreFutureHolidays(d: Date)
    requires ValidDate(d) && d in FederalHolidays(d.year)
    ensures FutureIsHoliday(d)
  {
    FederalHolidaysShape(d.year);
    MemorialDayIsLastMonday(d.year);
    LaborDayIsFirstMonday(d.year);
  }

  /** The trainer's future holidays are the generator's holidays of that year, plus Thanksgiving. */
  lemma FutureHolidaysAreGeneratorHolidaysOrThanksgiving(d: Date)
    requires ValidDate(d)
    ensures FutureIsHoliday(d) <==> d in FederalHolidays(d.year) || IsThanksgiving(d)
  {
    FederalHolidaysShape(d.year);
    MemorialDayIsLastMonday(d.year);
    LaborDayIsFirstMonday(d.year);
    if d.month == 5 && d.day >= 25 && Weekday(d) == 0 {
      MemorialDayUnique(d);
    }
    if d.month == 9 && d.day <= 7 && Weekday(d) == 0 {
      LaborDayUnique(d);
    }
  }

  /** Thanksgiving 2025 shows the two rules differ: the trainer marks it and the generator does not. */
  lemma ThanksgivingOnlyInTrainer()
    ensures ValidDate(Date(2025, 11, 27))
    ensures FutureIsHoliday(Date(2025, 11, 27))
    ensures Date(2025, 11, 27) !in FederalHolidays(2025)
  {
    var d := Date(2025, 11, 27);
    assert DaysBeforeYear(2025) == 739251;
    assert DaysBeforeMonth(2025, 11) == 304;
    assert Ordinal(d) == 739582;
    assert Weekday(d) == 3;
    FederalHolidaysShape(2025);
  }

  /** Whenever the generator has school in session, the trainer's future rule has it in session too. */
  lemma SchoolInSessionAgrees(d: Date)
    requires ValidDate(d)
    ensures IsSchoolInSession(d) ==> FutureRow(d).schoolInSession == 1
    ensures FutureRow(d).schoolInSession == 0 ==> !IsSchoolInSession(d)
  {
  }

  /** The converse fails in the breaks: on Christmas Day the trainer assumes school, the generator does not. */
  lemma ChristmasBreakOnlyInGenerator()
    ensures !IsSchoolInSession(Date(2025, 12, 25))
    ensures FutureRow(Date(2025, 12, 25)).schoolInSession == 1
  {
  }

  /** The row `get_park_data` reads back for a record the generator stored. */
  function HistoryOf(r: DayRecord): HistoryRow {
    HistoryRow(Some(r.date), Some(r.visitorCount), r.month, Some(r.isWeekend), Some(r.isHoliday), Some(r.schoolInSession))
  }

  /**
   * A generated day prepares into the same weekend, summer and winter
   * features the trainer derives for that date in the future, and into the
   * same holiday flag on every day but Thanksgiving.
   */
  lemma TrainingFeaturesMatchFutureFeatures(park: ParkSpec, start: Date, end: Date, d: Date, otherFactors: real)
    requires ValidDate(start) && ValidDate(end) && ValidDate(d)
    requires NotAfter(start, d) && NotAfter(d, end)
    ensures var r := RecordFor(park, RegionForState(park.state), MergedHolidays(start.year, end.year), d, otherFactors);
      var p, f := PrepareRow(HistoryOf(r)), FutureRow(d);
      && p.ds == f.ds
      && p.isWeekend == f.isWeekend
      && p.summerPeak == f.summerPeak
      && p.winterLow == f.winterLow
      && (!IsThanksgiving(d) ==> p.isHoliday == f.isHoliday && p.weekendHoliday == f.weekendHoliday)
      && p.schoolInSession <= f.schoolInSession
  {
    GeneratedRecordFields(park, start, end, d, otherFactors);
    FutureHolidaysAreGeneratorHolidaysOrThanksgiving(d);
  }

  /** Every park the generator writes has coordinates in the service's table. */
  lemma GeneratedParksHaveCoordinates()
    ensures forall i :: 0 <= i < |ExpandedParkList| ==> ExpandedParkList[i].code in ParkCoordinates
  {
  }

  /** Every park the generator writes has a name in the service's table except the Statue of Liberty. */
  lemma GeneratedParksHaveNames()
    ensures forall i :: 0 <= i < |ExpandedParkList| && ExpandedParkList[i].code != "STLI" ==> ExpandedParkList[i].code in ParkNames
  {
  }

  /** The park list therefore shows the Statue of Liberty under its code. */
  lemma StatueOfLibertyListedByCode(db: Database, files: map<string, StoredFile>)
    ensures ParkEntryFor(db, files, "STLI").name == "STLI"
  {
    StatueOfLibertyHasNoName();
    ParkEntrySpec(ParkNames, ParkCoordinates, db, files, "STLI");
  }

  /** The name table has no entry for the Statue of Liberty. */
  lemma StatueOfLibertyHasNoName()
    ensures "STLI" !in ParkNames
  {
    NotInFirstNameBlocks();
    NotInLastNameBlocks();
  }

  lemma NotInFirstNameBlocks()
    ensures "STLI" !in NameBlock1 && "STLI" !in NameBlock2 && "STLI" !in NameBlock3
  {
  }

  lemma NotInLastNameBlocks()
    ensures "STLI" !in NameBlock4 && "STLI" !in NameBlock5 && "STLI" !in NameBlock6 && "STLI" !in NameBlock7
  {
  }
}
