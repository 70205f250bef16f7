/**
 * The demonstration model `Project`: `EndDate` (shown as "Estimated end
 * date") must be later than `StartDate` (shown as "Start date"). `Name` and
 * `ProjectManager` are strings.
 */
module ProjectFixture {
  import opened DateGreaterThan

  /** A `Project` instance as reflection sees it. */
  function ProjectObject(startDate: Ticks, endDate: Ticks): map<string, Property> {
    map["Name" := OtherProperty, "ProjectManager" := OtherProperty,
        "StartDate" := DateTimeProperty(startDate), "EndDate" := DateTimeProperty(endDate)]
  }

  const EndDateDisplayName: string := "Estimated end date"

  /** One day in ticks. */
  const TicksPerDay: int := 864000000000

  /**
   * `EndDate` passes only when it is later than `StartDate`; otherwise the
   * message names the sibling by its property name, not its display name.
   */
  lemma EndDateRule(startDate: Ticks, endDate: Ticks)
    ensures Validate("StartDate", ProjectObject(startDate, endDate), DateVal(endDate), EndDateDisplayName)
         == if endDate > startDate then Success
            else Failure(EndDateDisplayName + " must be greater than " + "StartDate")
  {
    if endDate <= startDate {
      ValidateNotLaterFails("StartDate", ProjectObject(startDate, endDate), DateVal(endDate), EndDateDisplayName);
    }
  }

  /** The day after the start passes; the same day and the day before fail. */
  lemma EndDateDayScenarios(startDate: Ticks)
    requires TicksPerDay <= startDate <= MaxTicks - TicksPerDay
    ensures Validate("StartDate", ProjectObject(startDate, startDate + TicksPerDay),
                     DateVal(startDate + TicksPerDay), EndDateDisplayName) == Success
    ensures Validate("StartDate", ProjectObject(startDate, startDate),
                     DateVal(startDate), EndDateDisplayName)
         == Failure(EndDateDisplayName + " must be greater than " + "StartDate")
    ensures Validate("StartDate", ProjectObject(startDate, startDate - TicksPerDay),
                     DateVal(startDate - TicksPerDay), EndDateDisplayName).Failure?
  {
    EndDateRule(startDate, startDate + TicksPerDay);
    EndDateRule(startDate, startDate);
    EndDateRule(startDate, startDate - TicksPerDay);
  }

  /** 10 January 2020, 00:00, in ticks. */
  const January10th2020: Ticks := 637142112000000000

  /** Start on 10 January 2020: ending on the 11th passes, on the 10th or the 9th fails. */
  lemma January2020Scenarios()
    ensures Validate("StartDate", ProjectObject(January10th2020, January10th2020 + TicksPerDay),
                     DateVal(January10th2020 + TicksPerDay), EndDateDisplayName) == Success
    ensures Validate("StartDate", ProjectObject(January10th2020, January10th2020),
                     DateVal(January10th2020), EndDateDisplayName)
         == Failure(EndDateDisplayName + " must be greater than " + "StartDate")
    ensures Validate("StartDate", ProjectObject(January10th2020, January10th2020 - TicksPerDay),
                     DateVal(January10th2020 - TicksPerDay), EndDateDisplayName).Failure?
  {
    EndDateDayScenarios(January10th2020);
  }

  /** A misspelt sibling name is not found: validation throws instead of passing. */
  lemma MisspeltSiblingThrows(startDate: Ticks, endDate: Ticks)
    ensures Validate("StartDateTypo", ProjectObject(startDate, endDate), DateVal(endDate), EndDateDisplayName)
         == Thrown(NullReference)
  {
    assert "StartDateTypo" !in ProjectObject(startDate, endDate);
  }

  /** Naming a string property as the sibling yields the fixed type error. */
  lemma StringSiblingRejected(startDate: Ticks, endDate: Ticks, value: Value)
    ensures Validate("Name", ProjectObject(startDate, endDate), value, EndDateDisplayName)
         == Failure(NotDateTimeMessage)
  {
  }
}
