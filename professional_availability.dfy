/**
 * A working-hours rule of a professional: either recurring on a weekday or
 * set for one date. Dates are epoch days; start and end are minutes of the day.
 */
module Availability {
  import opened JavaLang
  import opened Time

  datatype AvailabilityRule = AvailabilityRule(
    professionalId: Option<int>,
    dayOfWeek: Option<DayOfWeek>,
    specificDate: Option<int>,
    startTime: Option<int>,
    endTime: Option<int>,
    isAvailable: Option<bool>,
    isRecurring: Option<bool>,
    notes: Option<string>)
  {
    /**
     * Whether the rule governs `date`. A one-off rule matches its own date, a
     * recurring rule its weekday; a rule missing the field its kind needs
     * matches nothing. A null recurring flag throws when it is unboxed.
     */
    function AppliesTo(date: int): Outcome<bool> {
      if isRecurring.None? then ThrowsNullPointer
      else if !isRecurring.value && specificDate.Some? then Returns(specificDate.value == date)
      else if isRecurring.value && dayOfWeek.Some? then Returns(DayOfWeekOf(date) == dayOfWeek.value)
      else Returns(false)
    }
  }

  /** A new rule is an open, recurring rule with nothing else set. */
  function NewRule(professionalId: Option<int>): (r: AvailabilityRule)
    ensures r.isAvailable == Some(true) && r.isRecurring == Some(true)
    ensures r.professionalId == professionalId
    ensures r.dayOfWeek == None && r.specificDate == None && r.startTime == None && r.endTime == None && r.notes == None
  {
    AvailabilityRule(professionalId, None, None, None, None, Some(true), Some(true), None)
  }

  /** A one-off rule with a date applies to that date and to no other. */
  lemma OneOffAppliesOnlyToItsDate(r: AvailabilityRule, date: int)
    requires r.isRecurring == Some(false) && r.specificDate.Some?
    ensures r.AppliesTo(date) == Returns(true) <==> date == r.specificDate.value
    ensures r.AppliesTo(date).Returns?
  {
  }

  /** A recurring rule with a weekday applies to a date exactly when it applies a week later. */
  lemma RecurringIsWeekly(r: AvailabilityRule, date: int)
    requires r.isRecurring == Some(true) && r.dayOfWeek.Some?
    ensures r.AppliesTo(date + 7) == r.AppliesTo(date)
  {
    DayOfWeekPeriodic(date);
  }

  /** A recurring rule with a weekday applies to exactly one of any seven consecutive dates. */
  lemma RecurringOncePerWeek(r: AvailabilityRule, start: int)
    requires r.isRecurring == Some(true) && r.dayOfWeek.Some?
    ensures exists d :: start <= d < start + 7 && r.AppliesTo(d) == Returns(true)
    ensures forall d1, d2 ::
              (start <= d1 < start + 7 && start <= d2 < start + 7 &&
               r.AppliesTo(d1) == Returns(true) && r.AppliesTo(d2) == Returns(true)) ==> d1 == d2
  {
    WeekdayOncePerWeek(start, r.dayOfWeek.value);
    var d :| start <= d < start + 7 && DayOfWeekOf(d) == r.dayOfWeek.value;
    assert r.AppliesTo(d) == Returns(true);
  }

  /** A rule missing the field its kind needs applies to no date; a rule with
      a null recurring flag throws. */
  lemma IncompleteRulesNeverApply(r: AvailabilityRule, date: int)
    ensures r.isRecurring == Some(true) && r.dayOfWeek.None? ==> r.AppliesTo(date) == Returns(false)
    ensures r.isRecurring == Some(false) && r.specificDate.None? ==> r.AppliesTo(date) == Returns(false)
    ensures r.isRecurring.None? ==> r.AppliesTo(date) == ThrowsNullPointer
  {
  }

  /** A recurring rule ignores its date and a one-off rule ignores its weekday. */
  lemma EachKindIgnoresTheOtherField(r: AvailabilityRule, date: int, otherDate: Option<int>, otherDay: Option<DayOfWeek>)
    ensures r.isRecurring == Some(true) ==> r.(specificDate := otherDate).AppliesTo(date) == r.AppliesTo(date)
    ensures r.isRecurring == Some(false) ==> r.(dayOfWeek := otherDay).AppliesTo(date) == r.AppliesTo(date)
  {
  }

  /** Whether a rule applies depends neither on its opening flag nor on its
      hours: a closed rule applies to the same dates as an open one. */
  lemma AppliesIgnoresOpeningAndHours(r: AvailabilityRule, date: int, available: Option<bool>, start: Option<int>, end: Option<int>)
    ensures r.(isAvailable := available, startTime := start, endTime := end).AppliesTo(date) == r.AppliesTo(date)
  {
  }
}
