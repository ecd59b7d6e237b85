/**
 * The duration converter: a calendar-relative period (weeks, days, hours,
 * minutes) is turned into absolute working minutes with the help of the
 * project's work calendar, and a minute count is turned back into a period
 * when a value is written.
 */
module Durations {
  import opened Wrappers

  /** A period as the host exposes it: getWeeks, getDays, getHours, getMinutes. */
  datatype Period = Period(weeks: int, days: int, hours: int, minutes: int)

  /**
   * A project's work calendar, reduced to the two answers the rule asks of it:
   * the working minutes in a span of one day and in a span of one week.
   */
  datatype Project = Project(dayMinutes: int, weekMinutes: int)

  /** The rule divides by the working hours of a day, so a day must have some. */
  predicate HasWorkingDay(project: Project) {
    project.dayMinutes > 0
  }

  /** Working minutes in a span of one week (the answer to the one-week query). */
  function WorkMinutesPerWeek(project: Project): int {
    project.weekMinutes
  }

  /** Working hours per day, derived from the one-day query. */
  function WorkHoursPerDay(project: Project): real {
    project.dayMinutes as real / 60.0
  }

  /** Working days per week: the week's working minutes over a day's. */
  function WorkDaysPerWeek(project: Project): (r: real)
    requires HasWorkingDay(project)
    ensures r * WorkHoursPerDay(project) * 60.0 == WorkMinutesPerWeek(project) as real
  {
    WorkMinutesPerWeek(project) as real / (60.0 * WorkHoursPerDay(project))
  }

  /** The nested conversion formula, exactly as the rule evaluates it. */
  function NestedMinutes(p: Period, project: Project): real
    requires HasWorkingDay(project)
  {
    ((((p.weeks as real * WorkDaysPerWeek(project)) + p.days as real)
      * WorkHoursPerDay(project)) + p.hours as real) * 60.0 + p.minutes as real
  }

  /**
   * The minutes of a period, or None for no period: weeks * (minutes per
   * week) + days * (minutes per day) + hours * 60 + minutes, a whole number.
   * PeriodToMinutesIsNested shows it is the nested formula's value.
   */
  function PeriodToMinutes(period: Option<Period>, project: Project): (r: Option<int>)
    requires HasWorkingDay(project)
    ensures r.None? <==> period.None?
  {
    match period
    case None => None
    case Some(p) => Some(p.weeks * project.weekMinutes + p.days * project.dayMinutes + p.hours * 60 + p.minutes)
  }

  /** For a present period the result is the value of the rule's nested formula. */
  lemma PeriodToMinutesIsNested(period: Period, project: Project)
    requires HasWorkingDay(project)
    ensures PeriodToMinutes(Some(period), project).value as real == NestedMinutes(period, project)
  {
    NestedMinutesIsLinear(period, project);
  }

  lemma NestedMinutesIsLinear(p: Period, project: Project)
    requires HasWorkingDay(project)
    ensures NestedMinutes(p, project)
         == (p.weeks * project.weekMinutes + p.days * project.dayMinutes + p.hours * 60 + p.minutes) as real
  {
    var hoursPerDay := WorkHoursPerDay(project);
    var daysPerWeek := WorkDaysPerWeek(project);
    var d := project.dayMinutes as real;
    var w := project.weekMinutes as real;
    assert hoursPerDay * 60.0 == d;
    assert daysPerWeek * d == w;
    calc {
      (p.weeks as real * daysPerWeek + p.days as real) * hoursPerDay * 60.0;
      (p.weeks as real * daysPerWeek + p.days as real) * d;
      p.weeks as real * (daysPerWeek * d) + p.days as real * d;
      p.weeks as real * w + p.days as real * d;
    }
  }

  /** Integer division truncating toward zero: the rounding this model chooses for its stand-in of the host's toPeriod. */
  function TruncDiv(x: int, d: int): (q: int)
    requires d > 0
    ensures x >= 0 ==> 0 <= x - q * d < d
    ensures x < 0 ==> -d < x - q * d <= 0
  {
    if x >= 0 then x / d else -((-x) / d)
  }

  /**
   * The period the host builds from a duration in milliseconds (toPeriod):
   * only the precise fields, hours and minutes, are filled; whatever is
   * below a minute is not exposed by the period interface.
   */
  function ToPeriod(millis: int): (p: Period)
    ensures p.weeks == 0 && p.days == 0
    ensures -60 < p.minutes < 60
    ensures p.hours * 60 + p.minutes == TruncDiv(millis, 60000)
  {
    var totalMinutes := TruncDiv(millis, 60000);
    var hours := TruncDiv(totalMinutes, 60);
    Period(0, 0, hours, totalMinutes - hours * 60)
  }

  /** Milliseconds that are a whole number of minutes truncate back to exactly those minutes. */
  lemma WholeMinutes(minutes: int)
    ensures TruncDiv(minutes * 60 * 1000, 60000) == minutes
  {
    var millis := minutes * 60 * 1000;
    assert millis == minutes * 60000;
    if minutes >= 0 {
      assert millis / 60000 == minutes;
    } else {
      assert (-millis) == (-minutes) * 60000;
      assert (-millis) / 60000 == -minutes;
    }
  }

  /** A whole number of minutes written as milliseconds reads back as the same minutes, whatever the calendar. */
  lemma ToPeriodRoundTrip(minutes: int, project: Project)
    requires HasWorkingDay(project)
    ensures PeriodToMinutes(Some(ToPeriod(minutes * 60 * 1000)), project) == Some(minutes)
  {
    WholeMinutes(minutes);
  }

  /** The calendar the repository's tests use: 8 working hours a day, 5 working days a week. */
  const TestCalendar := Project(8 * 60, 5 * 8 * 60)

  /** Under the tests' calendar the conversion is the tests' own toMinutes formula. */
  lemma TestCalendarMinutes(p: Period)
    ensures PeriodToMinutes(Some(p), TestCalendar)
         == Some(((p.weeks * 5 + p.days) * 8 + p.hours) * 60 + p.minutes)
  {
  }
}
