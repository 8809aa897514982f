/**
 * The admin calendar (components/admin/AppointmentsCalendar.tsx): the colour an
 * appointment is drawn in according to its status, the day/week/month toolbar
 * paging, and the demonstration events it shows.
 *
 * The toolbar's date is a day number with a time of day. Moving by whole days
 * is day-number arithmetic; moving by a month goes through `Date.setMonth`,
 * whose end-of-month overflow is a calendar library's business, so it is an
 * injected function `addMonths(day, months)`.
 */
module AppointmentsCalendar {
  import opened Prelude
  import ServiceSelection

  /** `'CONFIRMED' | 'IN_PROGRESS' | 'COMPLETED' | 'CANCELED'` (line 24). */
  datatype Status = Confirmed | InProgress | Completed | Canceled

  /** The `style` object `eventStyleGetter` returns. */
  datatype EventStyle = EventStyle(
    backgroundColor: string,
    borderLeft: string,
    borderRadius: string,
    color: string,
    border: string,
    padding: string,
    fontSize: string,
    fontWeight: string)

  /** `eventStyleGetter(event)` (lines 86-117), over the event's optional status. */
  function StyleFor(status: Option<Status>): (style: EventStyle)
    ensures style.borderRadius == "6px" && style.color == "white" && style.border == "none"
    ensures style.padding == "4px 8px" && style.fontSize == "13px" && style.fontWeight == "500"
    ensures |style.borderLeft| > 10 && style.borderLeft[..10] == "4px solid "
  {
    var (backgroundColor, borderColor) :=
      match status
      case Some(InProgress) => ("#0A1628", "#050B14")
      case Some(Completed) => ("#10B981", "#059669")
      case Some(Canceled) => ("#EF4444", "#DC2626")
      case _ => ("#8B4513", "#6B3410");
    EventStyle(backgroundColor, "4px solid " + borderColor, "6px", "white", "none", "4px 8px", "13px", "500")
  }

  /**
   * The colour table: confirmed and status-less events keep the default
   * mocha pair; in progress, completed and cancelled events have their own.
   */
  lemma StatusColours()
    ensures StyleFor(None) == StyleFor(Some(Confirmed))
    ensures StyleFor(Some(Confirmed)).backgroundColor == "#8B4513"
    ensures StyleFor(Some(Confirmed)).borderLeft == "4px solid #6B3410"
    ensures StyleFor(Some(InProgress)).backgroundColor == "#0A1628"
    ensures StyleFor(Some(InProgress)).borderLeft == "4px solid #050B14"
    ensures StyleFor(Some(Completed)).backgroundColor == "#10B981"
    ensures StyleFor(Some(Completed)).borderLeft == "4px solid #059669"
    ensures StyleFor(Some(Canceled)).backgroundColor == "#EF4444"
    ensures StyleFor(Some(Canceled)).borderLeft == "4px solid #DC2626"
  {
  }

  /** The four statuses are told apart by their background colour alone. */
  lemma BackgroundsDistinguishStatuses(a: Status, b: Status)
    requires StyleFor(Some(a)).backgroundColor == StyleFor(Some(b)).backgroundColor
    ensures a == b
  {
    StatusColours();
  }

  /** `'day' | 'week' | 'month'`, the views the toolbar switches between. */
  datatype View = Day | Week | Month

  /** The toolbar's `date`: a day number and the minutes since midnight it keeps. */
  datatype Moment = Moment(day: int, minuteOfDay: int)

  /**
   * The date one toolbar press moves to: `direction` is -1 for the previous
   * period, +1 for the next; one day, seven days or one month.
   */
  function Shifted(view: View, date: Moment, direction: int, addMonths: (int, int) -> int): (r: Moment)
    requires direction == -1 || direction == 1
    ensures r.minuteOfDay == date.minuteOfDay
    ensures view == Day ==> r.day == date.day + direction
    ensures view == Week ==> r.day == date.day + 7 * direction
    ensures view == Month ==> r.day == addMonths(date.day, direction)
  {
    match view
    case Day => date.(day := date.day + direction)
    case Week => date.(day := date.day + 7 * direction)
    case Month => date.(day := addMonths(date.day, direction))
  }

  /** In day and week views, next then previous and previous then next both return to the start. */
  lemma PagingRoundTrip(view: View, date: Moment, addMonths: (int, int) -> int)
    requires view != Month
    ensures Shifted(view, Shifted(view, date, 1, addMonths), -1, addMonths) == date
    ensures Shifted(view, Shifted(view, date, -1, addMonths), 1, addMonths) == date
  {
  }

  /** Where `presses` presses of "next" lead from `date`. */
  function NextPresses(view: View, date: Moment, presses: nat, addMonths: (int, int) -> int): Moment {
    if presses == 0 then date else Shifted(view, NextPresses(view, date, presses - 1, addMonths), 1, addMonths)
  }

  /** In week view, `k` presses of "next" move exactly `7 k` days and keep the time of day. */
  lemma {:induction false} WeekPresses(date: Moment, presses: nat, addMonths: (int, int) -> int)
    ensures NextPresses(Week, date, presses, addMonths) == Moment(date.day + 7 * presses, date.minuteOfDay)
  {
    if presses > 0 {
      WeekPresses(date, presses - 1, addMonths);
    }
  }

  /** The toolbar's state. */
  class CalendarToolbar {
    var view: View
    var date: Moment

    /** `useState<View>('week')` and `useState(new Date())` (lines 82-83); the clock is a parameter. */
    constructor (now: Moment)
      ensures view == Week && date == now
    {
      view := Week;
      date := now;
    }

    /** The "Jour", "Semaine" and "Mois" buttons (lines 206, 214, 222). */
    method SetView(v: View)
      modifies this
      ensures view == v && date == old(date)
    {
      view := v;
    }

    /** The previous-period button (lines 233-237). */
    method Prev(addMonths: (int, int) -> int)
      modifies this
      ensures date == Shifted(old(view), old(date), -1, addMonths)
      ensures view == old(view)
    {
      if view == Day {
        date := date.(day := date.day - 1);
      } else if view == Week {
        date := date.(day := date.day - 7);
      } else {
        date := date.(day := addMonths(date.day, -1));
      }
    }

    /** The "Aujourd'hui" button (line 245): the current moment, whatever the view. */
    method Today(now: Moment)
      modifies this
      ensures date == now && view == old(view)
    {
      date := now;
    }

    /** The next-period button (lines 253-257). */
    method Next(addMonths: (int, int) -> int)
      modifies this
      ensures date == Shifted(old(view), old(date), 1, addMonths)
      ensures view == old(view)
    {
      if view == Day {
        date := date.(day := date.day + 1);
      } else if view == Week {
        date := date.(day := date.day + 7);
      } else {
        date := date.(day := addMonths(date.day, 1));
      }
    }
  }

  /** `new Date(year, monthIndex, day, hour, minute)`: a local date and time, month counted from 0. */
  datatype LocalDateTime = LocalDateTime(year: int, monthIndex: int, day: int, hour: int, minute: int)

  /** Chronological order of two local date-times. */
  predicate Before(a: LocalDateTime, b: LocalDateTime) {
    || a.year < b.year
    || (a.year == b.year && a.monthIndex < b.monthIndex)
    || (a.year == b.year && a.monthIndex == b.monthIndex && a.day < b.day)
    || (a.year == b.year && a.monthIndex == b.monthIndex && a.day == b.day
        && 60 * a.hour + a.minute < 60 * b.hour + b.minute)
  }

  /** `CalendarEvent` (lines 15-25). */
  datatype CalendarEvent = CalendarEvent(
    id: string,
    title: string,
    start: LocalDateTime,
    end: LocalDateTime,
    barber: Option<string>,
    client: Option<string>,
    service: Option<string>,
    status: Option<Status>)

  /** `demoEvents` (lines 28-79): five appointments on 7 and 8 November 2025. */
  const DemoEvents: seq<CalendarEvent> := [
    CalendarEvent("1", "Jean Dupont - Coupe + Barbe",
      LocalDateTime(2025, 10, 7, 9, 0), LocalDateTime(2025, 10, 7, 10, 0),
      Some("Marc"), Some("Jean Dupont"), Some("Coupe + Barbe"), Some(Confirmed)),
    CalendarEvent("2", "Marie Martin - Coupe",
      LocalDateTime(2025, 10, 7, 10, 30), LocalDateTime(2025, 10, 7, 11, 15),
      Some("Marc"), Some("Marie Martin"), Some("Coupe Classique"), Some(Confirmed)),
    CalendarEvent("3", "Pierre Bernard - Barbe",
      LocalDateTime(2025, 10, 7, 14, 0), LocalDateTime(2025, 10, 7, 14, 30),
      Some("Marc"), Some("Pierre Bernard"), Some("Entretien Barbe"), Some(InProgress)),
    CalendarEvent("4", "Thomas Petit - Rasage",
      LocalDateTime(2025, 10, 7, 15, 0), LocalDateTime(2025, 10, 7, 15, 40),
      Some("Marc"), Some("Thomas Petit"), Some("Rasage Traditionnel"), Some(Confirmed)),
    CalendarEvent("5", "Alexandre Roux - Service Complet",
      LocalDateTime(2025, 10, 8, 10, 0), LocalDateTime(2025, 10, 8, 11, 30),
      Some("Marc"), Some("Alexandre Roux"), Some("Service Complet"), Some(Confirmed))
  ]

  /** Two date-times fall on the same calendar day. */
  predicate SameDay(a: LocalDateTime, b: LocalDateTime) {
    a.year == b.year && a.monthIndex == b.monthIndex && a.day == b.day
  }

  /** Length in minutes of an event that starts and ends on the same day. */
  function SameDayMinutes(e: CalendarEvent): int {
    (60 * e.end.hour + e.end.minute) - (60 * e.start.hour + e.start.minute)
  }

  /** The event stays within one day, names a service of the wizard's catalogue and lasts that service's duration. */
  predicate LastsCatalogueDuration(e: CalendarEvent) {
    && SameDay(e.start, e.end)
    && (exists k :: 0 <= k < |ServiceSelection.Services|
          && e.service == Some(ServiceSelection.Services[k].name)
          && SameDayMinutes(e) == ServiceSelection.Services[k].duration)
  }

  /**
   * Every demo event ends after it starts, on the same day, with distinct ids,
   * and lasts exactly the duration the wizard's ServiceSelection.Services gives its service.
   */
  lemma DemoEventsWellFormed()
    ensures |DemoEvents| == 5
    ensures forall i :: 0 <= i < |DemoEvents| ==> Before(DemoEvents[i].start, DemoEvents[i].end)
    ensures forall i :: 0 <= i < |DemoEvents| ==> SameDay(DemoEvents[i].start, DemoEvents[i].end)
    ensures forall i, j :: 0 <= i < j < |DemoEvents| ==> DemoEvents[i].id != DemoEvents[j].id
    ensures forall i :: 0 <= i < |DemoEvents| ==> LastsCatalogueDuration(DemoEvents[i])
  {
    forall i, j | 0 <= i < j < |DemoEvents| ensures DemoEvents[i].id != DemoEvents[j].id {
      assert DemoEvents[i].id == [(49 + i) as char];
      assert DemoEvents[j].id == [(49 + j) as char];
    }
    forall i | 0 <= i < |DemoEvents| ensures LastsCatalogueDuration(DemoEvents[i]) {
      var k := if i == 0 then 1 else if i == 1 then 0 else if i == 2 then 2 else if i == 3 then 3 else 5;
      assert DemoEvents[i].service == Some(ServiceSelection.Services[k].name);
      assert SameDayMinutes(DemoEvents[i]) == ServiceSelection.Services[k].duration;
    }
  }
}
