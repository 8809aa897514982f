/**
 * Step 3 of the wizard (components/booking/Step3DateTimeSelection.tsx): the
 * half-hourly slot grid, the date and time handlers, and the window of dates
 * the day picker offers.
 *
 * `Math.random` is replaced by two injected draws per slot, indexed by the
 * slot's position: `available(i)` stands for `Math.random() > 0.3` and
 * `lastSpotDraw(i)` for `Math.random() > 0.8`.
 */
module DateTimeSelection {
  import opened Prelude
  import opened Booking

  datatype TimeSlot = TimeSlot(time: string, available: bool, lastSpot: bool)

  const StartHour: nat := 9
  const EndHour: nat := 19
  const Interval: nat := 30
  const SlotCount: nat := 20

  /** Hour and minute of the i-th slot of the grid. */
  function SlotHour(i: nat): nat { StartHour + i / 2 }
  function SlotMinute(i: nat): nat { Interval * (i % 2) }

  /** The grid `generateTimeSlots` builds, as a closed form over the slot index. */
  function SlotGrid(available: nat -> bool, lastSpotDraw: nat -> bool): (grid: seq<TimeSlot>)
    ensures |grid| == SlotCount
    ensures forall i :: 0 <= i < |grid| ==> grid[i].available == available(i)
    ensures forall i :: 0 <= i < |grid| ==> (grid[i].lastSpot ==> grid[i].available)
  {
    seq(SlotCount, i requires 0 <= i < SlotCount =>
      TimeSlot(ClockTime(SlotHour(i), SlotMinute(i)), available(i), lastSpotDraw(i) && available(i)))
  }

  /** `generateTimeSlots(date)` (lines 15-31); the date does not influence the grid. */
  method GenerateTimeSlots(date: Day, available: nat -> bool, lastSpotDraw: nat -> bool)
    returns (slots: seq<TimeSlot>)
    ensures slots == SlotGrid(available, lastSpotDraw)
  {
    slots := [];
    var hour := StartHour;
    while hour < EndHour
      invariant StartHour <= hour <= EndHour
      invariant |slots| == 2 * (hour - StartHour)
      invariant forall k :: 0 <= k < |slots| ==> slots[k] == SlotGrid(available, lastSpotDraw)[k]
    {
      var min := 0;
      while min < 60
        invariant min == 0 || min == 30 || min == 60
        invariant |slots| == 2 * (hour - StartHour) + min / Interval
        invariant forall k :: 0 <= k < |slots| ==> slots[k] == SlotGrid(available, lastSpotDraw)[k]
      {
        var time := TwoDigits(hour) + ":" + TwoDigits(min);
        var isAvailable := available(|slots|);
        var isLastSpot := lastSpotDraw(|slots|);
        assert SlotHour(|slots|) == hour && SlotMinute(|slots|) == min;
        slots := slots + [TimeSlot(time, isAvailable, isLastSpot && isAvailable)];
        min := min + Interval;
      }
      hour := hour + 1;
    }
  }

  /** The i-th slot: an "HH:MM" label on :00 or :30 at 09:00 + 30 i minutes, and its own draws. */
  lemma SlotAt(available: nat -> bool, lastSpotDraw: nat -> bool, i: nat)
    requires i < SlotCount
    ensures var g := SlotGrid(available, lastSpotDraw);
      && |g| == SlotCount
      && IsClockTime(g[i].time)
      && MinutesOf(g[i].time) == 9 * 60 + 30 * i
      && (g[i].time[3..] == "00" || g[i].time[3..] == "30")
      && g[i].available == available(i)
      && g[i].lastSpot == (lastSpotDraw(i) && available(i))
  {
    var g := SlotGrid(available, lastSpotDraw);
    var t := ClockTime(SlotHour(i), SlotMinute(i));
    assert g[i].time == t;
    assert t[3..] == TwoDigits(SlotMinute(i));
  }

  /** The first slot is "09:00" and the last "18:30". */
  lemma SlotGridEnds(available: nat -> bool, lastSpotDraw: nat -> bool)
    ensures var g := SlotGrid(available, lastSpotDraw);
      |g| == 20 && g[0].time == "09:00" && g[19].time == "18:30"
  {
    var g := SlotGrid(available, lastSpotDraw);
    assert g[0].time == ClockTime(SlotHour(0), SlotMinute(0));
    assert SlotHour(0) == 9 && SlotMinute(0) == 0;
    assert g[0].time == TwoDigits(9) + ":" + TwoDigits(0);
    assert g[19].time == ClockTime(SlotHour(19), SlotMinute(19));
    assert SlotHour(19) == 18 && SlotMinute(19) == 30;
    assert g[19].time == TwoDigits(18) + ":" + TwoDigits(30);
  }

  /**
   * The grid has 20 slots, 09:00 to 18:30 every 30 minutes, zero-padded
   * "HH:MM" on :00 or :30; each slot carries its own availability draw, and a
   * last spot is always an available one.
   */
  lemma SlotGridShape(available: nat -> bool, lastSpotDraw: nat -> bool)
    ensures var g := SlotGrid(available, lastSpotDraw);
      && |g| == 20
      && g[0].time == "09:00" && g[19].time == "18:30"
      && forall i :: 0 <= i < |g| ==>
           && IsClockTime(g[i].time)
           && MinutesOf(g[i].time) == 9 * 60 + 30 * i
           && (g[i].time[3..] == "00" || g[i].time[3..] == "30")
           && g[i].available == available(i)
           && (g[i].lastSpot ==> g[i].available)
  {
    SlotGridEnds(available, lastSpotDraw);
    forall i | 0 <= i < SlotCount {
      SlotAt(available, lastSpotDraw, i);
    }
  }

  /** Slot times strictly ascend, so no time appears twice. */
  lemma SlotGridAscending(available: nat -> bool, lastSpotDraw: nat -> bool, i: int, j: int)
    requires 0 <= i < j < SlotCount
    ensures var g := SlotGrid(available, lastSpotDraw);
      && IsClockTime(g[i].time) && IsClockTime(g[j].time)
      && MinutesOf(g[i].time) < MinutesOf(g[j].time)
      && g[i].time != g[j].time
  {
    SlotAt(available, lastSpotDraw, i);
    SlotAt(available, lastSpotDraw, j);
  }

  /** One entry of the picker's `disabled` list: `{ before: d }` or `{ after: d }`. */
  datatype Matcher = BeforeDay(before: Day) | AfterDay(after: Day)

  /** The picker disables a day a matcher matches: strictly before, or strictly after, its day. */
  predicate Matches(m: Matcher, day: Day) {
    match m
    case BeforeDay(d) => day < d
    case AfterDay(d) => day > d
  }

  /** `disabledDays` (lines 54-57): before today, and after today plus 60 days. */
  function DisabledDays(today: Day): seq<Matcher> {
    [BeforeDay(today), AfterDay(today + 60)]
  }

  /** A date is offered by the day picker when no entry of `disabledDays` matches it. */
  function IsOffered(today: Day, day: Day): (offered: bool)
    ensures offered <==> today <= day <= today + 60
  {
    var disabled := DisabledDays(today);
    assert disabled[0] == BeforeDay(today) && disabled[1] == AfterDay(today + 60);
    forall i :: 0 <= i < |disabled| ==> !Matches(disabled[i], day)
  }

  /** The offered dates, in order: today, today + 1, ..., today + 60. */
  function OfferedDays(today: Day): (days: seq<Day>)
    ensures |days| == 61
    ensures forall k :: 0 <= k < |days| ==> IsOffered(today, days[k])
    ensures forall day :: IsOffered(today, day) ==> day in days
  {
    var days := seq(61, k => today + k);
    assert forall day :: IsOffered(today, day) ==> days[day - today] == day;
    days
  }

  /** The partial `{ date, time: undefined }` of `handleSelectDate`. */
  function DatePatch(date: Day): PartialBookingData {
    NoChange.(date := Present(Some(date)), time := Present(None))
  }

  /** The partial `{ time }` of `handleSelectTime`. */
  function TimePatch(time: string): PartialBookingData {
    NoChange.(time := Present(Some(time)))
  }

  /**
   * Choosing a date sets it, clears the time and touches no other key; the
   * date-and-time gate is then closed until a time is chosen.
   */
  lemma SelectDateEffect(d: BookingData, date: Day)
    ensures var r := Merge(d, DatePatch(date));
      && r.date == Some(date) && r.time == None
      && (forall k :: k !in {Date, Time} ==> Get(r, k) == Get(d, k))
      && !CanProceed(r, 2)
  {
  }

  /**
   * Choosing a time sets only the time; with a date already chosen and a
   * non-empty time, the date-and-time gate opens.
   */
  lemma SelectTimeEffect(d: BookingData, time: string)
    ensures var r := Merge(d, TimePatch(time));
      && r.time == Some(time) && r.date == d.date
      && (forall k :: k != Time ==> Get(r, k) == Get(d, k))
      && (CanProceed(r, 2) <==> d.date.Some? && time != "")
  {
  }

  /** The component's local state next to the shared draft. */
  class DateTimeStep {
    const store: BookingStore
    var selectedDate: Option<Day>
    var selectedTime: Option<string>

    /** `useState(bookingData.date)` and `useState(bookingData.time)` (lines 35-36). */
    constructor (store: BookingStore)
      ensures this.store == store
      ensures selectedDate == store.bookingData.date && selectedTime == store.bookingData.time
    {
      this.store := store;
      selectedDate := store.bookingData.date;
      selectedTime := store.bookingData.time;
    }

    /** `selectedDate ? generateTimeSlots(selectedDate) : []` (line 38). */
    method TimeSlots(available: nat -> bool, lastSpotDraw: nat -> bool) returns (slots: seq<TimeSlot>)
      ensures selectedDate.None? ==> slots == []
      ensures selectedDate.Some? ==> slots == SlotGrid(available, lastSpotDraw)
    {
      if selectedDate.Some? {
        slots := GenerateTimeSlots(selectedDate.value, available, lastSpotDraw);
      } else {
        slots := [];
      }
    }

    /**
     * `handleSelectDate(date)` (lines 40-46): a defined date is taken whether or
     * not the picker offers it, and the time is cleared; `undefined` changes nothing.
     */
    method HandleSelectDate(date: Option<Day>)
      modifies this, store
      ensures date.None? ==> selectedDate == old(selectedDate) && selectedTime == old(selectedTime)
      ensures date.None? ==> store.bookingData == old(store.bookingData)
      ensures date.Some? ==> selectedDate == date && selectedTime == None
      ensures date.Some? ==> store.bookingData == Merge(old(store.bookingData), DatePatch(date.value))
      ensures date.Some? ==> !CanProceed(store.bookingData, 2)
      ensures store.currentStep == old(store.currentStep)
    {
      if date.Some? {
        selectedDate := date;
        selectedTime := None;
        store.UpdateBooking(DatePatch(date.value));
        SelectDateEffect(old(store.bookingData), date.value);
      }
    }

    /** `handleSelectTime(time)` (lines 48-51). */
    method HandleSelectTime(time: string)
      modifies this, store
      ensures selectedTime == Some(time) && selectedDate == old(selectedDate)
      ensures store.bookingData == Merge(old(store.bookingData), TimePatch(time))
      ensures store.currentStep == old(store.currentStep)
    {
      selectedTime := Some(time);
      store.UpdateBooking(TimePatch(time));
    }
  }
}
