/**
 * The booking wizard's shared draft store (lib/booking-context.tsx): the
 * optional-field draft, the shallow merge `updateBooking`, `resetBooking`,
 * the raw step setter and the per-step gate `canProceed`.
 */
module Booking {
  import opened Prelude

  /** A calendar date picked in the wizard, as a day number. */
  type Day = int

  /** The in-progress reservation: every field optional, as in `BookingData`. */
  datatype BookingData = BookingData(
    serviceId: Option<string>,
    serviceName: Option<string>,
    servicePrice: Option<int>,
    serviceDuration: Option<int>,
    barberId: Option<string>,
    barberName: Option<string>,
    date: Option<Day>,
    time: Option<string>,
    clientName: Option<string>,
    clientEmail: Option<string>,
    clientPhone: Option<string>,
    notes: Option<string>)

  /**
   * One key of a `Partial<BookingData>`: either not present in the object, or
   * present with a value, where the value may itself be `undefined`.
   */
  datatype Entry<+T> = Absent | Present(value: Option<T>)

  /** The argument of `updateBooking`. */
  datatype PartialBookingData = PartialBookingData(
    serviceId: Entry<string>,
    serviceName: Entry<string>,
    servicePrice: Entry<int>,
    serviceDuration: Entry<int>,
    barberId: Entry<string>,
    barberName: Entry<string>,
    date: Entry<Day>,
    time: Entry<string>,
    clientName: Entry<string>,
    clientEmail: Entry<string>,
    clientPhone: Entry<string>,
    notes: Entry<string>)

  /** The draft `{}` the provider starts from and `resetBooking` restores. */
  const EmptyBooking: BookingData :=
    BookingData(None, None, None, None, None, None, None, None, None, None, None, None)

  /** The partial `{}`, with no key present. */
  const NoChange: PartialBookingData :=
    PartialBookingData(Absent, Absent, Absent, Absent, Absent, Absent,
                       Absent, Absent, Absent, Absent, Absent, Absent)

  /** The property names of `BookingData`, used to speak about the draft key by key. */
  datatype Key =
    | ServiceId | ServiceName | ServicePrice | ServiceDuration
    | BarberId | BarberName | Date | Time
    | ClientName | ClientEmail | ClientPhone | Notes

  /** A field value of any of the draft's property types. */
  datatype Value = Text(text: string) | Number(number: int) | Calendar(day: Day)

  function TextOf(s: Option<string>): Option<Value> {
    match s
    case None => None
    case Some(t) => Some(Text(t))
  }

  function NumberOf(n: Option<int>): Option<Value> {
    match n
    case None => None
    case Some(v) => Some(Number(v))
  }

  function DayOf(d: Option<Day>): Option<Value> {
    match d
    case None => None
    case Some(v) => Some(Calendar(v))
  }

  function TextEntry(e: Entry<string>): Entry<Value> {
    match e
    case Absent => Absent
    case Present(v) => Present(TextOf(v))
  }

  function NumberEntry(e: Entry<int>): Entry<Value> {
    match e
    case Absent => Absent
    case Present(v) => Present(NumberOf(v))
  }

  function DayEntry(e: Entry<Day>): Entry<Value> {
    match e
    case Absent => Absent
    case Present(v) => Present(DayOf(v))
  }

  /** `bookingData[k]`. */
  function Get(d: BookingData, k: Key): Option<Value> {
    match k
    case ServiceId => TextOf(d.serviceId)
    case ServiceName => TextOf(d.serviceName)
    case ServicePrice => NumberOf(d.servicePrice)
    case ServiceDuration => NumberOf(d.serviceDuration)
    case BarberId => TextOf(d.barberId)
    case BarberName => TextOf(d.barberName)
    case Date => DayOf(d.date)
    case Time => TextOf(d.time)
    case ClientName => TextOf(d.clientName)
    case ClientEmail => TextOf(d.clientEmail)
    case ClientPhone => TextOf(d.clientPhone)
    case Notes => TextOf(d.notes)
  }

  /** Whether key `k` is present in the partial, and with which value. */
  function Lookup(p: PartialBookingData, k: Key): Entry<Value> {
    match k
    case ServiceId => TextEntry(p.serviceId)
    case ServiceName => TextEntry(p.serviceName)
    case ServicePrice => NumberEntry(p.servicePrice)
    case ServiceDuration => NumberEntry(p.serviceDuration)
    case BarberId => TextEntry(p.barberId)
    case BarberName => TextEntry(p.barberName)
    case Date => DayEntry(p.date)
    case Time => TextEntry(p.time)
    case ClientName => TextEntry(p.clientName)
    case ClientEmail => TextEntry(p.clientEmail)
    case ClientPhone => TextEntry(p.clientPhone)
    case Notes => TextEntry(p.notes)
  }

  /** One property of `{ ...prev, ...data }`: a present key wins, even when its value is `undefined`. */
  function Put<T>(prev: Option<T>, e: Entry<T>): Option<T> {
    match e
    case Absent => prev
    case Present(v) => v
  }

  /** `{ ...prev, ...data }` (lib/booking-context.tsx:36). */
  function Merge(prev: BookingData, data: PartialBookingData): (r: BookingData)
    ensures forall k :: Get(r, k) == Put(Get(prev, k), Lookup(data, k))
  {
    BookingData(
      Put(prev.serviceId, data.serviceId),
      Put(prev.serviceName, data.serviceName),
      Put(prev.servicePrice, data.servicePrice),
      Put(prev.serviceDuration, data.serviceDuration),
      Put(prev.barberId, data.barberId),
      Put(prev.barberName, data.barberName),
      Put(prev.date, data.date),
      Put(prev.time, data.time),
      Put(prev.clientName, data.clientName),
      Put(prev.clientEmail, data.clientEmail),
      Put(prev.clientPhone, data.clientPhone),
      Put(prev.notes, data.notes))
  }

  /** Two drafts that agree on every key are the same draft. */
  lemma SameFields(a: BookingData, b: BookingData)
    requires forall k :: Get(a, k) == Get(b, k)
    ensures a == b
  {
    assert Get(a, ServiceId) == Get(b, ServiceId);
    assert Get(a, ServiceName) == Get(b, ServiceName);
    assert Get(a, ServicePrice) == Get(b, ServicePrice);
    assert Get(a, ServiceDuration) == Get(b, ServiceDuration);
    assert Get(a, BarberId) == Get(b, BarberId);
    assert Get(a, BarberName) == Get(b, BarberName);
    assert Get(a, Date) == Get(b, Date);
    assert Get(a, Time) == Get(b, Time);
    assert Get(a, ClientName) == Get(b, ClientName);
    assert Get(a, ClientEmail) == Get(b, ClientEmail);
    assert Get(a, ClientPhone) == Get(b, ClientPhone);
    assert Get(a, Notes) == Get(b, Notes);
  }

  /** `updateBooking` overwrites exactly the keys present in the partial and keeps every other key. */
  lemma MergeOverwritesPresentKeys(prev: BookingData, data: PartialBookingData, k: Key)
    ensures Lookup(data, k).Present? ==> Get(Merge(prev, data), k) == Lookup(data, k).value
    ensures Lookup(data, k).Absent? ==> Get(Merge(prev, data), k) == Get(prev, k)
  {
  }

  /** Applying the same partial twice gives the draft that applying it once gives. */
  lemma MergeIdempotent(prev: BookingData, data: PartialBookingData)
    ensures Merge(Merge(prev, data), data) == Merge(prev, data)
  {
    var once := Merge(prev, data);
    forall k ensures Get(Merge(once, data), k) == Get(once, k) {
    }
    SameFields(Merge(once, data), once);
  }

  /** A later partial that sets every key an earlier one set leaves nothing of the earlier one. */
  lemma MergeLaterCovers(prev: BookingData, first: PartialBookingData, second: PartialBookingData)
    requires forall k :: Lookup(first, k).Present? ==> Lookup(second, k).Present?
    ensures Merge(Merge(prev, first), second) == Merge(prev, second)
  {
    forall k ensures Get(Merge(Merge(prev, first), second), k) == Get(Merge(prev, second), k) {
    }
    SameFields(Merge(Merge(prev, first), second), Merge(prev, second));
  }

  /** The empty partial changes nothing. */
  lemma MergeNoChange(prev: BookingData)
    ensures Merge(prev, NoChange) == prev
  {
    forall k ensures Get(Merge(prev, NoChange), k) == Get(prev, k) {
    }
    SameFields(Merge(prev, NoChange), prev);
  }

  /** JavaScript truthiness `!!s` of an optional string: defined and non-empty. */
  predicate Filled(s: Option<string>) {
    s.Some? && s.value != ""
  }

  /** `canProceed(step)` over the current draft (lib/booking-context.tsx:44-61). */
  function CanProceed(d: BookingData, step: int): (open: bool)
    ensures open ==> 0 <= step <= 3
    ensures open ==> forall k :: k in StepKeys(step) ==> Get(d, k).Some?
  {
    match step
    case 0 => Filled(d.serviceId)
    case 1 => Filled(d.barberId)
    // a Date object is always truthy
    case 2 => d.date.Some? && Filled(d.time)
    case 3 => Filled(d.clientName) && Filled(d.clientEmail) && Filled(d.clientPhone)
    case _ => false
  }

  /** The draft keys the gate of each step reads. */
  function StepKeys(step: int): set<Key> {
    match step
    case 0 => {ServiceId}
    case 1 => {BarberId}
    case 2 => {Date, Time}
    case 3 => {ClientName, ClientEmail, ClientPhone}
    case _ => {}
  }

  /** The gate of a step depends on that step's keys and on nothing else in the draft. */
  lemma GateReadsOnlyStepKeys(a: BookingData, b: BookingData, step: int)
    requires forall k :: k in StepKeys(step) ==> Get(a, k) == Get(b, k)
    ensures CanProceed(a, step) == CanProceed(b, step)
  {
    if step == 0 {
      assert Get(a, ServiceId) == Get(b, ServiceId);
    } else if step == 1 {
      assert Get(a, BarberId) == Get(b, BarberId);
    } else if step == 2 {
      assert Get(a, Date) == Get(b, Date);
      assert Get(a, Time) == Get(b, Time);
    } else if step == 3 {
      assert Get(a, ClientName) == Get(b, ClientName);
      assert Get(a, ClientEmail) == Get(b, ClientEmail);
      assert Get(a, ClientPhone) == Get(b, ClientPhone);
    }
  }

  /** JavaScript truthiness of a draft value: a non-empty string, a non-zero number, any date. */
  predicate Truthy(v: Option<Value>) {
    match v
    case None => false
    case Some(Text(s)) => s != ""
    case Some(Number(n)) => n != 0
    case Some(Calendar(_)) => true
  }

  /**
   * The gate of a step is open exactly when the step is one of 0..3 and every
   * key that step reads is truthy in the draft.
   */
  lemma GateIsTruthinessOfStepKeys(d: BookingData, step: int)
    ensures CanProceed(d, step) <==> 0 <= step <= 3 && forall k :: k in StepKeys(step) ==> Truthy(Get(d, k))
  {
    if step == 0 {
      assert StepKeys(step) == {ServiceId};
    } else if step == 1 {
      assert StepKeys(step) == {BarberId};
    } else if step == 2 {
      assert Truthy(Get(d, Date)) <==> d.date.Some?;
      assert Truthy(Get(d, Time)) <==> Filled(d.time);
    } else if step == 3 {
      assert Truthy(Get(d, ClientName)) <==> Filled(d.clientName);
      assert Truthy(Get(d, ClientEmail)) <==> Filled(d.clientEmail);
      assert Truthy(Get(d, ClientPhone)) <==> Filled(d.clientPhone);
    }
  }

  /** An update that sets none of a step's keys leaves that step's gate as it was. */
  lemma UpdateKeepsOtherGates(prev: BookingData, data: PartialBookingData, step: int)
    requires forall k :: k in StepKeys(step) ==> Lookup(data, k).Absent?
    ensures CanProceed(Merge(prev, data), step) == CanProceed(prev, step)
  {
    GateReadsOnlyStepKeys(Merge(prev, data), prev, step);
  }

  /** After `resetBooking` no step may be left: every gate is closed. */
  lemma ResetClosesEveryGate(step: int)
    ensures !CanProceed(EmptyBooking, step)
    ensures forall k :: Get(EmptyBooking, k) == None
  {
  }

  /** Only the four wizard steps 0..3 can ever be left. */
  lemma GateOutsideSteps(d: BookingData, step: int)
    requires step < 0 || 3 < step
    ensures !CanProceed(d, step)
  {
  }

  /** The booking provider's state: the draft and the wizard's current step. */
  class BookingStore {
    var bookingData: BookingData
    var currentStep: int

    /** `useState<BookingData>({})` and `useState(0)` (lib/booking-context.tsx:32-33). */
    constructor ()
      ensures bookingData == EmptyBooking && currentStep == 0
    {
      bookingData := EmptyBooking;
      currentStep := 0;
    }

    /** `updateBooking(data)`: shallow merge into the draft; the step is untouched. */
    method UpdateBooking(data: PartialBookingData)
      modifies this
      ensures bookingData == Merge(old(bookingData), data)
      ensures currentStep == old(currentStep)
    {
      bookingData := Merge(bookingData, data);
    }

    /** `resetBooking()`: the empty draft and step 0. */
    method ResetBooking()
      modifies this
      ensures bookingData == EmptyBooking && currentStep == 0
      ensures forall step :: !CanProceed(bookingData, step)
    {
      bookingData := EmptyBooking;
      currentStep := 0;
    }

    /** `setCurrentStep(step)`: stores any number, with no bounds or gate check. */
    method SetCurrentStep(step: int)
      modifies this
      ensures currentStep == step
      ensures bookingData == old(bookingData)
    {
      currentStep := step;
    }
  }
}
