/**
 * The admin "new appointment" dialog (components/shared/AppointmentForm.tsx): a
 * record of eight text fields replaced one field at a time, reset on submit,
 * the fixed option lists of its selects and the fields marked required.
 */
module AppointmentForm {
  import opened Prelude

  /** The eight inputs of the form, in the order they appear. */
  datatype FormField = ClientName | Phone | Email | Date | Time | Service | Barber | Notes

  /** `formData`; the date is the `<input type="date">` text and the time a select value. */
  datatype FormData = FormData(
    clientName: string,
    phone: string,
    email: string,
    date: string,
    time: string,
    service: string,
    barber: string,
    notes: string)

  /** The initial and the reset record: every field `""` (lines 31-40, 75-84). */
  const EmptyForm: FormData := FormData("", "", "", "", "", "", "", "")

  /** `formData[field]`. */
  function Value(form: FormData, field: FormField): string {
    match field
    case ClientName => form.clientName
    case Phone => form.phone
    case Email => form.email
    case Date => form.date
    case Time => form.time
    case Service => form.service
    case Barber => form.barber
    case Notes => form.notes
  }

  /** `{ ...formData, [field]: value }`: the edited field takes the value, every other field keeps its own. */
  function With(form: FormData, field: FormField, value: string): (r: FormData)
    ensures Value(r, field) == value
    ensures forall other :: other != field ==> Value(r, other) == Value(form, other)
  {
    match field
    case ClientName => form.(clientName := value)
    case Phone => form.(phone := value)
    case Email => form.(email := value)
    case Date => form.(date := value)
    case Time => form.(time := value)
    case Service => form.(service := value)
    case Barber => form.(barber := value)
    case Notes => form.(notes := value)
  }

  /** Two records that agree on every field are the same record. */
  lemma SameForm(a: FormData, b: FormData)
    requires forall field :: Value(a, field) == Value(b, field)
    ensures a == b
  {
    assert Value(a, ClientName) == Value(b, ClientName);
    assert Value(a, Phone) == Value(b, Phone);
    assert Value(a, Email) == Value(b, Email);
    assert Value(a, Date) == Value(b, Date);
    assert Value(a, Time) == Value(b, Time);
    assert Value(a, Service) == Value(b, Service);
    assert Value(a, Barber) == Value(b, Barber);
    assert Value(a, Notes) == Value(b, Notes);
  }

  /** Typing the same value twice, or typing into one field after another, composes as expected. */
  lemma WithLaws(form: FormData, f: FormField, g: FormField, v: string, w: string)
    ensures With(With(form, f, v), f, w) == With(form, f, w)
    ensures With(form, f, Value(form, f)) == form
    ensures f != g ==> With(With(form, f, v), g, w) == With(With(form, g, w), f, v)
  {
    SameForm(With(With(form, f, v), f, w), With(form, f, w));
    SameForm(With(form, f, Value(form, f)), form);
    if f != g {
      SameForm(With(With(form, f, v), g, w), With(With(form, g, w), f, v));
    }
  }

  /** The fields whose input carries `required` (lines 120, 138, 181, 196, 223, 247). */
  const RequiredFields: set<FormField> := {ClientName, Phone, Date, Time, Service, Barber}

  /** Email and notes are the only optional fields. */
  lemma RequiredFieldsExact(field: FormField)
    ensures field in RequiredFields <==> field != Email && field != Notes
  {
  }

  /** The browser lets the form submit only when every required field is non-empty. */
  predicate RequiredFilled(form: FormData) {
    forall field :: field in RequiredFields ==> Value(form, field) != ""
  }

  /** The reset form cannot be submitted again, and a blank email or blank notes never block a submit. */
  lemma RequiredFilledMeaning(form: FormData, v: string)
    ensures !RequiredFilled(EmptyForm)
    ensures RequiredFilled(form) ==> RequiredFilled(With(form, Email, v)) && RequiredFilled(With(form, Notes, v))
  {
    assert Value(EmptyForm, ClientName) == "";
    if RequiredFilled(form) {
      forall field | field in RequiredFields
        ensures Value(With(form, Email, v), field) != "" && Value(With(form, Notes, v), field) != ""
      {
        assert Value(form, field) != "";
      }
    }
  }

  /** The service select's options (lines 42-48). */
  const Services: seq<string> := ["Coupe Classique", "Coupe + Barbe", "Entretien Barbe", "Coupe Enfant", "Rasage Traditionnel"]

  /** The barber select's options (line 50). */
  const Barbers: seq<string> := ["Marc", "Jean", "Pierre"]

  /**
   * Every service and barber option is a non-empty label distinct from the
   * others in its select, as the `key={service}` and `key={barber}` items
   * (lines 229-233, 253-257) need.
   */
  lemma SelectOptionsDistinct()
    ensures |Services| == 5 && |Barbers| == 3
    ensures forall i :: 0 <= i < |Services| ==> Services[i] != ""
    ensures forall i :: 0 <= i < |Barbers| ==> Barbers[i] != ""
    ensures forall i, j :: 0 <= i < j < |Services| ==> Services[i] != Services[j]
    ensures forall i, j :: 0 <= i < j < |Barbers| ==> Barbers[i] != Barbers[j]
  {
    forall i, j | 0 <= i < j < |Services| ensures Services[i] != Services[j] {
      assert |Services[i]| != |Services[j]| || Services[i][6] != Services[j][6] || Services[i][0] != Services[j][0];
    }
    forall i, j | 0 <= i < j < |Barbers| ensures Barbers[i] != Barbers[j] {
      assert Barbers[i][0] != Barbers[j][0];
    }
  }

  /** The time select's options (lines 52-67): 09:00 to 11:30, then 14:00 to 17:30, every half hour. */
  const TimeSlots: seq<string> := [
    "09:00", "09:30", "10:00", "10:30", "11:00", "11:30",
    "14:00", "14:30", "15:00", "15:30", "16:00", "16:30", "17:00", "17:30"]

  /** Minutes since midnight of the i-th option: a morning run from 09:00, an afternoon run from 14:00. */
  function SlotMinutes(i: int): int {
    if i < 6 then 9 * 60 + 30 * i else 14 * 60 + 30 * (i - 6)
  }

  /** Each option is an "HH:MM" label on :00 or :30 at the minutes its position gives. */
  lemma TimeSlotAt(i: int)
    requires 0 <= i < |TimeSlots|
    ensures IsClockTime(TimeSlots[i]) && MinutesOf(TimeSlots[i]) == SlotMinutes(i)
    ensures TimeSlots[i][4] == '0' && (TimeSlots[i][3] == '0' || TimeSlots[i][3] == '3')
  {
  }

  /**
   * Fourteen options, strictly ascending and so pairwise distinct, none inside
   * the lunch break from 12:00 to 13:30.
   */
  lemma TimeSlotsShape()
    ensures |TimeSlots| == 14
    ensures forall i, j :: 0 <= i < j < |TimeSlots| ==>
      IsClockTime(TimeSlots[i]) && IsClockTime(TimeSlots[j]) && MinutesOf(TimeSlots[i]) < MinutesOf(TimeSlots[j])
    ensures forall i, j :: 0 <= i < j < |TimeSlots| ==> TimeSlots[i] != TimeSlots[j]
    ensures forall i :: 0 <= i < |TimeSlots| ==>
      IsClockTime(TimeSlots[i]) && !(12 * 60 <= MinutesOf(TimeSlots[i]) <= 13 * 60 + 30)
  {
    forall i | 0 <= i < |TimeSlots| ensures IsClockTime(TimeSlots[i]) && MinutesOf(TimeSlots[i]) == SlotMinutes(i) {
      TimeSlotAt(i);
    }
  }

  /** The dialog: the form record and its open flag, which the parent owns through `onOpenChange`. */
  class AppointmentDialog {
    var formData: FormData
    var open: bool

    /** `useState({...})` with every field `""` (lines 31-40); `open` comes from the parent. */
    constructor (open: bool)
      ensures formData == EmptyForm && this.open == open
    {
      formData := EmptyForm;
      this.open := open;
    }

    /**
     * The `onChange`/`onValueChange` handler of one input (lines 117-119,
     * 135-137, 154-156, 177-179, 193-195, 219-221, 243-245, 271-273).
     */
    method Change(field: FormField, value: string)
      modifies this
      ensures formData == With(old(formData), field, value)
      ensures open == old(open)
    {
      formData := With(formData, field, value);
    }

    /** `handleSubmit` (lines 69-85): close the dialog and reset every field; the log is left out. */
    method HandleSubmit()
      modifies this
      ensures !open && formData == EmptyForm
      ensures forall field :: Value(formData, field) == ""
    {
      open := false;
      formData := FormData("", "", "", "", "", "", "", "");
    }

    /** The "Annuler" button (lines 281-288): close the dialog, keep what was typed. */
    method Cancel()
      modifies this
      ensures !open && formData == old(formData)
    {
      open := false;
    }
  }
}
