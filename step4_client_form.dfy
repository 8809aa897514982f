/**
 * Step 4 of the wizard (components/booking/Step4ClientForm.tsx): the email and
 * phone validators, written as character-class predicates, the per-field error
 * messages and `handleChange`, which stores every keystroke in the draft and
 * records one error string per field.
 */
module ClientForm {
  import opened Prelude
  import opened Booking

  /**
   * JavaScript's `\s`: tab, line feed, vertical tab, form feed, carriage
   * return, space, no-break space, ogham space mark, the spaces U+2000..U+200A,
   * line and paragraph separators, narrow no-break space, medium mathematical
   * space, ideographic space and the byte order mark.
   */
  predicate IsWhitespace(c: char) {
    || ('\t' <= c <= '\r') || c == ' ' || c == '\U{00A0}' || c == '\U{1680}'
    || ('\U{2000}' <= c <= '\U{200A}') || c == '\U{2028}' || c == '\U{2029}' || c == '\U{202F}'
    || c == '\U{205F}' || c == '\U{3000}' || c == '\U{FEFF}'
  }

  /** The class `[^\s@]`. */
  predicate IsAtomChar(c: char) {
    !IsWhitespace(c) && c != '@'
  }

  /** Index of the first `c` in `s`, or `|s|` when there is none. */
  function IndexOf(s: string, c: char): (r: nat)
    ensures r <= |s|
    ensures r < |s| ==> s[r] == c
    ensures forall k :: 0 <= k < r ==> s[k] != c
  {
    if s == [] then 0 else if s[0] == c then 0 else 1 + IndexOf(s[1..], c)
  }

  /**
   * `validateEmail(email)` (lines 16-19): no whitespace, exactly one `@` with
   * something before it, and a domain holding a `.` that is neither its first
   * nor its last character.
   */
  function ValidateEmail(email: string): (ok: bool)
    ensures ok ==> 5 <= |email| && '@' in email && '.' in email
  {
    var at := IndexOf(email, '@');
    && (forall k :: 0 <= k < |email| ==> !IsWhitespace(email[k]))
    && 0 < at < |email|
    && (forall k :: at < k < |email| ==> email[k] != '@')
    && (exists k :: at + 1 < k < |email| - 1 && email[k] == '.')
  }

  /**
   * The language of `/^[^\s@]+@[^\s@]+\.[^\s@]+$/`: `s[..at]`, `s[at+1..dot]`
   * and `s[dot+1..]` are non-empty runs of `[^\s@]`, with `@` at `at` and `.` at `dot`.
   */
  ghost predicate MatchesEmailPattern(s: string) {
    exists at, dot ::
      && 0 < at && at + 1 < dot && dot + 1 < |s|
      && s[at] == '@' && s[dot] == '.'
      && forall k :: 0 <= k < |s| && k != at ==> IsAtomChar(s[k])
  }

  /** The character-class predicate accepts exactly the strings the regular expression matches. */
  lemma EmailValidatorMatchesPattern(s: string)
    ensures ValidateEmail(s) <==> MatchesEmailPattern(s)
  {
    var at := IndexOf(s, '@');
    if ValidateEmail(s) {
      var dot :| at + 1 < dot < |s| - 1 && s[dot] == '.';
      assert forall k :: 0 <= k < |s| && k != at ==> IsAtomChar(s[k]);
      assert s[at] == '@' && s[dot] == '.';
    }
    if MatchesEmailPattern(s) {
      var a, dot :|
        && 0 < a && a + 1 < dot && dot + 1 < |s|
        && s[a] == '@' && s[dot] == '.'
        && forall k :: 0 <= k < |s| && k != a ==> IsAtomChar(s[k]);
      assert at == a;
      assert !IsWhitespace(s[a]);
      assert at + 1 < dot < |s| - 1 && s[dot] == '.';
    }
  }

  /** `phone.replace(/\s/g, '')`. */
  function StripWhitespace(s: string): (r: string)
    ensures |r| <= |s|
    ensures forall k :: 0 <= k < |r| ==> !IsWhitespace(r[k])
  {
    if s == [] then []
    else if IsWhitespace(s[0]) then StripWhitespace(s[1..])
    else [s[0]] + StripWhitespace(s[1..])
  }

  predicate IsNonZeroDigit(c: char) {
    '1' <= c <= '9'
  }

  /** The language of `/^(\+33|0)[1-9](\d{2}){4}$/`, `\d` being the ASCII digits. */
  predicate MatchesPhonePattern(s: string) {
    || (|s| == 10 && s[0] == '0' && IsNonZeroDigit(s[1])
        && forall k :: 2 <= k < 10 ==> IsDigit(s[k]))
    || (|s| == 12 && s[0] == '+' && s[1] == '3' && s[2] == '3' && IsNonZeroDigit(s[3])
        && forall k :: 4 <= k < 12 ==> IsDigit(s[k]))
  }

  /** `validatePhone(phone)` (lines 21-24): the pattern, tested on the phone with its whitespace removed. */
  function ValidatePhone(phone: string): (ok: bool)
    ensures ok ==> |StripWhitespace(phone)| == 10 || |StripWhitespace(phone)| == 12
    ensures ok ==> 10 <= |phone|
  {
    MatchesPhonePattern(StripWhitespace(phone))
  }

  /** Removing whitespace distributes over concatenation. */
  lemma {:induction false} StripAppend(a: string, b: string)
    ensures StripWhitespace(a + b) == StripWhitespace(a) + StripWhitespace(b)
  {
    if a != [] {
      assert (a + b)[1..] == a[1..] + b;
      StripAppend(a[1..], b);
    } else {
      assert a + b == b;
    }
  }

  /** Inserting one whitespace character anywhere never changes the phone verdict. */
  lemma PhoneIgnoresInsertedWhitespace(a: string, b: string, w: char)
    requires IsWhitespace(w)
    ensures ValidatePhone(a + [w] + b) == ValidatePhone(a + b)
  {
    StripAppend(a + [w], b);
    StripAppend(a, [w]);
    StripAppend(a, b);
    assert StripWhitespace([w]) == [];
    assert StripWhitespace(a + [w]) == StripWhitespace(a);
  }

  /** A string without whitespace is left as it is. */
  lemma {:induction false} StripKeepsClean(s: string)
    requires forall k :: 0 <= k < |s| ==> !IsWhitespace(s[k])
    ensures StripWhitespace(s) == s
  {
    if s != [] {
      StripKeepsClean(s[1..]);
    }
  }

  /** The verdict on a phone is the verdict on its stripped form: whitespace is ignored altogether. */
  lemma PhoneIgnoresWhitespace(phone: string)
    ensures ValidatePhone(phone) == ValidatePhone(StripWhitespace(phone))
    ensures ValidatePhone(phone) ==> |StripWhitespace(phone)| == 10 || |StripWhitespace(phone)| == 12
  {
    StripKeepsClean(StripWhitespace(phone));
  }

  /** The pattern takes a ten-digit national number or its "+33" form, and nothing with a zero prefix digit. */
  lemma PhonePatternExamples()
    ensures MatchesPhonePattern("0612345678")
    ensures MatchesPhonePattern("+33612345678")
    ensures !MatchesPhonePattern("0012345678")
    ensures !MatchesPhonePattern("+3312345678")
  {
  }

  /** A short address is valid; a domain without a dot, a second `@` or an empty local part is not. */
  lemma EmailExamples()
    ensures ValidateEmail("j@mail.fr")
    ensures !ValidateEmail("j@mail")
    ensures !ValidateEmail("j@@mail.fr")
    ensures !ValidateEmail("@mail.fr")
  {
    assert IndexOf("j@mail.fr", '@') == 1;
    assert "j@mail.fr"[6] == '.';
    assert IndexOf("j@mail", '@') == 1;
    assert IndexOf("j@@mail.fr", '@') == 1;
    assert "j@@mail.fr"[2] == '@';
  }

  /** The draft keys the form edits through `handleChange`. */
  const ClientKeys: set<Key> := {ClientName, ClientEmail, ClientPhone, Notes}

  /** The partial `{ [field]: value }`. */
  function FieldPatch(field: Key, value: string): PartialBookingData
    requires field in ClientKeys
  {
    match field
    case ClientName => NoChange.(clientName := Present(Some(value)))
    case ClientEmail => NoChange.(clientEmail := Present(Some(value)))
    case ClientPhone => NoChange.(clientPhone := Present(Some(value)))
    case Notes => NoChange.(notes := Present(Some(value)))
  }

  /** Whether a non-empty value passes the inline check of its field. */
  predicate Acceptable(field: Key, value: string) {
    match field
    case ClientEmail => ValidateEmail(value)
    case ClientPhone => ValidatePhone(value)
    case ClientName => |value| >= 2
    case _ => true
  }

  /** The message a field shows when its value fails its check. */
  function ErrorMessage(field: Key): string {
    match field
    case ClientEmail => "Email invalide"
    case ClientPhone => "Téléphone invalide (format: 06 12 34 56 78)"
    case ClientName => "Nom trop court"
    case _ => ""
  }

  /** The error `handleChange` records: the field's message for a non-empty value that fails, else `''`. */
  function FieldError(field: Key, value: string): (error: string)
    ensures error == "" || error == ErrorMessage(field)
    ensures error != "" <==> value != "" && !Acceptable(field, value)
  {
    if value != "" && !Acceptable(field, value) then ErrorMessage(field) else ""
  }

  /**
   * An empty value never produces an error, `notes` never does, and a field
   * shows an error exactly when its non-empty value fails its check.
   */
  lemma FieldErrorMeaning(field: Key, value: string)
    ensures value == "" ==> FieldError(field, value) == ""
    ensures field == Notes ==> FieldError(field, value) == ""
    ensures field in ClientKeys ==>
      (FieldError(field, value) != "" <==> value != "" && !Acceptable(field, value))
  {
  }

  /** `handleChange` stores the raw value whether or not it is valid, and touches no other key. */
  lemma ChangeStoresValue(d: BookingData, field: Key, value: string)
    requires field in ClientKeys
    ensures Get(Merge(d, FieldPatch(field, value)), field) == Some(Text(value))
    ensures forall k :: k != field ==> Get(Merge(d, FieldPatch(field, value)), k) == Get(d, k)
  {
  }

  /**
   * The client step's gate checks only that name, email and phone are
   * non-empty: a one-letter name, an address without `@` and a two-digit
   * phone, all shown as errors by the form, still let the booking proceed.
   */
  lemma ClientGateIgnoresValidators()
    ensures var d := EmptyBooking.(clientName := Some("J"), clientEmail := Some("jean"), clientPhone := Some("12"));
      && CanProceed(d, 3)
      && FieldError(ClientName, "J") != ""
      && FieldError(ClientEmail, "jean") != ""
      && FieldError(ClientPhone, "12") != ""
  {
    assert !ValidateEmail("jean") by {
      assert IndexOf("jean", '@') == 4;
    }
    assert StripWhitespace("12") == "12";
  }

  /** The form's local `errors` record next to the shared draft. */
  class ClientFormStep {
    const store: BookingStore
    var errors: map<Key, string>

    /** `useState<Record<string, string>>({})` (line 14). */
    constructor (store: BookingStore)
      ensures this.store == store && errors == map[]
    {
      this.store := store;
      errors := map[];
    }

    /** `handleChange(field, value)` (lines 26-40). */
    method HandleChange(field: Key, value: string)
      requires field in ClientKeys
      modifies this, store
      ensures store.bookingData == Merge(old(store.bookingData), FieldPatch(field, value))
      ensures store.currentStep == old(store.currentStep)
      ensures errors == old(errors)[field := FieldError(field, value)]
    {
      store.UpdateBooking(FieldPatch(field, value));
      var error := "";
      if field == ClientEmail && value != "" && !ValidateEmail(value) {
        error := "Email invalide";
      } else if field == ClientPhone && value != "" && !ValidatePhone(value) {
        error := "Téléphone invalide (format: 06 12 34 56 78)";
      } else if field == ClientName && value != "" && |value| < 2 {
        error := "Nom trop court";
      }
      errors := errors[field := error];
    }
  }
}
