/** Small value types and text helpers shared by the booking wizard and the admin views. */
module Prelude {

  /** A value that may be missing: a TypeScript optional property (`x?: T`). */
  datatype Option<+T> = None | Some(value: T)

  predicate IsDigit(c: char) {
    '0' <= c <= '9'
  }

  function DigitValue(c: char): int
    requires IsDigit(c)
  {
    c as int - '0' as int
  }

  function DigitChar(d: int): (c: char)
    requires 0 <= d < 10
    ensures IsDigit(c) && DigitValue(c) == d
  {
    ('0' as int + d) as char
  }

  /** `n.toString()` for a non-negative integer: decimal digits, no leading zero. */
  function NatToString(n: nat): (s: string)
    ensures 1 <= |s|
    ensures n < 10 <==> |s| == 1
    ensures forall k :: 0 <= k < |s| ==> IsDigit(s[k])
  {
    if n < 10 then [DigitChar(n)] else NatToString(n / 10) + [DigitChar(n % 10)]
  }

  /** `s.padStart(2, '0')`: left-pad with zeros to at least two characters. */
  function PadStart2(s: string): string {
    if |s| >= 2 then s else seq(2 - |s|, _ => '0') + s
  }

  /** `n.toString().padStart(2, '0')` for a number below 100 is its two decimal digits. */
  function TwoDigits(n: nat): (s: string)
    requires n < 100
    ensures s == [DigitChar(n / 10), DigitChar(n % 10)]
  {
    if n < 10 then
      assert NatToString(n) == [DigitChar(n)];
      PadStart2(NatToString(n))
    else
      assert NatToString(n / 10) == [DigitChar(n / 10)];
      PadStart2(NatToString(n))
  }

  /** A zero-padded 24-hour wall-clock time "HH:MM". */
  predicate IsClockTime(t: string) {
    |t| == 5 && IsDigit(t[0]) && IsDigit(t[1]) && t[2] == ':' && IsDigit(t[3]) && IsDigit(t[4])
  }

  /** Minutes since midnight of an "HH:MM" string. */
  function MinutesOf(t: string): int
    requires IsClockTime(t)
  {
    (10 * DigitValue(t[0]) + DigitValue(t[1])) * 60 + 10 * DigitValue(t[3]) + DigitValue(t[4])
  }

  /** The "HH:MM" label the source builds from an hour and a minute. */
  function ClockTime(hour: nat, minute: nat): (t: string)
    requires hour < 24 && minute < 60
    ensures IsClockTime(t) && MinutesOf(t) == 60 * hour + minute
    ensures t[..2] == TwoDigits(hour) && t[3..] == TwoDigits(minute)
  {
    TwoDigits(hour) + ":" + TwoDigits(minute)
  }
}
