/**
 * `formatTime`, which the card, the list page and the detail page each define
 * (the three copies compute the same string), and the time entry of the
 * recipe meta line that calls it.
 */
module FormatTime {

  import opened Wrappers
  import opened Text
  import opened RecipeTypes

  const Placeholder := "Время не указано"
  const HoursSep := " ч "
  const MinutesUnit := " мин"

  /** Seconds as "H ч M мин" from one hour on, "M мин" below, the placeholder when unknown or zero. */
  function FormatTime(seconds: Option<nat>): string
  {
    if !SecondsTruthy(seconds) then Placeholder
    else
      var minutes := seconds.value / 60;
      var hours := minutes / 60;
      var remainingMinutes := minutes % 60;
      if hours > 0 then NatToString(hours) + HoursSep + NatToString(remainingMinutes) + MinutesUnit
      else NatToString(minutes) + MinutesUnit
  }

  /**
   * Reads a formatted duration back as a number of whole minutes: "M мин" or
   * "H ч M мин"; anything else, the placeholder included, is not a duration.
   */
  function ParseDuration(s: string): Option<nat>
  {
    var (d1, rest) := LeadingDigits(s);
    if d1 == [] then None
    else if rest == MinutesUnit then Some(DigitsValue(d1))
    else if |rest| >= |HoursSep| && rest[..|HoursSep|] == HoursSep then
      var (d2, rest2) := LeadingDigits(rest[|HoursSep|..]);
      if d2 != [] && rest2 == MinutesUnit then Some(DigitsValue(d1) * 60 + DigitsValue(d2)) else None
    else None
  }

  /** The placeholder is shown exactly when the seconds are null or 0. */
  lemma FormatTimePlaceholder(seconds: Option<nat>)
    ensures FormatTime(seconds) == Placeholder <==> !SecondsTruthy(seconds)
  {
    if SecondsTruthy(seconds) {
      var r := FormatTime(seconds);
      assert IsDigit(r[0]);
      assert !IsDigit(Placeholder[0]);
    }
  }

  /** From one hour on: hours and minutes, the minutes below 60, together the whole minutes of `s`. */
  lemma FormatTimeWithHours(s: nat)
    requires s >= 3600
    ensures exists h: nat, m: nat :: h >= 1 && m < 60 && h * 60 + m == s / 60
              && FormatTime(Some(s)) == NatToString(h) + " ч " + NatToString(m) + " мин"
  {
    var h, m := s / 60 / 60, s / 60 % 60;
    assert h >= 1 && m < 60 && h * 60 + m == s / 60;
    assert FormatTime(Some(s)) == NatToString(h) + " ч " + NatToString(m) + " мин";
  }

  /** Below one hour: the whole minutes alone, so a duration under a minute reads "0 мин". */
  lemma FormatTimeMinutesOnly(s: nat)
    requires 0 < s < 3600
    ensures FormatTime(Some(s)) == NatToString(s / 60) + " мин"
    ensures s < 60 ==> FormatTime(Some(s)) == "0 мин"
  {
  }

  /** A known duration is displayed as its whole minutes, rounded down, and can be read back. */
  lemma {:induction false} FormatTimeRoundTrip(seconds: Option<nat>)
    requires SecondsTruthy(seconds)
    ensures ParseDuration(FormatTime(seconds)) == Some(seconds.value / 60)
  {
    var minutes := seconds.value / 60;
    var hours := minutes / 60;
    var rem := minutes % 60;
    if hours > 0 {
      var tail := HoursSep + NatToString(rem) + MinutesUnit;
      assert FormatTime(seconds) == NatToString(hours) + tail;
      LeadingDigitsSplit(NatToString(hours), tail);
      assert tail != MinutesUnit by { assert tail[1] != MinutesUnit[1]; }
      assert tail[..|HoursSep|] == HoursSep;
      assert tail[|HoursSep|..] == NatToString(rem) + MinutesUnit;
      LeadingDigitsSplit(NatToString(rem), MinutesUnit);
      DigitsValueOfNatToString(hours);
      DigitsValueOfNatToString(rem);
    } else {
      LeadingDigitsSplit(NatToString(minutes), MinutesUnit);
      DigitsValueOfNatToString(minutes);
    }
  }

  /**
   * `{seconds && (<span>{formatTime(seconds)}</span>)}` as React renders it:
   * `null` renders nothing, but the number 0 is rendered as the text "0".
   */
  function TimeEntryAsWritten(seconds: Option<nat>): Option<string>
  {
    match seconds
    case None => None
    case Some(s) => if s == 0 then Some("0") else Some(FormatTime(seconds))
  }

  /** A recipe with a total time of 0 shows a stray "0" that is not a duration. */
  lemma TimeEntryAsWrittenShowsZero()
    ensures TimeEntryAsWritten(Some(0)) == Some("0")
    ensures ParseDuration("0") == None && "0" != Placeholder
  {
  }

  /** The time entry as intended: shown only for a known, non-zero duration. */
  function TimeEntry(seconds: Option<nat>): (r: Option<string>)
    ensures r.Some? <==> SecondsTruthy(seconds)
    ensures r.Some? ==> r.value != Placeholder && ParseDuration(r.value) == Some(seconds.value / 60)
  {
    if SecondsTruthy(seconds) then
      FormatTimePlaceholder(seconds);
      FormatTimeRoundTrip(seconds);
      Some(FormatTime(seconds))
    else None
  }

  /** The intended entry is what the page writes for every time except 0, where the page writes "0". */
  lemma TimeEntryAgreesWithWritten(seconds: Option<nat>)
    ensures TimeEntry(seconds) == TimeEntryAsWritten(seconds) <==> seconds != Some(0)
  {
    if seconds == Some(0) {
      assert TimeEntry(seconds) == None && TimeEntryAsWritten(seconds) == Some("0");
    }
  }
}
