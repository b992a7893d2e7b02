// The notification service's reservation-confirmed flow: the lesson duration shown in the emails,
// the guard on the two user lookups, and how the two email results become one outcome.

module NotificationService {
  import opened Common

  const MINUTE_UNIT: string := "分"
  const HOUR_UNIT: string := "時間"
  const USER_NOT_FOUND: string := "User not found"
  const DASHBOARD_URL: string := "https://mued.jp/dashboard/lessons"

  // ----- calculateDuration -----

  /** The lesson length in whole minutes, rounded as `Math.round` does. */
  function RoundedMinutes(startMs: int, endMs: int): (m: int)
    ensures m * 60000 - 30000 <= endMs - startMs < m * 60000 + 30000
  {
    var x := (endMs - startMs) as real / 60000.0;
    var m := JsRound(x);
    assert x * 60000.0 == (endMs - startMs) as real;
    assert (m as real) * 60000.0 - 30000.0 <= x * 60000.0 < (m as real) * 60000.0 + 30000.0;
    assert (m * 60000) as real == (m as real) * 60000.0;
    m
  }

  /** The text of a number of minutes: "m分" below an hour, else "h時間" or "h時間r分". */
  function DurationText(minutes: int): (r: string)
    ensures minutes < 60 ==> r == IntToString(minutes) + MINUTE_UNIT
  {
    if minutes < 60 then IntToString(minutes) + MINUTE_UNIT
    else
      var hours := minutes / 60;
      var rest := minutes % 60;
      if rest > 0 then NatToString(hours) + HOUR_UNIT + NatToString(rest) + MINUTE_UNIT
      else NatToString(hours) + HOUR_UNIT
  }

  /** `calculateDuration`. */
  function CalculateDuration(startMs: int, endMs: int): (r: string)
  {
    DurationText(RoundedMinutes(startMs, endMs))
  }

  /**
   * From an hour up, the text names the hours and the minutes left over: any split of the minutes
   * into whole hours and a remainder below 60 is the one rendered, and the minutes are dropped
   * exactly when the remainder is zero.
   */
  lemma DurationSplits(minutes: int, hours: nat, rest: nat)
    requires minutes >= 60 && rest < 60 && hours * 60 + rest == minutes
    ensures rest > 0 ==> DurationText(minutes) == NatToString(hours) + HOUR_UNIT + NatToString(rest) + MINUTE_UNIT
    ensures rest == 0 ==> DurationText(minutes) == NatToString(hours) + HOUR_UNIT
  {
    var q := minutes / 60;
    var m := minutes % 60;
    assert q * 60 + m == minutes && 0 <= m < 60;
    assert (q - hours) * 60 == rest - m;
  }

  /** A 90-minute lesson reads "1時間30分", a 120-minute one "2時間", a 45-minute one "45分". */
  lemma DurationExamples()
    ensures CalculateDuration(0, 90 * 60000) == "1時間30分"
    ensures CalculateDuration(0, 120 * 60000) == "2時間"
    ensures CalculateDuration(0, 45 * 60000) == "45分"
  {
    assert RoundedMinutes(0, 90 * 60000) == 90;
    assert RoundedMinutes(0, 120 * 60000) == 120;
    assert RoundedMinutes(0, 45 * 60000) == 45;
    DurationSplits(90, 1, 30);
    DurationSplits(120, 2, 0);
    assert NatToString(1) == "1" && NatToString(30) == "30" && NatToString(2) == "2";
    assert IntToString(45) == NatToString(45) == "45";
  }

  // ----- onReservationConfirmed -----

  datatype User = User(email: string, name: string)

  /** `name || email`: an empty name falls back to the address. */
  function DisplayName(u: User): (r: string)
    ensures u.name != "" ==> r == u.name
    ensures u.name == "" ==> r == u.email
  {
    if u.name != "" then u.name else u.email
  }

  /** The fields of the confirmation email that this model computes. */
  datatype ReservationEmail = ReservationEmail(
    studentName: string, mentorName: string, duration: string, reservationId: string, dashboardUrl: string)

  /** What an email send reports. */
  datatype SendResult = SendResult(success: bool, error: string)

  datatype NotificationResult = NotificationResult(
    success: bool, studentEmailSent: Option<bool>, mentorEmailSent: Option<bool>, errors: Option<seq<string>>)

  function StudentFailure(r: SendResult): string
  {
    "Student email failed: " + r.error
  }

  function MentorFailure(r: SendResult): string
  {
    "Mentor email failed: " + r.error
  }

  /** The failure lines of the two sends, the student's first. */
  function Failures(studentResult: SendResult, mentorResult: SendResult): (errors: seq<string>)
    ensures |errors| == (if studentResult.success then 0 else 1) + (if mentorResult.success then 0 else 1)
    ensures !studentResult.success ==> errors[0] == StudentFailure(studentResult)
    ensures !mentorResult.success ==> errors[|errors| - 1] == MentorFailure(mentorResult)
  {
    (if studentResult.success then [] else [StudentFailure(studentResult)])
    + (if mentorResult.success then [] else [MentorFailure(mentorResult)])
  }

  /**
   * `onReservationConfirmed`. The lookups' answers and the two sends' results are inputs; `thrown`
   * is the message of an exception raised by a lookup or a send, if any. `sent` is the email data
   * handed to the email service when both sends completed, and `None` otherwise: also when a send
   * threw after the data had been handed over, so `None` does not mean that no email went out.
   */
  method OnReservationConfirmed(reservationId: string, startMs: int, endMs: int,
                                student: Option<User>, mentor: Option<User>,
                                studentResult: SendResult, mentorResult: SendResult, thrown: Option<string>)
    returns (result: NotificationResult, sent: Option<ReservationEmail>)
    ensures thrown.Some? ==> result == NotificationResult(false, None, None, Some([thrown.value])) && sent.None?
    ensures thrown.None? && (student.None? || mentor.None?) ==>
      result == NotificationResult(false, None, None, Some([USER_NOT_FOUND])) && sent.None?
    ensures sent.Some? <==> thrown.None? && student.Some? && mentor.Some?
    ensures sent.Some? ==> sent.value == ReservationEmail(DisplayName(student.value), DisplayName(mentor.value),
                                                          CalculateDuration(startMs, endMs), reservationId, DASHBOARD_URL)
    ensures sent.Some? ==> (result.success <==> studentResult.success && mentorResult.success)
    ensures sent.Some? ==> (result.studentEmailSent == Some(studentResult.success)
                            && result.mentorEmailSent == Some(mentorResult.success))
    ensures sent.Some? && result.success ==> result.errors.None?
    ensures sent.Some? && !result.success ==> result.errors == Some(Failures(studentResult, mentorResult))
    ensures result.errors.Some? ==> |result.errors.value| > 0 && !result.success
  {
    if thrown.Some? {
      return NotificationResult(false, None, None, Some([thrown.value])), None;
    }
    if student.None? || mentor.None? {
      return NotificationResult(false, None, None, Some([USER_NOT_FOUND])), None;
    }
    var email := ReservationEmail(DisplayName(student.value), DisplayName(mentor.value),
                                  CalculateDuration(startMs, endMs), reservationId, DASHBOARD_URL);
    var errors: seq<string> := [];
    if !studentResult.success {
      errors := errors + [StudentFailure(studentResult)];
    }
    if !mentorResult.success {
      errors := errors + [MentorFailure(mentorResult)];
    }
    assert errors == Failures(studentResult, mentorResult);
    result := NotificationResult(|errors| == 0, Some(studentResult.success), Some(mentorResult.success),
                                 if |errors| > 0 then Some(errors) else None);
    sent := Some(email);
  }
}
