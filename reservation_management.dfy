// The reservation dialog of the mentor's calendar: reading the stored total
// amount, the cancellation reasons each role may give, the cancellation fee
// and the time left before the free-cancellation deadline.

module ReservationManagement {
  import opened Common

  datatype Role = Student | Mentor | Admin

  datatype CancelReason = StudentRequest | MentorRequest | AdminRequest | SystemError | Emergency

  /**
   * The stored total as it may arrive: a number (None standing for NaN), a string together with
   * what `parseFloat` reads from it (None when it reads nothing), or something else.
   */
  datatype TotalAmount = Number(n: Option<real>) | Text(parsed: Option<real>) | Other

  /** `getTotalAmountAsNumber`: a parsed string or a number as is; an unparsable string or anything else is 0. */
  function AmountAsNumber(amount: TotalAmount): (r: Option<real>)
    ensures r.None? <==> amount == Number(None)
    ensures amount.Text? || amount.Other? ==> r == Some(if amount.Text? && amount.parsed.Some? then amount.parsed.value else 0.0)
  {
    match amount
    case Text(p) => if p.Some? then p else Some(0.0)
    case Number(n) => n
    case Other => Some(0.0)
  }

  // ----- cancellation reasons -----

  /** The reasons offered: the role's own reason(s) first, emergency last. */
  function CancelReasonOptions(role: Role): (r: seq<CancelReason>)
    ensures |r| > 0 && r[|r| - 1] == Emergency
  {
    match role
    case Student => [StudentRequest, Emergency]
    case Mentor => [MentorRequest, Emergency]
    case Admin => [AdminRequest, SystemError, Emergency]
  }

  /** Every role may cite an emergency; each other reason belongs to exactly one role. */
  lemma ReasonsByRole(role: Role, reason: CancelReason)
    ensures Emergency in CancelReasonOptions(role)
    ensures reason == StudentRequest ==> (reason in CancelReasonOptions(role) <==> role == Student)
    ensures reason == MentorRequest ==> (reason in CancelReasonOptions(role) <==> role == Mentor)
    ensures reason in {AdminRequest, SystemError} ==> (reason in CancelReasonOptions(role) <==> role == Admin)
  {
  }

  // ----- the fee -----

  /** Hours from `now` to the lesson's start, as a real number. */
  function HoursUntil(lessonStart: int, now: int): real
  {
    (lessonStart - now) as real / HOUR_MS as real
  }

  /**
   * `calculateCancellationFee`: nothing for a NaN total, for an administrator or for an emergency;
   * the whole total for a student less than 24 hours ahead; half the total, rounded down, for a
   * mentor less than 2 hours ahead; nothing otherwise.
   */
  function CancellationFee(role: Role, reason: CancelReason, amount: TotalAmount, lessonStart: int, now: int): real
  {
    var hours := HoursUntil(lessonStart, now);
    var total := AmountAsNumber(amount);
    if total.None? then 0.0
    else if role == Admin || reason == Emergency then 0.0
    else if role == Student && hours < 24.0 then total.value
    else if role == Mentor && hours < 2.0 then (total.value * 0.5).Floor as real
    else 0.0
  }

  /** A non-negative total gives a fee between 0 and the total, so the refund is never negative. */
  lemma FeeWithinTotal(role: Role, reason: CancelReason, amount: TotalAmount, lessonStart: int, now: int)
    requires AmountAsNumber(amount).Some? && AmountAsNumber(amount).value >= 0.0
    ensures var fee := CancellationFee(role, reason, amount, lessonStart, now);
      0.0 <= fee <= AmountAsNumber(amount).value
      && AmountAsNumber(amount).value - fee >= 0.0
  {
  }

  /** Administrators and emergencies never pay, however close the lesson is. */
  lemma FreeForAdminOrEmergency(role: Role, reason: CancelReason, amount: TotalAmount, lessonStart: int, now: int)
    requires role == Admin || reason == Emergency
    ensures CancellationFee(role, reason, amount, lessonStart, now) == 0.0
  {
  }

  /** The hour thresholds in milliseconds: a student pays within 24 hours, a mentor within 2. */
  lemma FeeThresholds(reason: CancelReason, amount: TotalAmount, lessonStart: int, now: int)
    requires reason != Emergency && AmountAsNumber(amount).Some?
    ensures var total := AmountAsNumber(amount).value;
      (CancellationFee(Student, reason, amount, lessonStart, now) == total <== lessonStart - now < 24 * HOUR_MS)
      && (lessonStart - now >= 24 * HOUR_MS ==> CancellationFee(Student, reason, amount, lessonStart, now) == 0.0)
      && (CancellationFee(Mentor, reason, amount, lessonStart, now) == (total * 0.5).Floor as real <== lessonStart - now < 2 * HOUR_MS)
      && (lessonStart - now >= 2 * HOUR_MS ==> CancellationFee(Mentor, reason, amount, lessonStart, now) == 0.0)
  {
    var hours := HoursUntil(lessonStart, now);
    assert hours * HOUR_MS as real == (lessonStart - now) as real;
  }

  // ----- the deadline -----

  function DeadlineHours(role: Role): int
  {
    match role
    case Student => 24
    case Mentor => 2
    case Admin => 0
  }

  /** Whole hours and minutes left before the free-cancellation deadline; None once it has passed. */
  function TimeUntilDeadline(role: Role, lessonStart: int, now: int): (r: Option<(int, int)>)
    ensures r.Some? ==> r.value.0 >= 0 && 0 <= r.value.1 < 60
  {
    var left := HoursUntil(lessonStart, now) - DeadlineHours(role) as real;
    if left > 0.0 then
      var hours := left.Floor;
      Some((hours, ((left - hours as real) * 60.0).Floor))
    else None
  }

  const PAST_DEADLINE: string := "期限を過ぎています"

  /** `calculateTimeUntilDeadline`'s text: "h時間m分", or the past-deadline notice. */
  function DeadlineText(role: Role, lessonStart: int, now: int): string
  {
    var t := TimeUntilDeadline(role, lessonStart, now);
    if t.Some? then IntToString(t.value.0) + "時間" + IntToString(t.value.1) + "分" else PAST_DEADLINE
  }

  /**
   * The deadline is shown exactly while more than the role's deadline hours remain, and the hours
   * and minutes shown are the whole minutes left before it.
   */
  lemma DeadlineShowsWholeMinutesLeft(role: Role, lessonStart: int, now: int)
    ensures var t := TimeUntilDeadline(role, lessonStart, now);
      var leftMs := lessonStart - now - DeadlineHours(role) * HOUR_MS;
      (t.Some? <==> leftMs > 0)
      && (t.Some? ==> t.value.0 * 60 + t.value.1 == leftMs / MINUTE_MS)
  {
    var left := HoursUntil(lessonStart, now) - DeadlineHours(role) as real;
    var leftMs := lessonStart - now - DeadlineHours(role) * HOUR_MS;
    assert left == leftMs as real / HOUR_MS as real;
    if left > 0.0 {
      var hours := left.Floor;
      var minutes := ((left - hours as real) * 60.0).Floor;
      assert (left * 60.0).Floor == hours * 60 + minutes;
      assert left * 60.0 == leftMs as real / MINUTE_MS as real;
      FloorOfQuotient(leftMs, MINUTE_MS);
    }
  }

  /** The floor of a real quotient of integers is the integer quotient. */
  lemma FloorOfQuotient(a: int, b: int)
    requires b > 0
    ensures (a as real / b as real).Floor == a / b
  {
    var q := a / b;
    assert q * b <= a < q * b + b;
    assert q as real * b as real <= a as real < (q + 1) as real * b as real;
    assert q as real <= a as real / b as real < (q + 1) as real;
  }

  // ----- choosing a reason -----

  class CancelState {
    var selectedReason: Option<CancelReason>
    var cancellationFee: real
    var timeUntilDeadline: string

    constructor ()
      ensures selectedReason.None? && cancellationFee == 0.0 && timeUntilDeadline == ""
    {
      selectedReason := None;
      cancellationFee := 0.0;
      timeUntilDeadline := "";
    }

    /** `handleReasonChange`: records the reason and recomputes the fee and the deadline text at `now`. */
    method HandleReasonChange(role: Role, reason: CancelReason, amount: TotalAmount, lessonStart: int, now: int)
      modifies this
      ensures selectedReason == Some(reason)
      ensures cancellationFee == CancellationFee(role, reason, amount, lessonStart, now)
      ensures timeUntilDeadline == DeadlineText(role, lessonStart, now)
    {
      selectedReason := Some(reason);
      cancellationFee := CancellationFee(role, reason, amount, lessonStart, now);
      timeUntilDeadline := DeadlineText(role, lessonStart, now);
    }
  }
}
