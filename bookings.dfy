// Vocabulary shared by the booking screens: reservation statuses, lesson
// slots with their reservations, and half-open time intervals in milliseconds.

module Bookings {
  import opened Common

  /** Reservation statuses as the booking API reports them. */
  datatype Status = PendingApproval | Approved | Confirmed | Pending | Cancelled | Completed

  /** The half-open interval [start, end) in epoch milliseconds. */
  datatype Interval = Interval(start: int, end: int)

  function Length(iv: Interval): int
  {
    iv.end - iv.start
  }

  /** `a.start < b.end && a.end > b.start`: the two half-open intervals share an instant. */
  predicate Overlaps(a: Interval, b: Interval)
  {
    a.start < b.end && a.end > b.start
  }

  predicate Covers(iv: Interval, t: int)
  {
    iv.start <= t < iv.end
  }

  lemma OverlapsIffSharedInstant(a: Interval, b: Interval)
    requires a.start < a.end && b.start < b.end
    ensures Overlaps(a, b) <==> exists t :: Covers(a, t) && Covers(b, t)
  {
    if Overlaps(a, b) {
      var t := Max(a.start, b.start);
      assert Covers(a, t) && Covers(b, t);
    }
  }

  /**
   * `effectiveStart = max(bookStart, slotStart)`, `effectiveEnd = min(bookEnd, slotEnd)`;
   * kept only when `effectiveStart < effectiveEnd`.
   */
  function Clip(iv: Interval, lo: int, hi: int): (r: Option<Interval>)
    ensures r.Some? ==> lo <= r.value.start < r.value.end <= hi
    ensures r.Some? ==> forall t :: Covers(r.value, t) <==> Covers(iv, t) && lo <= t < hi
    ensures r.None? ==> forall t :: !(Covers(iv, t) && lo <= t < hi)
  {
    var s := Max(iv.start, lo);
    var e := Min(iv.end, hi);
    if s < e then Some(Interval(s, e)) else None
  }

  /** A teacher as embedded in a slot; absent name, email or image are None. */
  datatype Teacher = Teacher(id: string, name: Option<string>, email: Option<string>, image: Option<string>)

  /**
   * A reservation as listed under its slot. The booked times are None when the field is
   * missing, empty or not a date.
   */
  datatype SlotReservation = SlotReservation(id: string, status: Status, bookedStart: Option<int>, bookedEnd: Option<int>)

  /** A mentor's lesson slot; `hourlyRate` is None when the field is absent. */
  datatype LessonSlot = LessonSlot(
    id: string,
    teacherId: string,
    start: int,
    end: int,
    isAvailable: bool,
    hourlyRate: Option<int>,
    teacher: Teacher,
    reservations: seq<SlotReservation>)

  /** The booked interval of a reservation, when both of its times are present. */
  function BookedInterval(r: SlotReservation): (iv: Option<Interval>)
    ensures iv.Some? <==> r.bookedStart.Some? && r.bookedEnd.Some?
  {
    if r.bookedStart.Some? && r.bookedEnd.Some? then Some(Interval(r.bookedStart.value, r.bookedEnd.value)) else None
  }

  const DEFAULT_HOURLY_RATE: int := 5000

  /** `hourlyRate || 5000`: a missing or zero rate falls back to 5000 yen. */
  function RateOrDefault(rate: Option<int>): (r: int)
    ensures r != 0
    ensures rate.Some? && rate.value != 0 ==> r == rate.value
  {
    if rate.Some? && rate.value != 0 then rate.value else DEFAULT_HOURLY_RATE
  }

  /** `s || fallback` on an optional string: a missing or empty string falls back. */
  function StringOr(s: Option<string>, fallback: string): (r: string)
    ensures s.Some? && s.value != "" ==> r == s.value
    ensures s.None? || s.value == "" ==> r == fallback
  {
    if s.Some? && s.value != "" then s.value else fallback
  }
}
