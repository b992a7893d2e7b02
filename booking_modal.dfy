// The booking dialog: start-time options every 15 minutes inside a slot, each
// marked unavailable when the proposed lesson would overlap a booking of the
// mentor or another booking of the student that day; the end time derived
// from the start and duration; the price; and the check before submitting.

module BookingModal {
  import opened Common
  import opened Bookings
  import opened Sorting

  const STEP_MINUTES: int := 15
  const STEP_MS: int := STEP_MINUTES * MINUTE_MS

  const MENTOR_BOOKED_DETAIL: string := "他の生徒が予約済み"
  const STUDENT_BOOKED_DETAIL: string := "他のメンターと予約済み"
  const INCOMPLETE_BOOKING_ERROR: string := "予約情報が不完全です。メンター、時間帯、開始時間をすべて選択してください。"

  /** One of the student's own reservations, with any mentor. */
  datatype StudentReservation = StudentReservation(id: string, bookedStart: int, bookedEnd: int, status: Status, slotId: string)

  /** A busy interval and the reason shown when a proposed lesson collides with it. */
  datatype Booked = Booked(iv: Interval, detail: string)

  /** One start-time option; the reason is present exactly when the option is unavailable. */
  datatype StartOption = StartOption(time: int, isAvailable: bool, unavailableReason: Option<string>)

  // ----- the student's active reservations -----

  /** The reservations the dialog keeps after fetching: awaiting approval, approved or confirmed. */
  predicate IsStudentActive(r: StudentReservation)
  {
    r.status == PendingApproval || r.status == Approved || r.status == Confirmed
  }

  lemma StudentActiveStatuses(r: StudentReservation)
    ensures IsStudentActive(r) <==> r.status !in {Pending, Cancelled, Completed}
  {
  }

  // ----- busy intervals -----

  /** `availableSlots.find(s => s.id === slot.id)`: the first of the mentor's slots with that id. */
  function FindSlot(slots: seq<LessonSlot>, id: string): (r: Option<LessonSlot>)
    ensures r.Some? ==> r.value in slots && r.value.id == id
    ensures r.None? ==> forall s :: s in slots ==> s.id != id
  {
    if slots == [] then None
    else if slots[0].id == id then Some(slots[0])
    else FindSlot(slots[1..], id)
  }

  /** The mentor's CONFIRMED or PENDING reservations on the slot that carry both times, in list order. */
  function MentorBooked(rs: seq<SlotReservation>): (r: seq<Booked>)
    ensures forall b :: b in r ==> b.detail == MENTOR_BOOKED_DETAIL
    ensures forall x :: x in rs && (x.status == Confirmed || x.status == Pending) && BookedInterval(x).Some? ==>
      Booked(BookedInterval(x).value, MENTOR_BOOKED_DETAIL) in r
  {
    if rs == [] then []
    else
      var prev := MentorBooked(rs[..|rs| - 1]);
      var x := rs[|rs| - 1];
      assert forall y :: y in rs ==> y in rs[..|rs| - 1] || y == x;
      if (x.status == Confirmed || x.status == Pending) && BookedInterval(x).Some? then
        prev + [Booked(BookedInterval(x).value, MENTOR_BOOKED_DETAIL)]
      else prev
  }

  /** The student's reservations that start on the selected calendar day, in list order. */
  function StudentBooked(rs: seq<StudentReservation>, day: int): (r: seq<Booked>)
    ensures forall b :: b in r ==> b.detail == STUDENT_BOOKED_DETAIL
    ensures forall x :: x in rs && DayOf(x.bookedStart) == day ==>
      Booked(Interval(x.bookedStart, x.bookedEnd), STUDENT_BOOKED_DETAIL) in r
  {
    if rs == [] then []
    else
      var prev := StudentBooked(rs[..|rs| - 1], day);
      var x := rs[|rs| - 1];
      assert forall y :: y in rs ==> y in rs[..|rs| - 1] || y == x;
      if DayOf(x.bookedStart) == day then prev + [Booked(Interval(x.bookedStart, x.bookedEnd), STUDENT_BOOKED_DETAIL)]
      else prev
  }

  function BookedStart(b: Booked): int
  {
    b.iv.start
  }

  /**
   * The busy intervals for a slot: the mentor's bookings on it (when a mentor is selected and the
   * slot is among theirs), then the student's bookings on the selected day (when there are any and a
   * day is selected), sorted stably by start.
   */
  function BusyIntervals(slot: LessonSlot, mentorSlots: Option<seq<LessonSlot>>,
                         student: seq<StudentReservation>, selectedDay: Option<int>): seq<Booked>
  {
    var mentor :=
      if mentorSlots.Some? && FindSlot(mentorSlots.value, slot.id).Some? then
        MentorBooked(FindSlot(mentorSlots.value, slot.id).value.reservations)
      else [];
    var own := if |student| > 0 && selectedDay.Some? then StudentBooked(student, selectedDay.value) else [];
    SortBy(mentor + own, BookedStart)
  }

  // ----- start-time options -----

  /** The first busy interval, in list order, that overlaps the proposed lesson. */
  function FirstOverlap(busy: seq<Booked>, proposed: Interval): (r: Option<nat>)
    ensures r.Some? ==> (r.value < |busy| && Overlaps(proposed, busy[r.value].iv)
      && forall j :: 0 <= j < r.value ==> !Overlaps(proposed, busy[j].iv))
    ensures r.None? ==> forall j :: 0 <= j < |busy| ==> !Overlaps(proposed, busy[j].iv)
  {
    if busy == [] then None
    else if Overlaps(proposed, busy[0].iv) then Some(0)
    else
      var rest := FirstOverlap(busy[1..], proposed);
      if rest.Some? then Some(rest.value + 1) else None
  }

  function OptionAt(busy: seq<Booked>, t: int, durationMinutes: int): (o: StartOption)
  {
    var proposed := Interval(t, t + durationMinutes * MINUTE_MS);
    var hit := FirstOverlap(busy, proposed);
    StartOption(t, hit.None?, if hit.Some? then Some(busy[hit.value].detail) else None)
  }

  /** How many 15-minute steps from `slotStart` stay at or before the latest start. */
  function OptionCount(slotStart: int, latestStart: int): (n: nat)
    ensures n > 0 ==> slotStart + (n - 1) * STEP_MS <= latestStart < slotStart + n * STEP_MS
    ensures n == 0 ==> latestStart < slotStart
  {
    if latestStart < slotStart then 0 else (latestStart - slotStart) / STEP_MS + 1
  }

  /** The options for a slot: every 15 minutes from its start while the lesson still fits before its end. */
  function StartTimeOptions(slot: LessonSlot, durationMinutes: int, busy: seq<Booked>): (r: seq<StartOption>)
  {
    var n := OptionCount(slot.start, slot.end - durationMinutes * MINUTE_MS);
    seq(n, k requires 0 <= k < n => OptionAt(busy, slot.start + k * STEP_MS, durationMinutes))
  }

  /** The inner loop over busy intervals, stopping at the first overlap. */
  method CheckOverlap(busy: seq<Booked>, proposed: Interval) returns (isAvailable: bool, reason: Option<string>)
    ensures var hit := FirstOverlap(busy, proposed);
      isAvailable == hit.None? && reason == (if hit.Some? then Some(busy[hit.value].detail) else None)
  {
    isAvailable := true;
    reason := None;
    var j := 0;
    while j < |busy|
      invariant 0 <= j <= |busy|
      invariant forall i :: 0 <= i < j ==> !Overlaps(proposed, busy[i].iv)
    {
      if proposed.start < busy[j].iv.end && proposed.end > busy[j].iv.start {
        isAvailable := false;
        reason := Some(busy[j].detail);
        FirstOverlapIsLeast(busy, proposed, j);
        return;
      }
      j := j + 1;
    }
  }

  lemma FirstOverlapIsLeast(busy: seq<Booked>, proposed: Interval, j: nat)
    requires j < |busy| && Overlaps(proposed, busy[j].iv)
    requires forall i :: 0 <= i < j ==> !Overlaps(proposed, busy[i].iv)
    ensures FirstOverlap(busy, proposed) == Some(j)
  {
  }

  /** `generateStartTimeOptions`: the while loop stepping 15 minutes from the slot's start. */
  method GenerateStartTimeOptions(slot: LessonSlot, durationMinutes: int, busy: seq<Booked>) returns (options: seq<StartOption>)
    ensures options == StartTimeOptions(slot, durationMinutes, busy)
  {
    var maxStartTime := slot.end - durationMinutes * MINUTE_MS;
    var n := OptionCount(slot.start, maxStartTime);
    options := [];
    var currentTime := slot.start;
    var k := 0;
    while currentTime <= maxStartTime
      invariant 0 <= k <= n
      invariant currentTime == slot.start + k * STEP_MS
      invariant k < n <==> currentTime <= maxStartTime
      invariant options == StartTimeOptions(slot, durationMinutes, busy)[..k]
      decreases maxStartTime - currentTime
    {
      var proposed := Interval(currentTime, currentTime + durationMinutes * MINUTE_MS);
      var isAvailable, reason := CheckOverlap(busy, proposed);
      options := options + [StartOption(currentTime, isAvailable, reason)];
      currentTime := currentTime + STEP_MS;
      k := k + 1;
    }
    assert StartTimeOptions(slot, durationMinutes, busy)[..n] == StartTimeOptions(slot, durationMinutes, busy);
  }

  // ----- properties of the options -----

  /**
   * Options start at the slot's start, are 15 minutes apart, and every proposed lesson ends by the
   * slot's end; the first start that would overrun the slot is not offered.
   */
  lemma OptionsFitSlot(slot: LessonSlot, durationMinutes: int, busy: seq<Booked>)
    ensures var os := StartTimeOptions(slot, durationMinutes, busy);
      (forall k :: 0 <= k < |os| ==>
        os[k].time == slot.start + k * STEP_MS && slot.start <= os[k].time && os[k].time + durationMinutes * MINUTE_MS <= slot.end)
      && slot.start + |os| * STEP_MS + durationMinutes * MINUTE_MS > slot.end
  {
  }

  /** An option is available exactly when the proposed lesson overlaps no busy interval. */
  lemma AvailableIffNoOverlap(slot: LessonSlot, durationMinutes: int, busy: seq<Booked>, k: int)
    requires 0 <= k < |StartTimeOptions(slot, durationMinutes, busy)|
    ensures var o := StartTimeOptions(slot, durationMinutes, busy)[k];
      var proposed := Interval(o.time, o.time + durationMinutes * MINUTE_MS);
      (o.isAvailable <==> forall b :: b in busy ==> !Overlaps(proposed, b.iv))
      && (o.isAvailable <==> o.unavailableReason.None?)
  {
    var o := StartTimeOptions(slot, durationMinutes, busy)[k];
    var proposed := Interval(o.time, o.time + durationMinutes * MINUTE_MS);
    if !o.isAvailable {
      var j := FirstOverlap(busy, proposed).value;
      assert busy[j] in busy;
    }
  }

  /**
   * The reason of an unavailable option is the detail of the earliest-starting busy interval that
   * overlaps it: busy intervals are sorted by start and the first overlap in that order wins.
   */
  lemma ReasonIsEarliestOverlap(slot: LessonSlot, mentorSlots: Option<seq<LessonSlot>>,
                                student: seq<StudentReservation>, selectedDay: Option<int>,
                                durationMinutes: int, k: int)
    requires var busy := BusyIntervals(slot, mentorSlots, student, selectedDay);
      0 <= k < |StartTimeOptions(slot, durationMinutes, busy)|
      && !StartTimeOptions(slot, durationMinutes, busy)[k].isAvailable
    ensures var busy := BusyIntervals(slot, mentorSlots, student, selectedDay);
      var o := StartTimeOptions(slot, durationMinutes, busy)[k];
      var proposed := Interval(o.time, o.time + durationMinutes * MINUTE_MS);
      exists j :: 0 <= j < |busy| && Overlaps(proposed, busy[j].iv) && o.unavailableReason == Some(busy[j].detail)
        && (forall i :: 0 <= i < |busy| && Overlaps(proposed, busy[i].iv) ==> busy[j].iv.start <= busy[i].iv.start)
  {
    var busy := BusyIntervals(slot, mentorSlots, student, selectedDay);
    BusyIntervalsSorted(slot, mentorSlots, student, selectedDay);
    var o := StartTimeOptions(slot, durationMinutes, busy)[k];
    var proposed := Interval(o.time, o.time + durationMinutes * MINUTE_MS);
    assert o == OptionAt(busy, slot.start + k * STEP_MS, durationMinutes);
    var j := FirstOverlap(busy, proposed).value;
    FirstOverlapIsEarliest(busy, proposed);
    assert Overlaps(proposed, busy[j].iv) && o.unavailableReason == Some(busy[j].detail);
  }

  /** The busy intervals come out sorted by start. */
  lemma BusyIntervalsSorted(slot: LessonSlot, mentorSlots: Option<seq<LessonSlot>>,
                            student: seq<StudentReservation>, selectedDay: Option<int>)
    ensures SortedBy(BusyIntervals(slot, mentorSlots, student, selectedDay), BookedStart)
  {
    var mentor :=
      if mentorSlots.Some? && FindSlot(mentorSlots.value, slot.id).Some? then
        MentorBooked(FindSlot(mentorSlots.value, slot.id).value.reservations)
      else [];
    var own := if |student| > 0 && selectedDay.Some? then StudentBooked(student, selectedDay.value) else [];
    SortByProperties(mentor + own, BookedStart);
  }

  /** On busy intervals sorted by start, the first overlap found starts no later than any other. */
  lemma FirstOverlapIsEarliest(busy: seq<Booked>, proposed: Interval)
    requires SortedBy(busy, BookedStart)
    ensures var hit := FirstOverlap(busy, proposed);
      hit.Some? ==> forall i :: 0 <= i < |busy| && Overlaps(proposed, busy[i].iv) ==> busy[hit.value].iv.start <= busy[i].iv.start
  {
    var hit := FirstOverlap(busy, proposed);
    if hit.Some? {
      forall i | 0 <= i < |busy| && Overlaps(proposed, busy[i].iv)
        ensures busy[hit.value].iv.start <= busy[i].iv.start
      {
        SortedByMonotone(busy, BookedStart, hit.value, i);
      }
    }
  }

  lemma {:induction false} SortedByMonotone<T>(s: seq<T>, key: T -> int, i: int, j: int)
    requires SortedBy(s, key) && 0 <= i <= j < |s|
    ensures key(s[i]) <= key(s[j])
    decreases j - i
  {
    if i < j {
      SortedByMonotone(s, key, i, j - 1);
    }
  }

  /** The busy list holds every mentor booking of the slot and every student booking of the day. */
  lemma BusyIntervalsComplete(slot: LessonSlot, mentorSlots: seq<LessonSlot>, student: seq<StudentReservation>, day: int)
    ensures var busy := BusyIntervals(slot, Some(mentorSlots), student, Some(day));
      (forall r :: r in student && DayOf(r.bookedStart) == day ==>
         Booked(Interval(r.bookedStart, r.bookedEnd), STUDENT_BOOKED_DETAIL) in busy)
      && (FindSlot(mentorSlots, slot.id).Some? ==>
           forall r :: (r in FindSlot(mentorSlots, slot.id).value.reservations
                        && (r.status == Confirmed || r.status == Pending) && BookedInterval(r).Some?) ==>
             Booked(BookedInterval(r).value, MENTOR_BOOKED_DETAIL) in busy)
  {
    var mentor :=
      if FindSlot(mentorSlots, slot.id).Some? then MentorBooked(FindSlot(mentorSlots, slot.id).value.reservations)
      else [];
    var own := if |student| > 0 then StudentBooked(student, day) else [];
    SortByMembers(mentor + own, BookedStart);
    assert forall b :: b in own ==> b in mentor + own;
    assert forall b :: b in mentor ==> b in mentor + own;
  }

  /**
   * An available option collides neither with the mentor's active bookings on the slot nor with
   * the student's bookings on the selected day.
   */
  lemma AvailableOptionIsFree(slot: LessonSlot, mentorSlots: seq<LessonSlot>,
                              student: seq<StudentReservation>, day: int,
                              durationMinutes: int, k: int)
    requires var busy := BusyIntervals(slot, Some(mentorSlots), student, Some(day));
      0 <= k < |StartTimeOptions(slot, durationMinutes, busy)|
      && StartTimeOptions(slot, durationMinutes, busy)[k].isAvailable
    ensures var busy := BusyIntervals(slot, Some(mentorSlots), student, Some(day));
      var o := StartTimeOptions(slot, durationMinutes, busy)[k];
      var proposed := Interval(o.time, o.time + durationMinutes * MINUTE_MS);
      (forall r :: r in student && DayOf(r.bookedStart) == day ==>
         !Overlaps(proposed, Interval(r.bookedStart, r.bookedEnd)))
      && (FindSlot(mentorSlots, slot.id).Some? ==>
           forall r :: (r in FindSlot(mentorSlots, slot.id).value.reservations
                        && (r.status == Confirmed || r.status == Pending) && BookedInterval(r).Some?) ==>
             !Overlaps(proposed, BookedInterval(r).value))
  {
    var busy := BusyIntervals(slot, Some(mentorSlots), student, Some(day));
    BusyIntervalsComplete(slot, mentorSlots, student, day);
    AvailableIffNoOverlap(slot, durationMinutes, busy, k);
  }

  // ----- end time, duration and price -----

  /** `calculateEndTime`: the start plus the duration in minutes. */
  function CalculateEndTime(start: int, durationMinutes: int): (end: int)
    ensures end - start == durationMinutes * MINUTE_MS
  {
    start + durationMinutes * 60 * 1000
  }

  /**
   * `calculateTotalPrice`: zero until a slot, start and end are chosen; otherwise the hourly rate
   * (5000 yen when missing or zero) times the lesson's minutes over 60, rounded half up.
   */
  function CalculateTotalPrice(slot: Option<LessonSlot>, start: Option<int>, end: Option<int>): (price: int)
    ensures slot.None? || start.None? || end.None? ==> price == 0
  {
    if slot.None? || start.None? || end.None? then 0
    else
      var hourlyRate := RateOrDefault(slot.value.hourlyRate);
      var actualMinutes := (end.value - start.value) as real / MINUTE_MS as real;
      JsRound(hourlyRate as real * actualMinutes / 60.0)
  }

  /** For a lesson of whole hours the price is exactly the rate times the hours. */
  lemma PriceOfWholeHours(slot: LessonSlot, start: int, hours: nat)
    ensures CalculateTotalPrice(Some(slot), Some(start), Some(start + hours * HOUR_MS))
         == RateOrDefault(slot.hourlyRate) * hours
  {
    var rate := RateOrDefault(slot.hourlyRate);
    var minutes := (hours * HOUR_MS) as real / MINUTE_MS as real;
    assert minutes == (hours * 60) as real;
    assert rate as real * minutes / 60.0 == (rate * hours) as real;
  }

  /** Without a rate, a 30-minute lesson costs 2500 yen and a 45-minute one 3750 yen. */
  lemma DefaultRatePrices(slot: LessonSlot, start: int)
    requires slot.hourlyRate.None?
    ensures CalculateTotalPrice(Some(slot), Some(start), Some(CalculateEndTime(start, 30))) == 2500
    ensures CalculateTotalPrice(Some(slot), Some(start), Some(CalculateEndTime(start, 45))) == 3750
  {
  }

  /** With a positive rate the price never decreases as the lesson gets longer. */
  lemma PriceMonotoneInDuration(slot: LessonSlot, start: int, d1: nat, d2: nat)
    requires RateOrDefault(slot.hourlyRate) > 0 && d1 <= d2
    ensures CalculateTotalPrice(Some(slot), Some(start), Some(CalculateEndTime(start, d1)))
         <= CalculateTotalPrice(Some(slot), Some(start), Some(CalculateEndTime(start, d2)))
  {
    var rate := RateOrDefault(slot.hourlyRate) as real;
    var m1 := (CalculateEndTime(start, d1) - start) as real / MINUTE_MS as real;
    var m2 := (CalculateEndTime(start, d2) - start) as real / MINUTE_MS as real;
    assert m1 == d1 as real && m2 == d2 as real;
    assert rate * m1 <= rate * m2;
  }

  // ----- the selection state -----

  /** The dialog's chosen start, end and duration; the end always follows the start and duration. */
  class BookingSelection {
    var selectedStartTime: Option<int>
    var selectedEndTime: Option<int>
    var duration: int
    var error: Option<string>

    predicate Valid()
      reads this
    {
      (selectedStartTime.None? ==> selectedEndTime.None?)
      && (selectedStartTime.Some? ==>
            selectedEndTime == Some(CalculateEndTime(selectedStartTime.value, duration)))
    }

    /** The dialog opens with a 60-minute lesson and nothing chosen. */
    constructor ()
      ensures Valid()
      ensures selectedStartTime.None? && duration == 60 && error.None?
    {
      selectedStartTime := None;
      selectedEndTime := None;
      duration := 60;
      error := None;
    }

    /** `handleStartTimeSelect`: records the start, derives the end, clears the error. */
    method HandleStartTimeSelect(startTime: int)
      modifies this
      ensures Valid()
      ensures selectedStartTime == Some(startTime) && duration == old(duration) && error.None?
      ensures selectedEndTime == Some(CalculateEndTime(startTime, duration))
    {
      selectedStartTime := Some(startTime);
      selectedEndTime := Some(CalculateEndTime(startTime, duration));
      error := None;
    }

    /** `handleDurationChange`: records the duration and re-derives the end when a start is chosen. */
    method HandleDurationChange(newDuration: int)
      requires Valid()
      modifies this
      ensures Valid()
      ensures duration == newDuration && selectedStartTime == old(selectedStartTime) && error == old(error)
      ensures selectedStartTime.Some? ==>
        selectedEndTime == Some(CalculateEndTime(selectedStartTime.value, newDuration))
    {
      duration := newDuration;
      if selectedStartTime.Some? {
        selectedEndTime := Some(CalculateEndTime(selectedStartTime.value, newDuration));
      }
    }
  }

  // ----- submitting -----

  /** What the dialog sends to the payment setup. */
  datatype ReservationData = ReservationData(
    slotId: string,
    bookedStart: int,
    bookedEnd: int,
    duration: int,
    notes: string,
    totalAmount: int,
    currency: string)

  function BookingNotes(mentorName: string, durationMinutes: int): string
  {
    "メンター: " + mentorName + "とのレッスン予約（" + IntToString(durationMinutes) + "分）"
  }

  /**
   * `handleBooking`'s guard and payload: an error unless slot, mentor, date, start and end are
   * all chosen; otherwise the reservation data with the computed price in JPY.
   */
  function PrepareBooking(slot: Option<LessonSlot>, mentorName: Option<string>, selectedDay: Option<int>,
                          start: Option<int>, end: Option<int>, durationMinutes: int): (r: Result<ReservationData>)
    ensures r.Err? <==> slot.None? || mentorName.None? || selectedDay.None? || start.None? || end.None?
    ensures r.Err? ==> r.error == INCOMPLETE_BOOKING_ERROR
    ensures r.Ok? ==> (r.value.slotId == slot.value.id && r.value.bookedStart == start.value
      && r.value.bookedEnd == end.value && r.value.currency == "JPY"
      && r.value.totalAmount == CalculateTotalPrice(slot, start, end))
  {
    if slot.None? || mentorName.None? || selectedDay.None? || start.None? || end.None? then
      Err(INCOMPLETE_BOOKING_ERROR)
    else
      Ok(ReservationData(slot.value.id, start.value, end.value, durationMinutes,
                         BookingNotes(mentorName.value, durationMinutes),
                         CalculateTotalPrice(slot, start, end), "JPY"))
  }

  /** A booking prepared from a consistent selection lasts exactly the chosen duration. */
  lemma PreparedBookingLastsDuration(sel: BookingSelection, slot: LessonSlot, mentorName: string, day: int)
    requires sel.Valid() && sel.selectedStartTime.Some?
    ensures var r := PrepareBooking(Some(slot), Some(mentorName), Some(day), sel.selectedStartTime, sel.selectedEndTime, sel.duration);
      r.Ok? && r.value.bookedEnd - r.value.bookedStart == sel.duration * MINUTE_MS
  {
  }
}
