// The student's calendar of all mentors' slots: each slot annotated with how
// much of it is booked and a booking status, the days that have an available
// slot, the other students' reservations fetched for a chosen day, and the
// month/day view switch.

module MentorCalendar {
  import opened Common
  import opened Bookings
  import BookingCalendarClient

  /** The slot's booking situation as shown in the calendar. */
  datatype BookingStatus = Available | Partial | Full | Unavailable

  /** A slot as the calendar shows it, with its mentor and its booking analysis. */
  datatype ExtendedTimeSlot = ExtendedTimeSlot(
    id: string,
    start: int,
    end: int,
    isAvailable: bool,
    hourlyRate: int,
    reservations: seq<SlotReservation>,
    mentorId: string,
    mentorName: string,
    bookingStatus: BookingStatus,
    reservationCount: nat,
    bookedMinutes: int,
    availableMinutes: int,
    bookingPercent: Option<int>)

  // ----- booking analysis of one slot -----

  /** Reservations that take time out of a slot: confirmed, pending, approved or awaiting approval. */
  predicate IsActive(r: SlotReservation)
  {
    r.status == Confirmed || r.status == Pending || r.status == Approved || r.status == PendingApproval
  }

  /** The part of a reservation inside [lo, hi), in milliseconds; 0 without both times or without overlap. */
  function OverlapLength(r: SlotReservation, lo: int, hi: int): (n: int)
    ensures 0 <= n && (lo < hi ==> n <= hi - lo) && (hi <= lo ==> n == 0)
    ensures n > 0 <==> BookedInterval(r).Some? && Clip(BookedInterval(r).value, lo, hi).Some?
  {
    if BookedInterval(r).Some? && Clip(BookedInterval(r).value, lo, hi).Some? then
      Length(Clip(BookedInterval(r).value, lo, hi).value)
    else 0
  }

  function OverlapIn(lo: int, hi: int): SlotReservation -> int
  {
    (r: SlotReservation) => OverlapLength(r, lo, hi)
  }

  function ActiveReservations(slot: LessonSlot): seq<SlotReservation>
  {
    Filter(slot.reservations, IsActive)
  }

  /** Booked milliseconds: each active reservation's overlap with the slot, added up without merging. */
  function BookedTimeOf(slot: LessonSlot): int
  {
    SumInt(ActiveReservations(slot), OverlapIn(slot.start, slot.end))
  }

  /**
   * `bookedTime / slotDuration`. A slot of length 0 has no booked time either, so JavaScript
   * computes 0 / 0 = NaN, modelled as None.
   */
  function BookingRate(bookedTime: int, duration: int): Option<real>
  {
    if duration == 0 then None else Some(bookedTime as real / duration as real)
  }

  /** Unavailable when switched off; otherwise available at rate 0, full from 90%, partial between (and for NaN). */
  function StatusFor(isAvailable: bool, rate: Option<real>): BookingStatus
  {
    if !isAvailable then Unavailable
    else if rate == Some(0.0) then Available
    else if rate.Some? && rate.value >= 9.0 / 10.0 then Full
    else Partial
  }

  function MinutesOf(ms: int): int
  {
    JsRound(ms as real / MINUTE_MS as real)
  }

  function PercentOf(rate: Option<real>): Option<int>
  {
    if rate.Some? then Some(JsRound(rate.value * 100.0)) else None
  }

  /** One slot of one mentor, annotated. */
  function AnalyzeSlot(mentor: BookingCalendarClient.Mentor, slot: LessonSlot): ExtendedTimeSlot
  {
    var duration := slot.end - slot.start;
    var booked := BookedTimeOf(slot);
    var rate := BookingRate(booked, duration);
    ExtendedTimeSlot(slot.id, slot.start, slot.end, slot.isAvailable, RateOrDefault(slot.hourlyRate),
                     slot.reservations, mentor.id, mentor.name, StatusFor(slot.isAvailable, rate),
                     |ActiveReservations(slot)|, MinutesOf(booked), MinutesOf(duration - booked), PercentOf(rate))
  }

  /** The `forEach` over active reservations accumulating `bookedTime`. */
  method SumBookedTime(slot: LessonSlot) returns (bookedTime: int, reservationCount: nat)
    ensures bookedTime == BookedTimeOf(slot)
    ensures reservationCount == |ActiveReservations(slot)|
  {
    bookedTime := 0;
    reservationCount := 0;
    if |slot.reservations| > 0 {
      var active := Filter(slot.reservations, IsActive);
      reservationCount := |active|;
      for i := 0 to |active|
        invariant bookedTime == SumInt(active[..i], OverlapIn(slot.start, slot.end))
      {
        SumIntPrefixStep(active, i, OverlapIn(slot.start, slot.end));
        var r := active[i];
        if r.bookedStart.Some? && r.bookedEnd.Some? {
          var effectiveStart := Max(r.bookedStart.value, slot.start);
          var effectiveEnd := Min(r.bookedEnd.value, slot.end);
          if effectiveStart < effectiveEnd {
            bookedTime := bookedTime + (effectiveEnd - effectiveStart);
          }
        }
      }
      assert active[..|active|] == active;
    }
  }

  method AnalyzeSlotMethod(mentor: BookingCalendarClient.Mentor, slot: LessonSlot) returns (x: ExtendedTimeSlot)
    ensures x == AnalyzeSlot(mentor, slot)
  {
    var slotDuration := slot.end - slot.start;
    var bookedTime, reservationCount := SumBookedTime(slot);
    var availableTime := slotDuration - bookedTime;
    var bookingRate := BookingRate(bookedTime, slotDuration);
    var bookingStatus := StatusFor(slot.isAvailable, bookingRate);
    x := ExtendedTimeSlot(slot.id, slot.start, slot.end, slot.isAvailable, RateOrDefault(slot.hourlyRate),
                          slot.reservations, mentor.id, mentor.name, bookingStatus, reservationCount,
                          MinutesOf(bookedTime), MinutesOf(availableTime), PercentOf(bookingRate));
  }

  // ----- properties of the analysis -----

  /** The booked time is never negative and at most the slot's length once per active reservation. */
  lemma BookedTimeBounds(slot: LessonSlot)
    ensures 0 <= BookedTimeOf(slot)
    ensures BookedTimeOf(slot) <= |ActiveReservations(slot)| * Max(slot.end - slot.start, 0)
  {
    SumIntBounds(ActiveReservations(slot), OverlapIn(slot.start, slot.end), 0, Max(slot.end - slot.start, 0));
  }

  /** A slot books nothing exactly when no active reservation with both times reaches into it. */
  lemma NothingBookedIff(slot: LessonSlot)
    ensures BookedTimeOf(slot) == 0 <==>
      forall r :: r in slot.reservations && IsActive(r) && BookedInterval(r).Some? ==>
        Clip(BookedInterval(r).value, slot.start, slot.end).None?
  {
    var active := ActiveReservations(slot);
    SumIntPositiveIff(active, OverlapIn(slot.start, slot.end));
    SumIntNonNegative(active, OverlapIn(slot.start, slot.end));
  }

  /** A switched-off slot is unavailable, and only a switched-off slot is. */
  lemma UnavailableIffSwitchedOff(mentor: BookingCalendarClient.Mentor, slot: LessonSlot)
    ensures AnalyzeSlot(mentor, slot).bookingStatus == Unavailable <==> !slot.isAvailable
  {
  }

  /**
   * For a slot of positive length that is switched on: available exactly when nothing is booked,
   * full exactly when at least 90% is booked, partial otherwise.
   */
  lemma StatusOfPositiveSlot(mentor: BookingCalendarClient.Mentor, slot: LessonSlot)
    requires slot.isAvailable && slot.start < slot.end
    ensures var x := AnalyzeSlot(mentor, slot); var booked := BookedTimeOf(slot); var d := slot.end - slot.start;
      (x.bookingStatus == Available <==> booked == 0)
      && (x.bookingStatus == Full <==> booked > 0 && 10 * booked >= 9 * d)
      && (x.bookingStatus == Partial <==> 0 < 10 * booked < 9 * d)
  {
    BookedTimeBounds(slot);
    StatusForPositiveLength(BookedTimeOf(slot), slot.end - slot.start);
  }

  lemma StatusForPositiveLength(booked: int, d: int)
    requires 0 <= booked && 0 < d
    ensures var st := StatusFor(true, BookingRate(booked, d));
      (st == Available <==> booked == 0)
      && (st == Full <==> booked > 0 && 10 * booked >= 9 * d)
      && (st == Partial <==> 0 < 10 * booked < 9 * d)
  {
    var q := booked as real / d as real;
    assert q * d as real == booked as real;
    assert q == 0.0 <==> booked == 0;
    if q >= 9.0 / 10.0 {
      assert q * d as real >= 9.0 / 10.0 * d as real;
      assert 10 * booked >= 9 * d;
    } else {
      assert q * d as real < 9.0 / 10.0 * d as real;
      assert 10.0 * booked as real < 9.0 * d as real;
      assert 10 * booked < 9 * d;
    }
  }

  /** A slot that starts and ends at the same instant has no booked time, and its NaN rate makes it partial. */
  lemma ZeroLengthSlotIsPartial(mentor: BookingCalendarClient.Mentor, slot: LessonSlot)
    requires slot.isAvailable && slot.start == slot.end
    ensures BookedTimeOf(slot) == 0
    ensures AnalyzeSlot(mentor, slot).bookingStatus == Partial
    ensures AnalyzeSlot(mentor, slot).bookingPercent.None?
  {
    BookedTimeBounds(slot);
  }

  /**
   * Overlapping reservations are counted twice: a one-hour slot held by two confirmed
   * reservations of the whole hour books two hours, shows as full and has -60 minutes left.
   */
  lemma OverlapsCountedTwice(mentor: BookingCalendarClient.Mentor)
    ensures var r := SlotReservation("r", Confirmed, Some(0), Some(HOUR_MS));
      var slot := LessonSlot("s", "t", 0, HOUR_MS, true, None, Teacher("t", None, None, None), [r, r]);
      BookedTimeOf(slot) == 2 * HOUR_MS
      && AnalyzeSlot(mentor, slot).bookingStatus == Full
      && AnalyzeSlot(mentor, slot).availableMinutes == -60
      && AnalyzeSlot(mentor, slot).bookingPercent == Some(200)
  {
    var r := SlotReservation("r", Confirmed, Some(0), Some(HOUR_MS));
    var slot := LessonSlot("s", "t", 0, HOUR_MS, true, None, Teacher("t", None, None, None), [r, r]);
    var f := OverlapIn(0, HOUR_MS);
    assert f(r) == HOUR_MS;
    assert [r, r][..1] == [r];
    assert ActiveReservations(slot) == [r, r];
    assert SumInt([r], f) == HOUR_MS;
    assert SumInt([r, r], f) == 2 * HOUR_MS;
    assert BookingRate(2 * HOUR_MS, HOUR_MS) == Some(2.0);
  }

  // ----- all mentors' slots -----

  predicate HasId(slot: LessonSlot)
  {
    slot.id != ""
  }

  /** One mentor's slots that carry an id, annotated, in their order. */
  function MentorTimeSlots(mentor: BookingCalendarClient.Mentor): (r: seq<ExtendedTimeSlot>)
    ensures |r| == CountWhere(mentor.availableSlots, HasId)
  {
    var withId := Filter(mentor.availableSlots, HasId);
    seq(|withId|, j requires 0 <= j < |withId| => AnalyzeSlot(mentor, withId[j]))
  }

  /** All mentors' slots, mentor after mentor. */
  function AllTimeSlots(mentors: seq<BookingCalendarClient.Mentor>): seq<ExtendedTimeSlot>
  {
    if mentors == [] then [] else AllTimeSlots(mentors[..|mentors| - 1]) + MentorTimeSlots(mentors[|mentors| - 1])
  }

  function SlotsWithId(mentor: BookingCalendarClient.Mentor): int
  {
    CountWhere(mentor.availableSlots, HasId)
  }

  /** The calendar holds one entry per slot with an id, over all mentors. */
  lemma {:induction false} AllTimeSlotsCount(mentors: seq<BookingCalendarClient.Mentor>)
    ensures |AllTimeSlots(mentors)| == SumInt(mentors, SlotsWithId)
  {
    if mentors != [] {
      AllTimeSlotsCount(mentors[..|mentors| - 1]);
    }
  }

  /** Every slot with an id of every mentor is in the calendar, annotated with that mentor. */
  lemma {:induction false} EverySlotListed(mentors: seq<BookingCalendarClient.Mentor>, m: BookingCalendarClient.Mentor, slot: LessonSlot)
    requires m in mentors && slot in m.availableSlots && slot.id != ""
    ensures AnalyzeSlot(m, slot) in AllTimeSlots(mentors)
  {
    var init := mentors[..|mentors| - 1];
    var last := mentors[|mentors| - 1];
    if m == last {
      var withId := Filter(last.availableSlots, HasId);
      assert slot in withId;
      var j :| 0 <= j < |withId| && withId[j] == slot;
      assert MentorTimeSlots(last)[j] == AnalyzeSlot(m, slot);
    } else {
      assert m in init;
      EverySlotListed(init, m, slot);
    }
  }

  /** Every calendar entry is the annotation of some mentor's slot with an id. */
  lemma {:induction false} EveryEntryFromASlot(mentors: seq<BookingCalendarClient.Mentor>, x: ExtendedTimeSlot)
    requires x in AllTimeSlots(mentors)
    ensures exists m, slot :: m in mentors && slot in m.availableSlots && slot.id != "" && x == AnalyzeSlot(m, slot)
  {
    var init := mentors[..|mentors| - 1];
    var last := mentors[|mentors| - 1];
    if x in AllTimeSlots(init) {
      EveryEntryFromASlot(init, x);
      var m, slot :| m in init && slot in m.availableSlots && slot.id != "" && x == AnalyzeSlot(m, slot);
      assert m in mentors;
    } else {
      var withId := Filter(last.availableSlots, HasId);
      var j :| 0 <= j < |withId| && MentorTimeSlots(last)[j] == x;
      assert withId[j] in withId;
    }
  }

  /** The mentors effect: an empty mentor list clears the calendar, otherwise slots are gathered mentor by mentor. */
  method CollectTimeSlots(mentors: seq<BookingCalendarClient.Mentor>) returns (allSlots: seq<ExtendedTimeSlot>)
    ensures allSlots == AllTimeSlots(mentors)
  {
    allSlots := [];
    if |mentors| == 0 {
      return;
    }
    for i := 0 to |mentors|
      invariant allSlots == AllTimeSlots(mentors[..i])
    {
      assert mentors[..i + 1][..i] == mentors[..i];
      var mentor := mentors[i];
      if |mentor.availableSlots| > 0 {
        var mentorSlots := CollectMentorSlots(mentor);
        allSlots := allSlots + mentorSlots;
      } else {
        assert MentorTimeSlots(mentor) == [];
      }
    }
    assert mentors[..|mentors|] == mentors;
  }

  /** `availableSlots.filter(slot => slot.id).map(...)` for one mentor. */
  method CollectMentorSlots(mentor: BookingCalendarClient.Mentor) returns (mentorSlots: seq<ExtendedTimeSlot>)
    ensures mentorSlots == MentorTimeSlots(mentor)
  {
    var withId := Filter(mentor.availableSlots, HasId);
    mentorSlots := [];
    for j := 0 to |withId|
      invariant |mentorSlots| == j
      invariant forall k :: 0 <= k < j ==> mentorSlots[k] == AnalyzeSlot(mentor, withId[k])
    {
      var x := AnalyzeSlotMethod(mentor, withId[j]);
      mentorSlots := mentorSlots + [x];
    }
  }

  // ----- days with an available slot -----

  function DayStartsOfAvailable(slots: seq<ExtendedTimeSlot>): (r: seq<int>)
    ensures forall d :: d in r <==> exists s :: s in slots && s.isAvailable && DayStart(s.start) == d
  {
    if slots == [] then []
    else
      var prev := DayStartsOfAvailable(slots[..|slots| - 1]);
      var s := slots[|slots| - 1];
      assert forall x :: x in slots <==> x in slots[..|slots| - 1] || x == s;
      prev + (if s.isAvailable then [DayStart(s.start)] else [])
  }

  /** The start-of-day instants of the available slots, each once, in order of first appearance. */
  function AvailableDays(slots: seq<ExtendedTimeSlot>): (r: seq<int>)
    ensures NoDuplicates(r)
    ensures forall d :: d in r <==> exists s :: s in slots && s.isAvailable && DayStart(s.start) == d
  {
    Distinct(DayStartsOfAvailable(slots))
  }

  // ----- other students' reservations on a chosen day -----

  /** A reservation as the day fetch returns it. */
  datatype FetchedReservation = FetchedReservation(
    id: string, slotId: string, status: Status, bookedStart: int, bookedEnd: int, studentId: string)

  /** One of the student's own reservations. */
  datatype MyReservation = MyReservation(id: string, slotId: string, status: Status, bookedStart: int, bookedEnd: int)

  function MyIds(mine: seq<MyReservation>): (r: seq<string>)
    ensures forall id :: id in r <==> exists m :: m in mine && m.id == id
  {
    if mine == [] then []
    else
      var prev := MyIds(mine[..|mine| - 1]);
      assert forall x :: x in mine <==> x in mine[..|mine| - 1] || x == mine[|mine| - 1];
      prev + [mine[|mine| - 1].id]
  }

  function OnDayAndNotMine(date: int, mine: seq<MyReservation>): FetchedReservation -> bool
  {
    (r: FetchedReservation) => DayOf(r.bookedStart) == DayOf(date) && r.id !in MyIds(mine)
  }

  /**
   * `fetchReservationsForDate`: the fetched reservations starting on the chosen calendar day that
   * are not the student's own, in fetched order; a failed fetch yields none.
   */
  function OtherReservationsForDate(fetched: Option<seq<FetchedReservation>>, date: int, mine: seq<MyReservation>): (r: seq<FetchedReservation>)
  {
    if fetched.None? then [] else Filter(fetched.value, OnDayAndNotMine(date, mine))
  }

  lemma OtherReservationsMembership(fetched: seq<FetchedReservation>, date: int, mine: seq<MyReservation>, x: FetchedReservation)
    ensures x in OtherReservationsForDate(Some(fetched), date, mine) <==>
      x in fetched && DayStart(date) <= x.bookedStart <= DayEnd(date) && forall m :: m in mine ==> m.id != x.id
  {
    SameDayIffWithinDay(date, x.bookedStart);
  }

  // ----- view state -----

  datatype View = Month | Day | Week

  class CalendarState {
    var currentView: View
    var selectedDateForDay: Option<int>
    var selectedDates: seq<int>
    var allTimeSlots: seq<ExtendedTimeSlot>
    var otherReservations: seq<FetchedReservation>

    /** The week view is never shown: it is always mapped to the month view. */
    predicate Valid()
      reads this
    {
      currentView != Week
    }

    constructor ()
      ensures Valid()
      ensures currentView == Month && selectedDateForDay.None? && selectedDates == []
      ensures allTimeSlots == [] && otherReservations == []
    {
      currentView := Month;
      selectedDateForDay := None;
      selectedDates := [];
      allTimeSlots := [];
      otherReservations := [];
    }

    /** The mentors effect. */
    method LoadMentors(mentors: seq<BookingCalendarClient.Mentor>)
      modifies this
      ensures allTimeSlots == AllTimeSlots(mentors)
      ensures currentView == old(currentView) && selectedDateForDay == old(selectedDateForDay)
      ensures selectedDates == old(selectedDates) && otherReservations == old(otherReservations)
    {
      allTimeSlots := CollectTimeSlots(mentors);
    }

    /** The day fetch, given the response (None when the request fails). */
    method FetchReservationsForDate(date: int, fetched: Option<seq<FetchedReservation>>, mine: seq<MyReservation>)
      modifies this
      ensures otherReservations == OtherReservationsForDate(fetched, date, mine)
      ensures currentView == old(currentView) && selectedDateForDay == old(selectedDateForDay)
      ensures selectedDates == old(selectedDates) && allTimeSlots == old(allTimeSlots)
    {
      otherReservations := OtherReservationsForDate(fetched, date, mine);
    }

    /** `handleDateClick`: switches to the day view of the clicked date. */
    method HandleDateClick(date: int)
      modifies this
      ensures Valid()
      ensures currentView == Day && selectedDateForDay == Some(date) && selectedDates == [date]
      ensures allTimeSlots == old(allTimeSlots) && otherReservations == old(otherReservations)
    {
      currentView := Day;
      selectedDateForDay := Some(date);
      selectedDates := [date];
    }

    /**
     * `handleViewChange`: 'week' shows the month view; leaving for the month (or week) view clears
     * the chosen day, the selected dates and the other students' reservations.
     */
    method HandleViewChange(view: View)
      modifies this
      ensures Valid()
      ensures currentView == (if view == Week then Month else view)
      ensures view != Day ==> selectedDateForDay.None? && selectedDates == [] && otherReservations == []
      ensures view == Day ==> (selectedDateForDay == old(selectedDateForDay) && selectedDates == old(selectedDates)
                               && otherReservations == old(otherReservations))
      ensures allTimeSlots == old(allTimeSlots)
    {
      if view == Week {
        currentView := Month;
      } else {
        currentView := view;
      }
      if view == Month || view == Week {
        selectedDateForDay := None;
        selectedDates := [];
        otherReservations := [];
      }
    }
  }
}
