// The month grid of the student's calendar: which slots belong to a day, the
// day's overall booking status, and the capped lists of the student's own
// reservations and of slot tags shown in each cell.

module MonthView {
  import opened Common
  import opened Bookings
  import opened MentorCalendar

  // ----- the slots of a day -----

  /**
   * A slot is listed on a day when it is available and it starts that day, ends that day, or
   * starts before the day's first millisecond and ends after its last.
   */
  predicate OnDay(slot: ExtendedTimeSlot, date: int)
  {
    slot.isAvailable
    && (DayOf(slot.start) == DayOf(date) || DayOf(slot.end) == DayOf(date)
        || (slot.start < DayStart(date) && slot.end > DayEnd(date)))
  }

  function OnDayOf(date: int): ExtendedTimeSlot -> bool
  {
    (s: ExtendedTimeSlot) => OnDay(s, date)
  }

  function DaySlots(slots: seq<ExtendedTimeSlot>, date: int): (r: seq<ExtendedTimeSlot>)
    ensures forall s :: s in r <==> s in slots && OnDay(s, date)
  {
    Filter(slots, OnDayOf(date))
  }

  /** For a slot that does not end before it starts, the three cases amount to sharing an instant with the day. */
  lemma OnDayIffIntersects(slot: ExtendedTimeSlot, date: int)
    requires slot.start <= slot.end
    ensures OnDay(slot, date) <==> slot.isAvailable && slot.start <= DayEnd(date) && slot.end >= DayStart(date)
  {
    SameDayIffWithinDay(date, slot.start);
    SameDayIffWithinDay(date, slot.end);
  }

  // ----- the day's status -----

  /** `availableDays.some(d => isSameDay(d, date))`. */
  predicate IsAvailableDay(slots: seq<ExtendedTimeSlot>, date: int)
  {
    exists d :: d in AvailableDays(slots) && DayOf(d) == DayOf(date)
  }

  /** A day is available exactly when some available slot starts on it. */
  lemma AvailableDayIff(slots: seq<ExtendedTimeSlot>, date: int)
    ensures IsAvailableDay(slots, date) <==> exists s :: s in slots && s.isAvailable && DayOf(s.start) == DayOf(date)
  {
    if s :| s in slots && s.isAvailable && DayOf(s.start) == DayOf(date) {
      assert DayStart(s.start) in AvailableDays(slots);
    }
  }

  function HasStatus(st: BookingStatus): ExtendedTimeSlot -> bool
  {
    (s: ExtendedTimeSlot) => s.bookingStatus == st
  }

  function StatusCount(slots: seq<ExtendedTimeSlot>, st: BookingStatus): (n: nat)
    ensures n > 0 <==> exists s :: s in slots && s.bookingStatus == st
  {
    var matching := Filter(slots, HasStatus(st));
    assert matching != [] ==> matching[0] in matching;
    CountWhere(slots, HasStatus(st))
  }

  /**
   * Unavailable on a day without an available slot starting on it; full when some slot is full
   * and none is available; partial when some slot is partial or full; available otherwise.
   */
  function DayStatus(slots: seq<ExtendedTimeSlot>, date: int): BookingStatus
  {
    var daySlots := DaySlots(slots, date);
    if !IsAvailableDay(slots, date) then Unavailable
    else if StatusCount(daySlots, Full) > 0 && StatusCount(daySlots, Available) == 0 then Full
    else if StatusCount(daySlots, Partial) > 0 || StatusCount(daySlots, Full) > 0 then Partial
    else Available
  }

  predicate SomeOnDay(slots: seq<ExtendedTimeSlot>, date: int, st: BookingStatus)
  {
    exists s :: s in slots && OnDay(s, date) && s.bookingStatus == st
  }

  /** The day's status in terms of the statuses of the slots listed on it. */
  lemma DayStatusCases(slots: seq<ExtendedTimeSlot>, date: int)
    ensures var st := DayStatus(slots, date);
      (st == Unavailable <==> !IsAvailableDay(slots, date))
      && (st == Full <==> IsAvailableDay(slots, date) && SomeOnDay(slots, date, Full) && !SomeOnDay(slots, date, Available))
      && (st == Partial <==> IsAvailableDay(slots, date)
                             && (SomeOnDay(slots, date, Partial) || SomeOnDay(slots, date, Full))
                             && !(SomeOnDay(slots, date, Full) && !SomeOnDay(slots, date, Available)))
      && (st == Available <==> IsAvailableDay(slots, date)
                               && !SomeOnDay(slots, date, Partial) && !SomeOnDay(slots, date, Full))
  {
  }

  /**
   * A slot running from one day into the next is listed on the second day, yet that day is shown
   * unavailable when no slot starts on it.
   */
  lemma OvernightSlotOnUnavailableDay()
    ensures var slot := ExtendedTimeSlot("s", DAY_MS - HOUR_MS, DAY_MS + HOUR_MS, true, 5000, [], "m", "M",
                                         Available, 0, 0, 120, Some(0));
      OnDay(slot, DAY_MS) && DayStatus([slot], DAY_MS) == Unavailable
  {
    var slot := ExtendedTimeSlot("s", DAY_MS - HOUR_MS, DAY_MS + HOUR_MS, true, 5000, [], "m", "M",
                                 Available, 0, 0, 120, Some(0));
    AvailableDayIff([slot], DAY_MS);
  }

  // ----- capped lists -----

  /** `items.slice(0, cap)` and the "+n" count shown after it (0 when nothing is hidden). */
  function Capped<T>(items: seq<T>, cap: nat): (r: (seq<T>, nat))
    ensures |r.0| <= cap && |r.0| <= |items| && r.0 + items[|r.0|..] == items
    ensures r.1 == |items| - |r.0|
    ensures r.1 > 0 <==> |items| > cap
  {
    if |items| > cap then (items[..cap], |items| - cap) else (items, 0)
  }

  const OWN_RESERVATIONS_SHOWN: nat := 2
  const SLOT_TAGS_SHOWN: nat := 3

  /** The student's own reservations starting on the day in one of the four active statuses. */
  predicate OwnOnDay(r: MyReservation, date: int)
  {
    DayOf(r.bookedStart) == DayOf(date)
    && (r.status == Confirmed || r.status == Pending || r.status == Approved || r.status == PendingApproval)
  }

  function OwnOnDayOf(date: int): MyReservation -> bool
  {
    (r: MyReservation) => OwnOnDay(r, date)
  }

  /** What one cell of the grid shows. */
  datatype DayCell = DayCell(
    date: int,
    clickable: bool,
    status: BookingStatus,
    ownShown: seq<MyReservation>,
    ownMore: nat,
    tags: seq<ExtendedTimeSlot>,
    tagMore: nat,
    totalReservations: int)

  function ReservationCountOf(s: ExtendedTimeSlot): int
  {
    s.reservationCount
  }

  /**
   * One cell: the student's own reservations take priority (two shown, then "+n"); only a day
   * without them shows slot tags (three shown, then "+n"), and only when it is available and has
   * slots.
   */
  function Cell(slots: seq<ExtendedTimeSlot>, mine: seq<MyReservation>, date: int): DayCell
  {
    var daySlots := DaySlots(slots, date);
    var own := Filter(mine, OwnOnDayOf(date));
    var ownList := Capped(own, OWN_RESERVATIONS_SHOWN);
    var showTags := own == [] && IsAvailableDay(slots, date) && daySlots != [];
    var tagList := if showTags then Capped(daySlots, SLOT_TAGS_SHOWN) else ([], 0);
    DayCell(date, IsAvailableDay(slots, date), DayStatus(slots, date), ownList.0, ownList.1,
            tagList.0, tagList.1, SumInt(daySlots, ReservationCountOf))
  }

  /** The grid over the given calendar days; None is the empty state shown when no day is available. */
  function MonthGrid(slots: seq<ExtendedTimeSlot>, mine: seq<MyReservation>, days: seq<int>): (r: Option<seq<DayCell>>)
    ensures r.None? <==> forall s :: s in slots ==> !s.isAvailable
    ensures r.Some? ==> |r.value| == |days|
  {
    NoAvailableDaysIff(slots);
    if |AvailableDays(slots)| == 0 then None
    else Some(seq(|days|, i requires 0 <= i < |days| => Cell(slots, mine, days[i])))
  }

  /** The empty state is shown exactly when no slot is available. */
  lemma NoAvailableDaysIff(slots: seq<ExtendedTimeSlot>)
    ensures |AvailableDays(slots)| == 0 <==> forall s :: s in slots ==> !s.isAvailable
  {
    if s :| s in slots && s.isAvailable {
      assert DayStart(s.start) in AvailableDays(slots);
    }
    if |AvailableDays(slots)| > 0 {
      assert AvailableDays(slots)[0] in AvailableDays(slots);
    }
  }

  /** The cell shows at most two own reservations and three tags, never both kinds, and counts the rest. */
  lemma CellLists(slots: seq<ExtendedTimeSlot>, mine: seq<MyReservation>, date: int)
    ensures var c := Cell(slots, mine, date); var own := Filter(mine, OwnOnDayOf(date));
      |c.ownShown| <= 2 && c.ownShown + own[|c.ownShown|..] == own
      && |c.ownShown| + c.ownMore == |own|
      && |c.tags| <= 3 && (c.tags != [] ==> own == [] && c.clickable)
      && (c.tags != [] ==> c.tags + DaySlots(slots, date)[|c.tags|..] == DaySlots(slots, date)
                           && |c.tags| + c.tagMore == |DaySlots(slots, date)|)
  {
  }

  /** Clicking a slot tag opens the booking dialog only for an available or partly booked slot. */
  predicate TagOpensBooking(slot: ExtendedTimeSlot)
  {
    slot.bookingStatus == Available || slot.bookingStatus == Partial
  }

  /**
   * A tag opens the booking dialog exactly for a switched-on slot of positive length that is less
   * than nine-tenths booked; a switched-off slot never opens it.
   */
  lemma TagOpensBookingIff(mentor: BookingCalendarClient.Mentor, slot: LessonSlot)
    ensures !slot.isAvailable ==> !TagOpensBooking(AnalyzeSlot(mentor, slot))
    ensures slot.isAvailable && slot.start < slot.end ==>
      (TagOpensBooking(AnalyzeSlot(mentor, slot)) <==> 10 * BookedTimeOf(slot) < 9 * (slot.end - slot.start))
  {
    if slot.isAvailable && slot.start < slot.end {
      StatusOfPositiveSlot(mentor, slot);
      BookedTimeBounds(slot);
    }
  }
}
