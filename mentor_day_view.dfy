// The mentor's one-day timeline: which slots are shown on the day, the part
// of each slot drawn inside the day and the hour row it is drawn in, the
// quarter-hour a click on an empty row stands for, and the slot dialog state.

module MentorDayView {
  import opened Common
  import opened Bookings

  /** A slot as the mentor's timeline receives it; optional fields are None when absent. */
  datatype MentorSlot = MentorSlot(
    id: string,
    teacherId: string,
    start: int,
    end: int,
    isAvailable: bool,
    hourlyRate: Option<int>,
    currency: Option<string>,
    minDuration: Option<int>,
    maxDuration: Option<int>,
    reservations: seq<SlotReservation>)

  // ----- the slots of the day -----

  /**
   * Shown on the day when the slot starts within the day, ends within the day, or starts at or
   * before the day's first millisecond and ends at or after its last.
   */
  predicate ShownOnDay(slot: MentorSlot, date: int)
  {
    (DayStart(date) <= slot.start <= DayEnd(date))
    || (DayStart(date) <= slot.end <= DayEnd(date))
    || (slot.start <= DayStart(date) && slot.end >= DayEnd(date))
  }

  /** For a slot that does not end before it starts, the three cases say the slot meets the day. */
  lemma ShownOnDayIffMeets(slot: MentorSlot, date: int)
    requires slot.start <= slot.end
    ensures ShownOnDay(slot, date) <==> slot.start <= DayEnd(date) && slot.end >= DayStart(date)
  {
  }

  function ShownOn(date: int): MentorSlot -> bool
  {
    (s: MentorSlot) => ShownOnDay(s, date)
  }

  function DaySlots(slots: seq<MentorSlot>, date: int): (r: seq<MentorSlot>)
    ensures forall s :: s in r <==> s in slots && ShownOnDay(s, date)
  {
    Filter(slots, ShownOn(date))
  }

  // ----- drawing -----

  /** The part of the slot drawn on the day: its start and end, each cut at the day's bounds. */
  function DisplayInterval(slot: MentorSlot, date: int): (r: (int, int))
    ensures r.0 == Max(slot.start, DayStart(date)) && r.1 == Min(slot.end, DayEnd(date))
  {
    (if slot.start < DayStart(date) then DayStart(date) else slot.start,
     if slot.end > DayEnd(date) then DayEnd(date) else slot.end)
  }

  /** The hour of the day (0..23) of an instant, as `getHours()`. */
  function HourOf(t: int): (h: int)
    ensures 0 <= h < 24
  {
    (t - DayStart(t)) / HOUR_MS
  }

  /** The row a shown slot is drawn in: the hour of its drawn start. */
  function RowOf(slot: MentorSlot, date: int): int
  {
    HourOf(DisplayInterval(slot, date).0)
  }

  /**
   * A slot shown on the day is drawn inside the day, with a drawn start no later than its drawn
   * end, in the one hour row (of 24) whose hour contains the drawn start.
   */
  lemma DrawnOnceInsideDay(slot: MentorSlot, date: int)
    requires slot.start <= slot.end && ShownOnDay(slot, date)
    ensures var d := DisplayInterval(slot, date);
      DayStart(date) <= d.0 <= d.1 <= DayEnd(date)
      && DayOf(d.0) == DayOf(date)
      && 0 <= RowOf(slot, date) < 24
      && DayStart(date) + RowOf(slot, date) * HOUR_MS <= d.0 < DayStart(date) + (RowOf(slot, date) + 1) * HOUR_MS
  {
    var d := DisplayInterval(slot, date);
    SameDayIffWithinDay(date, d.0);
    assert DayStart(d.0) == DayStart(date);
  }

  // ----- creating a slot by clicking an empty row -----

  /** `Math.min(Math.round(clickY / 60 * 60 / 15) * 15, 45)`: the minute a click stands for. */
  function ClickMinute(clickY: real): int
  {
    Min(JsRound(clickY / 60.0 * 60.0 / 15.0) * 15, 45)
  }

  /**
   * A click inside a row gives a quarter hour from 0 to 45: the nearest one to the click height,
   * except in the lowest 7.5 pixels, which also give 45.
   */
  lemma ClickMinuteQuarter(clickY: real)
    requires 0.0 <= clickY
    ensures var m := ClickMinute(clickY); m in {0, 15, 30, 45}
    ensures clickY < 105.0 / 2.0 ==> -15.0 / 2.0 < ClickMinute(clickY) as real - clickY <= 15.0 / 2.0
    ensures clickY >= 105.0 / 2.0 ==> ClickMinute(clickY) == 45
  {
    var k := JsRound(clickY / 15.0);
    assert clickY / 60.0 * 60.0 / 15.0 == clickY / 15.0;
    assert k >= 0;
    if clickY < 105.0 / 2.0 {
      assert k <= 3;
    } else {
      assert k >= 4;
    }
  }

  /** The instant of a click at `clickY` in the row of `hour` on the day. */
  function ClickTime(date: int, hour: int, clickY: real): int
  {
    DayStart(date) + hour * HOUR_MS + ClickMinute(clickY) * MINUTE_MS
  }

  const TEMP_SLOT_ID: string := "temp-new"

  /** The draft slot the create dialog opens with: one hour from the chosen start, 5000 yen, 30 to 120 minutes. */
  function DraftSlot(startTime: int): (s: MentorSlot)
    ensures s.end - s.start == HOUR_MS && s.isAvailable && s.reservations == []
    ensures s.hourlyRate == Some(DEFAULT_HOURLY_RATE) && s.minDuration == Some(30) && s.maxDuration == Some(120)
  {
    MentorSlot(TEMP_SLOT_ID, "", startTime, startTime + HOUR_MS, true, Some(5000), Some("JPY"), Some(30), Some(120), [])
  }

  // ----- the slot dialog -----

  datatype Role = Student | Mentor | Admin
  datatype ModalMode = View | Edit | Create

  class DayViewState {
    var isModalOpen: bool
    var selectedSlot: Option<MentorSlot>
    var modalMode: ModalMode

    constructor ()
      ensures !isModalOpen && selectedSlot.None? && modalMode == View
    {
      isModalOpen := false;
      selectedSlot := None;
      modalMode := View;
    }

    /** `handleCreateSlot`: the create dialog without a draft. */
    method HandleCreateSlot()
      modifies this
      ensures isModalOpen && selectedSlot.None? && modalMode == Create
    {
      selectedSlot := None;
      modalMode := Create;
      isModalOpen := true;
    }

    /** `handleCreateSlotWithTime`: the create dialog with a one-hour draft starting at `startTime`. */
    method HandleCreateSlotWithTime(startTime: int)
      modifies this
      ensures isModalOpen && selectedSlot == Some(DraftSlot(startTime)) && modalMode == Create
    {
      var endTime := startTime + HOUR_MS;
      selectedSlot := Some(MentorSlot(TEMP_SLOT_ID, "", startTime, endTime, true, Some(5000), Some("JPY"), Some(30), Some(120), []));
      modalMode := Create;
      isModalOpen := true;
    }

    /** A click on the empty part of an hour row: only a mentor opens the create dialog, at the quarter hour clicked. */
    method HandleRowClick(role: Role, onEmptyArea: bool, date: int, hour: int, clickY: real)
      modifies this
      ensures role == Mentor && onEmptyArea ==>
        isModalOpen && modalMode == Create && selectedSlot == Some(DraftSlot(ClickTime(date, hour, clickY)))
      ensures !(role == Mentor && onEmptyArea) ==>
        isModalOpen == old(isModalOpen) && selectedSlot == old(selectedSlot) && modalMode == old(modalMode)
    {
      if role == Mentor && onEmptyArea {
        var minutes := JsRound(clickY / 60.0 * 60.0 / 15.0) * 15;
        var clickTime := DayStart(date) + hour * HOUR_MS + Min(minutes, 45) * MINUTE_MS;
        HandleCreateSlotWithTime(clickTime);
      }
    }

    /** `handleEditSlot`. */
    method HandleEditSlot(slot: MentorSlot)
      modifies this
      ensures isModalOpen && selectedSlot == Some(slot) && modalMode == Edit
    {
      selectedSlot := Some(slot);
      modalMode := Edit;
      isModalOpen := true;
    }

    /** `handleModalClose`: closes the dialog and forgets the slot; the mode is kept. */
    method HandleModalClose()
      modifies this
      ensures !isModalOpen && selectedSlot.None? && modalMode == old(modalMode)
    {
      isModalOpen := false;
      selectedSlot := None;
    }
  }
}
