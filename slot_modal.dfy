// The mentor's slot dialog: the form it edits, the defaults it is filled
// with, the validation run before saving, the instants a saved form stands
// for, and the status line shown for an existing slot.

module SlotModal {
  import opened Common
  import opened Bookings

  /** A slot as the dialog receives it; optional fields are None when absent. */
  datatype ModalSlot = ModalSlot(
    id: string,
    start: int,
    end: int,
    isAvailable: bool,
    hourlyRate: Option<int>,
    minDuration: Option<int>,
    maxDuration: Option<int>,
    description: Option<string>,
    reservations: seq<SlotReservation>)

  /** The form: start and end as "HH:mm" text, the rate in yen, and the duration bounds in minutes. */
  datatype FormData = FormData(
    startTime: string,
    endTime: string,
    hourlyRate: int,
    description: string,
    isAvailable: bool,
    minDuration: int,
    maxDuration: int)

  datatype ModalMode = View | Edit | Create

  // ----- "HH:mm" text -----

  /** Two decimal digits, as `format(…, 'HH')` / `'mm'` print an hour or a minute. */
  function TwoDigits(n: nat): (s: string)
    requires n < 100
    ensures s == [DigitChar(n / 10), DigitChar(n % 10)]
  {
    if n < 10 then
      assert NatToString(n) == [DigitChar(n)];
      PadStart2(NatToString(n))
    else
      assert NatToString(n / 10) == [DigitChar(n / 10)];
      PadStart2(NatToString(n))
  }

  function MinuteOfDay(t: int): (m: int)
    ensures 0 <= m < 24 * 60
  {
    (t - DayStart(t)) / MINUTE_MS
  }

  /** `format(t, 'HH:mm')`. */
  function ClockText(t: int): string
  {
    var m := MinuteOfDay(t);
    TwoDigits(m / 60) + ":" + TwoDigits(m % 60)
  }

  function DigitValue(c: char): int
  {
    c as int - '0' as int
  }

  predicate IsDigit(c: char)
  {
    '0' <= c <= '9'
  }

  /**
   * The minute of the day that `new Date("2024-01-01T" + s)` reads from an "HH:mm" text with an
   * hour up to 23 and a minute up to 59; None (an invalid date) for any other text.
   */
  function ParseClock(s: string): (r: Option<int>)
    ensures r.Some? ==> 0 <= r.value < 24 * 60
  {
    if |s| == 5 && IsDigit(s[0]) && IsDigit(s[1]) && s[2] == ':' && IsDigit(s[3]) && IsDigit(s[4]) then
      var h := DigitValue(s[0]) * 10 + DigitValue(s[1]);
      var m := DigitValue(s[3]) * 10 + DigitValue(s[4]);
      if h < 24 && m < 60 then Some(h * 60 + m) else None
    else None
  }

  lemma DigitCharValue(d: int)
    requires 0 <= d < 10
    ensures DigitValue(DigitChar(d)) == d
  {
  }

  /** Two digits read back as the number they print. */
  lemma TwoDigitsValue(n: nat)
    requires n < 100
    ensures var s := TwoDigits(n);
      |s| == 2 && IsDigit(s[0]) && IsDigit(s[1]) && DigitValue(s[0]) * 10 + DigitValue(s[1]) == n
  {
    DigitCharValue(n / 10);
    DigitCharValue(n % 10);
  }

  /** Two two-digit texts joined by a colon parse as the hour and minute they spell. */
  lemma ParseJoinedClock(hh: string, mm: string, h: int, mi: int)
    requires |hh| == 2 && IsDigit(hh[0]) && IsDigit(hh[1]) && DigitValue(hh[0]) * 10 + DigitValue(hh[1]) == h
    requires |mm| == 2 && IsDigit(mm[0]) && IsDigit(mm[1]) && DigitValue(mm[0]) * 10 + DigitValue(mm[1]) == mi
    requires 0 <= h < 24 && 0 <= mi < 60
    ensures ParseClock(hh + ":" + mm) == Some(h * 60 + mi)
  {
    var s := hh + ":" + mm;
    assert s[0] == hh[0] && s[1] == hh[1] && s[2] == ':' && s[3] == mm[0] && s[4] == mm[1];
  }

  /** An hour and a minute printed as "HH:mm" read back as that minute of the day. */
  lemma ClockDigitsRoundTrip(h: nat, mi: nat)
    requires h < 24 && mi < 60
    ensures ParseClock(TwoDigits(h) + ":" + TwoDigits(mi)) == Some(h * 60 + mi)
  {
    TwoDigitsValue(h);
    TwoDigitsValue(mi);
    ParseJoinedClock(TwoDigits(h), TwoDigits(mi), h, mi);
  }

  /** Reading back the "HH:mm" text of an instant gives its minute of the day. */
  lemma ClockTextRoundTrip(t: int)
    ensures ParseClock(ClockText(t)) == Some(MinuteOfDay(t))
  {
    var m := MinuteOfDay(t);
    assert ClockText(t) == TwoDigits(m / 60) + ":" + TwoDigits(m % 60);
    HourMinuteSplit(m);
    ClockDigitsRoundTrip(m / 60, m % 60);
  }

  lemma HourMinuteSplit(m: int)
    requires 0 <= m < 24 * 60
    ensures m / 60 < 24 && (m / 60) * 60 + m % 60 == m
  {
  }

  // ----- filling the form -----

  /** The form's initial state before any slot or date arrives. */
  function InitialForm(): FormData
  {
    FormData("", "", DEFAULT_HOURLY_RATE, "", true, 30, 120)
  }

  /** `n || fallback` on an optional number: a missing or zero value falls back. */
  function NumberOr(n: Option<int>, fallback: int): (r: int)
    ensures n.Some? && n.value != 0 ==> r == n.value
    ensures n.None? || n.value == 0 ==> r == fallback
  {
    if n.Some? && n.value != 0 then n.value else fallback
  }

  /** The form a given slot fills in: its own times and values, missing or zero numbers replaced by the defaults. */
  function FormForSlot(slot: ModalSlot): FormData
  {
    FormData(ClockText(slot.start), ClockText(slot.end), RateOrDefault(slot.hourlyRate),
             StringOr(slot.description, ""), slot.isAvailable,
             NumberOr(slot.minDuration, 30), NumberOr(slot.maxDuration, 120))
  }

  /**
   * What the form holds once the slot, the selected date and the mode are known: the slot's values
   * when there is a slot; 10:00 to 11:00 at 5000 yen, 30 to 120 minutes, when creating on a
   * selected date; otherwise the form is left as it was.
   */
  function LoadedForm(slot: Option<ModalSlot>, selectedDate: Option<int>, mode: ModalMode, prev: FormData): (f: FormData)
    ensures slot.None? && selectedDate.Some? && mode == Create ==>
      f == FormData("10:00", "11:00", 5000, "", true, 30, 120)
    ensures slot.None? && (selectedDate.None? || mode != Create) ==> f == prev
  {
    if slot.Some? then FormForSlot(slot.value)
    else if selectedDate.Some? && mode == Create then FormData("10:00", "11:00", 5000, "", true, 30, 120)
    else prev
  }

  /** A slot's form shows its own start and end minute and a rate that is never zero. */
  lemma FormForSlotReadsBack(slot: ModalSlot)
    ensures var f := FormForSlot(slot);
      ParseClock(f.startTime) == Some(MinuteOfDay(slot.start))
      && ParseClock(f.endTime) == Some(MinuteOfDay(slot.end))
      && f.hourlyRate != 0
      && (slot.hourlyRate.Some? && slot.hourlyRate.value != 0 ==> f.hourlyRate == slot.hourlyRate.value)
  {
    ClockTextRoundTrip(slot.start);
    ClockTextRoundTrip(slot.end);
  }

  /** The default create form passes validation. */
  lemma CreateDefaultsValid()
    ensures Validate(FormData("10:00", "11:00", 5000, "", true, 30, 120)).None?
  {
    assert ParseClock("10:00") == Some(600);
    assert ParseClock("11:00") == Some(660);
  }

  // ----- editing -----

  /** One `handleInputChange(field, value)` call, with the value typed by its field. */
  datatype Change =
    | StartTime(text: string)
    | EndTime(text: string)
    | HourlyRate(rate: int)
    | Description(text: string)
    | Availability(flag: bool)
    | MinDuration(minutes: int)
    | MaxDuration(minutes: int)

  /** The form with exactly the changed field replaced. */
  function Apply(f: FormData, c: Change): FormData
  {
    match c
    case StartTime(s) => f.(startTime := s)
    case EndTime(s) => f.(endTime := s)
    case HourlyRate(n) => f.(hourlyRate := n)
    case Description(s) => f.(description := s)
    case Availability(b) => f.(isAvailable := b)
    case MinDuration(n) => f.(minDuration := n)
    case MaxDuration(n) => f.(maxDuration := n)
  }

  /** A change sets the field it names and leaves the other six as they were; repeating it changes nothing more. */
  lemma ApplyChangesOneField(f: FormData, c: Change)
    ensures var g := Apply(f, c);
      (g.startTime == if c.StartTime? then c.text else f.startTime)
      && (g.endTime == if c.EndTime? then c.text else f.endTime)
      && (g.hourlyRate == if c.HourlyRate? then c.rate else f.hourlyRate)
      && (g.description == if c.Description? then c.text else f.description)
      && (g.isAvailable == if c.Availability? then c.flag else f.isAvailable)
      && (g.minDuration == if c.MinDuration? then c.minutes else f.minDuration)
      && (g.maxDuration == if c.MaxDuration? then c.minutes else f.maxDuration)
      && Apply(g, c) == g
  {
  }

  // ----- validation -----

  const MISSING_TIME: string := "開始時間と終了時間を入力してください。"
  const END_NOT_AFTER_START: string := "終了時間は開始時間より後にしてください。"
  const RATE_NOT_POSITIVE: string := "料金は0円より大きい金額を入力してください。"

  /**
   * `validateForm`: None when the form may be saved, otherwise the message shown. The times are
   * compared as instants of one day; an unreadable time makes the comparison false, so it is not
   * rejected here.
   */
  function Validate(f: FormData): (r: Option<string>)
    ensures r.Some? ==> r.value in {MISSING_TIME, END_NOT_AFTER_START, RATE_NOT_POSITIVE}
  {
    var start := ParseClock(f.startTime);
    var end := ParseClock(f.endTime);
    if f.startTime == "" || f.endTime == "" then Some(MISSING_TIME)
    else if start.Some? && end.Some? && end.value <= start.value then Some(END_NOT_AFTER_START)
    else if f.hourlyRate <= 0 then Some(RATE_NOT_POSITIVE)
    else None
  }

  /** On readable times, a form is accepted exactly when it ends after it starts and its rate is positive. */
  lemma ValidateReadableForm(f: FormData)
    requires ParseClock(f.startTime).Some? && ParseClock(f.endTime).Some?
    ensures Validate(f).None? <==>
      ParseClock(f.startTime).value < ParseClock(f.endTime).value && f.hourlyRate > 0
  {
  }

  /** Any empty time is reported first, whatever else is wrong. */
  lemma EmptyTimeReportedFirst(f: FormData)
    requires f.startTime == "" || f.endTime == ""
    ensures Validate(f) == Some(MISSING_TIME)
  {
  }

  /** A non-empty text that is not a time slips past the order check. */
  lemma UnreadableTimeNotRejected()
    ensures Validate(FormData("10:00", "later", 5000, "", true, 30, 120)).None?
  {
    assert ParseClock("later").None?;
  }

  // ----- saving -----

  /** The clock time `startTime.split(':').map(Number)` and `setHours` give on the target day. */
  function InstantOn(day: int, minuteOfDay: int): int
  {
    DayStart(day) + minuteOfDay * MINUTE_MS
  }

  /** An accepted form with readable times stands for a slot that starts before it ends, both on the target day. */
  lemma AcceptedFormIsOrderedOnDay(f: FormData, day: int)
    requires Validate(f).None? && ParseClock(f.startTime).Some? && ParseClock(f.endTime).Some?
    ensures var s := InstantOn(day, ParseClock(f.startTime).value);
      var e := InstantOn(day, ParseClock(f.endTime).value);
      s < e && DayOf(s) == DayOf(day) && DayOf(e) == DayOf(day)
  {
    var s := InstantOn(day, ParseClock(f.startTime).value);
    var e := InstantOn(day, ParseClock(f.endTime).value);
    SameDayIffWithinDay(day, s);
    SameDayIffWithinDay(day, e);
  }

  // ----- the status line -----

  datatype SlotStatus = Disabled | Reserved | OnHold | Open

  predicate AnyWithStatus(rs: seq<SlotReservation>, st: Status)
  {
    exists r :: r in rs && r.status == st
  }

  /** `getSlotStatus`. */
  function StatusOf(slot: ModalSlot): SlotStatus
  {
    if !slot.isAvailable then Disabled
    else if AnyWithStatus(slot.reservations, Confirmed) then Reserved
    else if AnyWithStatus(slot.reservations, Pending) then OnHold
    else Open
  }

  /** Priority: switched off, then any confirmed reservation, then any pending one, then open. */
  lemma StatusPriority(slot: ModalSlot)
    ensures StatusOf(slot) == Disabled <==> !slot.isAvailable
    ensures StatusOf(slot) == Reserved <==> slot.isAvailable && AnyWithStatus(slot.reservations, Confirmed)
    ensures StatusOf(slot) == OnHold <==>
      slot.isAvailable && !AnyWithStatus(slot.reservations, Confirmed) && AnyWithStatus(slot.reservations, Pending)
    ensures StatusOf(slot) == Open <==>
      slot.isAvailable && forall r :: r in slot.reservations ==> r.status != Confirmed && r.status != Pending
  {
  }

  // ----- the dialog's state -----

  class FormState {
    var formData: FormData
    var error: Option<string>

    constructor ()
      ensures formData == InitialForm() && error.None?
    {
      formData := FormData("", "", 5000, "", true, 30, 120);
      error := None;
    }

    /** The effect run when the slot, the date or the mode changes. */
    method Load(slot: Option<ModalSlot>, selectedDate: Option<int>, mode: ModalMode)
      modifies this
      ensures formData == LoadedForm(slot, selectedDate, mode, old(formData)) && error == old(error)
    {
      if slot.Some? {
        formData := FormForSlot(slot.value);
      } else if selectedDate.Some? && mode == Create {
        formData := FormData("10:00", "11:00", 5000, "", true, 30, 120);
      }
    }

    /** `handleInputChange`: one field changes and the error is cleared. */
    method HandleInputChange(c: Change)
      modifies this
      ensures formData == Apply(old(formData), c) && error.None?
    {
      formData := Apply(formData, c);
      error := None;
    }

    /** `validateForm`: reports whether the form may be saved and shows the message when not. */
    method ValidateForm() returns (ok: bool)
      modifies this
      ensures ok <==> Validate(formData).None?
      ensures formData == old(formData)
      ensures error == if ok then old(error) else Validate(formData)
    {
      var v := Validate(formData);
      ok := v.None?;
      if !ok {
        error := v;
      }
    }
  }
}
