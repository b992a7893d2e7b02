// The student's lesson booking page: the mentor list drawn from the slots,
// the filter over date, mentor, price and tags, the toggles and the reset of
// the filter panel, and opening and closing the booking dialog.

module LessonsPage {
  import opened Common
  import opened Bookings

  datatype SlotMentor = SlotMentor(id: string, name: string, email: string)

  /** A slot as the page receives it; `price` is the raw price text, None when absent. */
  datatype PageSlot = PageSlot(
    id: string,
    startTime: int,
    endTime: int,
    price: Option<string>,
    mentor: Option<SlotMentor>,
    tags: Option<seq<string>>)

  // ----- the mentor list -----

  /** `slot.mentor?.id`, kept only when it is there and not empty (`filter(Boolean)`). */
  function MentorIdOf(s: PageSlot): Option<string>
  {
    if s.mentor.Some? && s.mentor.value.id != "" then Some(s.mentor.value.id) else None
  }

  predicate HasMentorId(s: PageSlot, id: string)
  {
    s.mentor.Some? && s.mentor.value.id == id
  }

  /** Some slot's mentor has the id. */
  predicate MentorOfSome(slots: seq<PageSlot>, id: string)
  {
    exists s :: s in slots && HasMentorId(s, id)
  }

  /** The non-empty mentor ids of the slots, in slot order, repeats included. */
  function MentorIds(slots: seq<PageSlot>): (r: seq<string>)
    ensures forall id :: id in r <==> id != "" && MentorOfSome(slots, id)
  {
    if slots == [] then []
    else
      var init := slots[..|slots| - 1];
      var rest := MentorIds(init);
      var last := slots[|slots| - 1];
      assert slots == init + [last];
      assert forall id :: MentorOfSome(slots, id) <==> MentorOfSome(init, id) || HasMentorId(last, id);
      if MentorIdOf(last).Some? then rest + [MentorIdOf(last).value] else rest
  }

  /** The first slot whose mentor has the id (`slots.find`). */
  function FirstWithMentor(slots: seq<PageSlot>, id: string): (r: Option<PageSlot>)
    ensures r.Some? <==> exists s :: s in slots && HasMentorId(s, id)
    ensures r.Some? ==> r.value in slots && HasMentorId(r.value, id)
    ensures r.Some? && slots != [] && HasMentorId(slots[0], id) ==> r.value == slots[0]
  {
    if slots == [] then None
    else if HasMentorId(slots[0], id) then Some(slots[0])
    else
      var r := FirstWithMentor(slots[1..], id);
      assert forall s :: s in slots <==> s == slots[0] || s in slots[1..];
      r
  }

  datatype MentorEntry = MentorEntry(id: string, name: string)

  /** The name shown for a mentor: the first matching slot's mentor name, or "Unknown" when it is empty. */
  function MentorName(slots: seq<PageSlot>, id: string): (n: string)
    ensures n != ""
  {
    var first := FirstWithMentor(slots, id);
    if first.Some? && first.value.mentor.value.name != "" then first.value.mentor.value.name else "Unknown"
  }

  /** The mentors offered by the filter panel: each non-empty mentor id once, in order of first appearance. */
  function Mentors(slots: seq<PageSlot>): (r: seq<MentorEntry>)
    ensures |r| <= |MentorIds(slots)|
  {
    var ids := Distinct(MentorIds(slots));
    DistinctNoLonger(MentorIds(slots));
    seq(|ids|, i requires 0 <= i < |ids| => MentorEntry(ids[i], MentorName(slots, ids[i])))
  }

  lemma DistinctNoLonger(s: seq<string>)
    ensures |Distinct(s)| <= |s|
  {
    var d := Distinct(s);
    ElementsCardinality(d);
    SubsetCardinality(set x | x in d, set x | x in s);
    CardinalityOfElements(s);
  }

  lemma {:induction false} CardinalityOfElements(s: seq<string>)
    ensures |set x | x in s| <= |s|
  {
    if s != [] {
      var init := s[..|s| - 1];
      CardinalityOfElements(init);
      assert s == init + [s[|s| - 1]];
      assert (set x | x in s) == (set x | x in init) + {s[|s| - 1]};
    }
  }

  predicate Lists(m: seq<MentorEntry>, id: string)
  {
    exists i :: 0 <= i < |m| && m[i].id == id
  }

  /**
   * The mentor list holds every non-empty mentor id of the slots exactly once, and nothing else;
   * each entry is named after the first slot of that mentor.
   */
  lemma MentorsListed(slots: seq<PageSlot>)
    ensures var m := Mentors(slots);
      (forall i, j :: 0 <= i < j < |m| ==> m[i].id != m[j].id)
      && (forall id :: Lists(m, id) <==> id != "" && MentorOfSome(slots, id))
      && (forall i :: 0 <= i < |m| ==> m[i].name == MentorName(slots, m[i].id))
  {
    var ids := Distinct(MentorIds(slots));
    var m := Mentors(slots);
    assert forall i :: 0 <= i < |m| ==> m[i].id == ids[i];
    forall i | 0 <= i < |m|
      ensures m[i].id != "" && MentorOfSome(slots, m[i].id)
    {
      assert ids[i] in ids;
    }
    forall id | id != "" && MentorOfSome(slots, id)
      ensures Lists(m, id)
    {
      assert id in ids;
      var i :| 0 <= i < |ids| && ids[i] == id;
      assert m[i].id == id;
    }
  }

  // ----- toggles -----

  /** The filter callback `y => y !== x`. */
  function Other(x: string): string -> bool
  {
    (y: string) => y != x
  }

  /** `toggleTag` / `toggleMentor`: removes every copy of `x` when present, appends it otherwise. */
  function Toggle(xs: seq<string>, x: string): (r: seq<string>)
    ensures x in r <==> x !in xs
    ensures forall i :: 0 <= i < |r| ==> r[i] in xs || r[i] == x
  {
    if x in xs then Filter(xs, Other(x)) else xs + [x]
  }

  /** Toggling flips the membership of `x` and of nothing else, and keeps a list without repeats free of them. */
  lemma {:induction false} ToggleFlips(xs: seq<string>, x: string)
    ensures x in Toggle(xs, x) <==> x !in xs
    ensures forall y :: y != x ==> (y in Toggle(xs, x) <==> y in xs)
    ensures NoDuplicates(xs) ==> NoDuplicates(Toggle(xs, x))
  {
    if x in xs {
      assert forall y :: Other(x)(y) <==> y != x;
      FilterKeepsNoDuplicates(xs, Other(x));
    }
  }

  lemma {:induction false} FilterKeepsNoDuplicates(xs: seq<string>, p: string -> bool)
    ensures NoDuplicates(xs) ==> NoDuplicates(Filter(xs, p))
  {
    if xs != [] && NoDuplicates(xs) {
      var init := xs[..|xs| - 1];
      NoDuplicatesInit(xs);
      FilterKeepsNoDuplicates(init, p);
      assert xs[|xs| - 1] !in init;
      assert Filter(xs, p) == if p(xs[|xs| - 1]) then Filter(init, p) + [xs[|xs| - 1]] else Filter(init, p);
    }
  }

  /** Toggling twice restores membership; starting without `x` it restores the very list. */
  lemma ToggleTwice(xs: seq<string>, x: string)
    ensures forall y :: y in Toggle(Toggle(xs, x), x) <==> y in xs
    ensures x !in xs ==> Toggle(Toggle(xs, x), x) == xs
  {
    ToggleFlips(xs, x);
    ToggleFlips(Toggle(xs, x), x);
    if x !in xs {
      FilterDropsAbsent(xs, x);
      assert Filter(xs + [x], Other(x)) == Filter(xs, Other(x));
    }
  }

  lemma {:induction false} FilterDropsAbsent(xs: seq<string>, x: string)
    requires x !in xs
    ensures Filter(xs, Other(x)) == xs
  {
    if xs != [] {
      var init, last := xs[..|xs| - 1], xs[|xs| - 1];
      assert xs == init + [last];
      assert x !in init by {
        forall i | 0 <= i < |init|
          ensures init[i] != x
        {
          assert init[i] == xs[i];
        }
      }
      assert last != x by {
        assert xs[|xs| - 1] in xs;
      }
      FilterDropsAbsent(init, x);
      assert Other(x)(last);
    }
  }

  // ----- the filter -----

  /** The filter panel's settings. `timeSlot` is held but not consulted by the filter. */
  datatype Filters = Filters(
    selectedDate: int,
    selectedMentors: seq<string>,
    priceLow: real,
    priceHigh: real,
    timeSlot: string,
    selectedTags: seq<string>)

  /** `parseFloat(slot.price?.toString() || "0")`, with the number parser as a parameter (None for NaN). */
  function SlotPrice(s: PageSlot, parseFloat: string -> Option<real>): Option<real>
  {
    parseFloat(StringOr(s.price, "0"))
  }

  predicate MatchesMentor(s: PageSlot, f: Filters)
  {
    |f.selectedMentors| == 0 || (if s.mentor.Some? then s.mentor.value.id else "") in f.selectedMentors
  }

  predicate MatchesPrice(s: PageSlot, f: Filters, parseFloat: string -> Option<real>)
  {
    var p := SlotPrice(s, parseFloat);
    p.Some? && f.priceLow <= p.value && p.value <= f.priceHigh
  }

  predicate MatchesTags(s: PageSlot, f: Filters)
  {
    |f.selectedTags| == 0 || (s.tags.Some? && exists t :: t in f.selectedTags && t in s.tags.value)
  }

  predicate Passes(s: PageSlot, f: Filters, parseFloat: string -> Option<real>)
  {
    DayOf(s.startTime) == DayOf(f.selectedDate) && MatchesMentor(s, f)
    && MatchesPrice(s, f, parseFloat) && MatchesTags(s, f)
  }

  function PassesWith(f: Filters, parseFloat: string -> Option<real>): PageSlot -> bool
  {
    (s: PageSlot) => Passes(s, f, parseFloat)
  }

  /** `filteredSlots`. */
  function FilteredSlots(slots: seq<PageSlot>, f: Filters, parseFloat: string -> Option<real>): (r: seq<PageSlot>)
    ensures forall s :: s in r <==> s in slots && Passes(s, f, parseFloat)
  {
    Filter(slots, PassesWith(f, parseFloat))
  }

  /**
   * A slot is listed exactly when it starts on the selected day, no mentor is selected or its
   * mentor is, its price reads as a number within the range, and no tag is selected or it carries
   * one of the selected tags; the time-of-day setting changes nothing.
   */
  lemma FilterMeaning(slots: seq<PageSlot>, f: Filters, parseFloat: string -> Option<real>, timeSlot: string)
    ensures forall s :: s in FilteredSlots(slots, f, parseFloat) <==>
      s in slots
      && DayStart(s.startTime) == DayStart(f.selectedDate)
      && (f.selectedMentors == [] || (s.mentor.Some? && s.mentor.value.id in f.selectedMentors)
          || (s.mentor.None? && "" in f.selectedMentors))
      && SlotPrice(s, parseFloat).Some?
      && f.priceLow <= SlotPrice(s, parseFloat).value <= f.priceHigh
      && (f.selectedTags == [] || (s.tags.Some? && exists t :: t in f.selectedTags && t in s.tags.value))
    ensures FilteredSlots(slots, f.(timeSlot := timeSlot), parseFloat) == FilteredSlots(slots, f, parseFloat)
  {
    forall s: PageSlot
      ensures DayStart(s.startTime) == DayStart(f.selectedDate) <==> DayOf(s.startTime) == DayOf(f.selectedDate)
    {
      SameDayIffWithinDay(f.selectedDate, s.startTime);
    }
    FilterCongruent(slots, PassesWith(f.(timeSlot := timeSlot), parseFloat), PassesWith(f, parseFloat));
  }

  /** The settings the reset button restores, keeping the date. */
  function Reset(f: Filters): (g: Filters)
    ensures g.selectedDate == f.selectedDate
  {
    Filters(f.selectedDate, [], 0.0, 15000.0, "all", [])
  }

  /** After a reset only the day and the 0 to 15000 yen range decide which slots are listed. */
  lemma ResetListsByDayAndPrice(slots: seq<PageSlot>, f: Filters, parseFloat: string -> Option<real>)
    ensures forall s :: s in FilteredSlots(slots, Reset(f), parseFloat) <==>
      s in slots && DayOf(s.startTime) == DayOf(f.selectedDate)
      && SlotPrice(s, parseFloat).Some? && 0.0 <= SlotPrice(s, parseFloat).value <= 15000.0
  {
  }

  // ----- the booking dialog -----

  datatype SelectedSlot = SelectedSlot(id: string, startTime: int, endTime: int, price: string,
                                       mentor: Option<(string, string)>)

  function FindById(slots: seq<PageSlot>, id: string): (r: Option<PageSlot>)
    ensures r.Some? <==> exists s :: s in slots && s.id == id
    ensures r.Some? ==> r.value in slots && r.value.id == id
  {
    if slots == [] then None
    else if slots[0].id == id then Some(slots[0])
    else
      assert forall s :: s in slots <==> s == slots[0] || s in slots[1..];
      FindById(slots[1..], id)
  }

  function Selection(s: PageSlot): SelectedSlot
  {
    SelectedSlot(s.id, s.startTime, s.endTime, StringOr(s.price, "0"),
                 if s.mentor.Some? then Some((s.mentor.value.name, s.mentor.value.email)) else None)
  }

  datatype Dialog = Dialog(isModalOpen: bool, selectedSlot: Option<SelectedSlot>)

  /** `handleBooking`: opens the dialog on the slot with the id, and changes nothing when there is none. */
  function HandleBooking(d: Dialog, slots: seq<PageSlot>, id: string): (r: Dialog)
    ensures (exists s :: s in slots && s.id == id) ==> r.isModalOpen && r.selectedSlot.Some? && r.selectedSlot.value.id == id
    ensures (forall s :: s in slots ==> s.id != id) ==> r == d
  {
    var found := FindById(slots, id);
    if found.Some? then Dialog(true, Some(Selection(found.value))) else d
  }

  /** `handleCloseModal`. */
  function HandleCloseModal(d: Dialog): (r: Dialog)
    ensures !r.isModalOpen && r.selectedSlot.None?
  {
    Dialog(false, None)
  }

  /** The selection carries the slot's times and its price text, "0" when it has none. */
  lemma SelectionCopiesSlot(slots: seq<PageSlot>, id: string, d: Dialog)
    requires exists s :: s in slots && s.id == id
    ensures var r := HandleBooking(d, slots, id);
      exists s :: s in slots && s.id == id && r.selectedSlot == Some(Selection(s))
        && Selection(s).startTime == s.startTime && Selection(s).endTime == s.endTime
        && Selection(s).price == (if s.price.Some? && s.price.value != "" then s.price.value else "0")
  {
    var found := FindById(slots, id);
    assert found.value in slots;
  }
}
