// The student's booking calendar: which lesson slots still offer a free hour
// once their confirmed and pending reservations are clipped, sorted and merged,
// and the grouping of those slots into one entry per mentor.

module BookingCalendarClient {
  import opened Common
  import opened Bookings
  import opened Sorting

  /** A slot must keep at least 60 free minutes to be offered. */
  const MIN_LESSON_TIME: int := 60 * MINUTE_MS

  /** The merge looks at no more than the first 100 sorted intervals. */
  const MAX_MERGE_ITERATIONS: nat := 100

  /** Reservations that take time out of a slot here: CONFIRMED or PENDING. */
  predicate IsActive(r: SlotReservation)
  {
    r.status == Confirmed || r.status == Pending
  }

  // ----- booked intervals of a slot -----

  /** The active reservations' booked intervals, clipped to [lo, hi), empty clips dropped, in list order. */
  function ClippedIntervals(rs: seq<SlotReservation>, lo: int, hi: int): (r: seq<Interval>)
    ensures |r| <= |rs|
    ensures forall x :: x in r ==> lo <= x.start < x.end <= hi
  {
    if rs == [] then []
    else
      var prev := ClippedIntervals(rs[..|rs| - 1], lo, hi);
      var last := rs[|rs| - 1];
      if IsActive(last) && BookedInterval(last).Some? && Clip(BookedInterval(last).value, lo, hi).Some? then
        prev + [Clip(BookedInterval(last).value, lo, hi).value]
      else prev
  }

  function StartOf(iv: Interval): int
  {
    iv.start
  }

  /** Start times never decrease from one interval to the next. */
  predicate SortedByStart(s: seq<Interval>)
  {
    SortedBy(s, StartOf)
  }

  /** `intervals.sort((a, b) => a.start - b.start)`. */
  function SortByStart(s: seq<Interval>): (r: seq<Interval>)
    ensures |r| == |s|
  {
    SortBy(s, StartOf)
  }

  /**
   * The merge pass over sorted intervals: an interval starting no later than the end of the last
   * merged one extends it, any other starts a new merged interval.
   */
  function Merge(iv: seq<Interval>): (r: seq<Interval>)
    requires |iv| > 0
    ensures 0 < |r| <= |iv|
  {
    if |iv| == 1 then [iv[0]]
    else
      var m := Merge(iv[..|iv| - 1]);
      var c := iv[|iv| - 1];
      var l := m[|m| - 1];
      if c.start <= l.end then m[..|m| - 1] + [Interval(l.start, Max(l.end, c.end))]
      else m + [c]
  }

  function TotalLength(iv: seq<Interval>): int
  {
    SumInt(iv, Length)
  }

  /** The booked time of a slot: total length of the merged intervals from the first 100 sorted ones. */
  function BookedTime(slot: LessonSlot): int
  {
    var iv := ClippedIntervals(slot.reservations, slot.start, slot.end);
    if iv == [] then 0
    else
      var sorted := SortByStart(iv);
      TotalLength(Merge(sorted[..Min(|sorted|, MAX_MERGE_ITERATIONS)]))
  }

  /**
   * A slot is offered when its flag is set and either it has no reservations at all or its
   * duration minus the booked time leaves at least 60 minutes.
   */
  predicate Bookable(slot: LessonSlot)
  {
    slot.isAvailable
    && (|slot.reservations| == 0 || (slot.end - slot.start) - BookedTime(slot) >= MIN_LESSON_TIME)
  }

  // ----- properties of the merge -----

  predicate NonEmptyIntervals(s: seq<Interval>)
  {
    forall i :: 0 <= i < |s| ==> s[i].start < s[i].end
  }

  /** Merged intervals are non-empty and each ends strictly before the next begins. */
  predicate Separated(s: seq<Interval>)
  {
    NonEmptyIntervals(s) && forall i :: 0 <= i < |s| - 1 ==> s[i].end < s[i + 1].start
  }

  predicate CoveredBy(s: seq<Interval>, t: int)
  {
    exists i :: 0 <= i < |s| && Covers(s[i], t)
  }

  lemma CoveredByAppend(s: seq<Interval>, x: Interval, t: int)
    ensures CoveredBy(s + [x], t) <==> CoveredBy(s, t) || Covers(x, t)
  {
    if CoveredBy(s, t) {
      var i :| 0 <= i < |s| && Covers(s[i], t);
      assert (s + [x])[i] == s[i];
    }
    if Covers(x, t) {
      assert (s + [x])[|s|] == x;
    }
  }

  lemma TotalLengthAppend(s: seq<Interval>, x: Interval)
    ensures TotalLength(s + [x]) == TotalLength(s) + Length(x)
  {
    assert (s + [x])[..|s|] == s;
  }

  /** The last merged interval starts no later than the last input interval. */
  lemma {:induction false} MergeLastStart(iv: seq<Interval>)
    requires |iv| > 0 && SortedByStart(iv)
    ensures var r := Merge(iv); r[|r| - 1].start <= iv[|iv| - 1].start
  {
    if |iv| > 1 {
      var p := iv[..|iv| - 1];
      MergeLastStart(p);
      assert p[|p| - 1].start <= iv[|iv| - 1].start;
    }
  }

  lemma SeparatedAppend(s: seq<Interval>, x: Interval)
    requires Separated(s) && x.start < x.end
    requires s != [] ==> s[|s| - 1].end < x.start
    ensures Separated(s + [x])
  {
    var r := s + [x];
    assert forall i :: 0 <= i < |s| ==> r[i] == s[i];
  }

  lemma SeparatedInit(s: seq<Interval>)
    requires s != [] && Separated(s)
    ensures Separated(s[..|s| - 1])
  {
  }

  /** On sorted input the merged intervals are separated: non-empty, each ending before the next starts. */
  lemma {:induction false} MergeSeparated(iv: seq<Interval>)
    requires |iv| > 0 && SortedByStart(iv) && NonEmptyIntervals(iv)
    ensures Separated(Merge(iv))
  {
    if |iv| > 1 {
      var p := iv[..|iv| - 1];
      var c := iv[|iv| - 1];
      MergeSeparated(p);
      MergeLastStart(p);
      var m := Merge(p);
      var l := m[|m| - 1];
      assert p[|p| - 1].start <= c.start;
      if c.start <= l.end {
        var init := m[..|m| - 1];
        var n := Interval(l.start, Max(l.end, c.end));
        SeparatedInit(m);
        if init != [] {
          assert init[|init| - 1] == m[|m| - 2];
        }
        SeparatedAppend(init, n);
        assert Merge(iv) == init + [n];
      } else {
        SeparatedAppend(m, c);
        assert Merge(iv) == m + [c];
      }
    }
  }

  /** On sorted input the merged intervals cover exactly the instants the input intervals cover. */
  lemma {:induction false} MergeCoverage(iv: seq<Interval>, t: int)
    requires |iv| > 0 && SortedByStart(iv)
    ensures CoveredBy(Merge(iv), t) <==> CoveredBy(iv, t)
  {
    if |iv| == 1 {
      assert Merge(iv) == iv;
    } else {
      var p := iv[..|iv| - 1];
      var c := iv[|iv| - 1];
      assert iv == p + [c];
      MergeCoverage(p, t);
      MergeLastStart(p);
      var m := Merge(p);
      var l := m[|m| - 1];
      var init := m[..|m| - 1];
      assert m == init + [l];
      assert l.start <= c.start by {
        assert p[|p| - 1].start <= c.start;
      }
      CoveredByAppend(p, c, t);
      if c.start <= l.end {
        var n := Interval(l.start, Max(l.end, c.end));
        assert Merge(iv) == init + [n];
        CoveredByAppend(init, n, t);
        CoveredByAppend(init, l, t);
      } else {
        assert Merge(iv) == m + [c];
        CoveredByAppend(m, c, t);
      }
    }
  }

  /** Merging never adds booked time: the merged total is at most the raw total. */
  lemma {:induction false} MergeTotal(iv: seq<Interval>)
    requires |iv| > 0 && SortedByStart(iv) && NonEmptyIntervals(iv)
    ensures TotalLength(Merge(iv)) <= TotalLength(iv)
  {
    if |iv| == 1 {
      assert Merge(iv) == iv;
    } else {
      var p := iv[..|iv| - 1];
      var c := iv[|iv| - 1];
      assert iv == p + [c];
      MergeTotal(p);
      MergeLastStart(p);
      var m := Merge(p);
      var l := m[|m| - 1];
      var init := m[..|m| - 1];
      assert m == init + [l];
      assert l.start <= c.start by {
        assert p[|p| - 1].start <= c.start;
      }
      TotalLengthAppend(p, c);
      if c.start <= l.end {
        var n := Interval(l.start, Max(l.end, c.end));
        assert Merge(iv) == init + [n];
        TotalLengthAppend(init, n);
        TotalLengthAppend(init, l);
      } else {
        assert Merge(iv) == m + [c];
        TotalLengthAppend(m, c);
      }
    }
  }

  predicate Within(s: seq<Interval>, lo: int, hi: int)
  {
    forall i :: 0 <= i < |s| ==> lo <= s[i].start && s[i].end <= hi
  }

  /** Merging intervals that lie within [lo, hi) gives intervals within [lo, hi). */
  lemma {:induction false} MergeWithin(iv: seq<Interval>, lo: int, hi: int)
    requires |iv| > 0
    requires Within(iv, lo, hi)
    ensures Within(Merge(iv), lo, hi)
  {
    if |iv| > 1 {
      var p := iv[..|iv| - 1];
      assert forall i :: 0 <= i < |p| ==> p[i] == iv[i];
      MergeWithin(p, lo, hi);
      var m := Merge(p);
      var l := m[|m| - 1];
      var c := iv[|iv| - 1];
      var r := Merge(iv);
      assert lo <= c.start && c.end <= hi;
      assert lo <= l.start && l.end <= hi;
      if c.start <= l.end {
        assert forall i :: 0 <= i < |m| - 1 ==> r[i] == m[i];
        assert r[|r| - 1] == Interval(l.start, Max(l.end, c.end));
      } else {
        assert r == m + [c];
        assert forall i :: 0 <= i < |m| ==> r[i] == m[i];
        assert r[|m|] == c;
      }
    }
  }

  /** Separated intervals starting at or after `lo` total no more than the span up to the last end. */
  lemma {:induction false} SeparatedTotalWithinSpan(m: seq<Interval>, lo: int)
    requires |m| > 0 && Separated(m)
    requires forall i :: 0 <= i < |m| ==> lo <= m[i].start
    ensures TotalLength(m) <= m[|m| - 1].end - lo
  {
    var k := |m| - 1;
    if k > 0 {
      var p := m[..k];
      assert m == p + [m[k]];
      assert forall i :: 0 <= i < |p| ==> p[i] == m[i];
      SeparatedInit(m);
      SeparatedTotalWithinSpan(p, lo);
      TotalLengthAppend(p, m[k]);
      assert p[k - 1].end < m[k].start;
    } else {
      assert m == [] + [m[0]];
      TotalLengthAppend([], m[0]);
    }
  }

  /** Sorting and capping intervals that lie inside [lo, hi) keeps them sorted, non-empty and inside. */
  lemma SortedCappedWithin(iv: seq<Interval>, lo: int, hi: int)
    requires iv != []
    requires forall x :: x in iv ==> lo <= x.start < x.end <= hi
    ensures var sorted := SortByStart(iv);
      var capped := sorted[..Min(|sorted|, MAX_MERGE_ITERATIONS)];
      |capped| > 0 && SortedByStart(capped) && NonEmptyIntervals(capped) && Within(capped, lo, hi)
  {
    var sorted := SortByStart(iv);
    SortByProperties(iv, StartOf);
    SortByMembers(iv, StartOf);
  }

  /** Merging sorted non-empty intervals inside [lo, hi) yields a total between 0 and hi - lo. */
  lemma MergedTotalWithin(iv: seq<Interval>, lo: int, hi: int)
    requires |iv| > 0 && SortedByStart(iv) && NonEmptyIntervals(iv) && Within(iv, lo, hi)
    ensures 0 <= TotalLength(Merge(iv)) <= hi - lo
  {
    MergeSeparated(iv);
    MergeWithin(iv, lo, hi);
    var m := Merge(iv);
    SeparatedTotalWithinSpan(m, lo);
    SumIntNonNegative(m, Length);
  }

  /** The merged booked time never exceeds the slot's duration and is never negative. */
  lemma BookedTimeWithinSlot(slot: LessonSlot)
    ensures 0 <= BookedTime(slot)
    ensures ClippedIntervals(slot.reservations, slot.start, slot.end) != [] ==> BookedTime(slot) <= slot.end - slot.start
  {
    var iv := ClippedIntervals(slot.reservations, slot.start, slot.end);
    if iv != [] {
      var sorted := SortByStart(iv);
      var capped := sorted[..Min(|sorted|, MAX_MERGE_ITERATIONS)];
      SortedCappedWithin(iv, slot.start, slot.end);
      MergedTotalWithin(capped, slot.start, slot.end);
    }
  }

  /**
   * With at most 100 active bookings, an instant counts as booked exactly when some active
   * reservation's clipped interval covers it.
   */
  lemma MergedCoverageMatchesBookings(slot: LessonSlot, t: int)
    requires var iv := ClippedIntervals(slot.reservations, slot.start, slot.end); 0 < |iv| <= MAX_MERGE_ITERATIONS
    ensures var iv := ClippedIntervals(slot.reservations, slot.start, slot.end);
      CoveredBy(Merge(SortByStart(iv)), t) <==> CoveredBy(iv, t)
  {
    var iv := ClippedIntervals(slot.reservations, slot.start, slot.end);
    var sorted := SortByStart(iv);
    SortedCappedWithin(iv, slot.start, slot.end);
    assert sorted[..Min(|sorted|, MAX_MERGE_ITERATIONS)] == sorted;
    MergeCoverage(sorted, t);
    SortByProperties(iv, StartOf);
    SameElementsSameCoverage(iv, sorted, t);
  }

  lemma SameElementsSameCoverage(a: seq<Interval>, b: seq<Interval>, t: int)
    requires multiset(a) == multiset(b)
    ensures CoveredBy(a, t) <==> CoveredBy(b, t)
  {
    if CoveredBy(a, t) {
      var i :| 0 <= i < |a| && Covers(a[i], t);
      assert a[i] in multiset(b);
      var j :| 0 <= j < |b| && b[j] == a[i];
    }
    if CoveredBy(b, t) {
      var j :| 0 <= j < |b| && Covers(b[j], t);
      assert b[j] in multiset(a);
      var i :| 0 <= i < |a| && a[i] == b[j];
    }
  }

  /** A slot whose reservations are all inactive or outside it is offered iff it lasts an hour. */
  lemma UnbookedSlotNeedsAnHour(slot: LessonSlot)
    requires |slot.reservations| > 0
    requires ClippedIntervals(slot.reservations, slot.start, slot.end) == []
    ensures Bookable(slot) <==> slot.isAvailable && slot.end - slot.start >= MIN_LESSON_TIME
  {
  }

  /**
   * The hour rule applies only when the slot lists reservations: a 30-minute slot with no
   * reservations is offered, the same slot listing one cancelled reservation is not.
   */
  lemma HourRuleOnlyWithReservations()
    ensures var t := Teacher("t", None, None, None);
      var bare := LessonSlot("s", "t", 0, 30 * MINUTE_MS, true, None, t, []);
      var cancelled := SlotReservation("r", Cancelled, Some(0), Some(MINUTE_MS));
      Bookable(bare) && !Bookable(bare.(reservations := [cancelled]))
  {
    var t := Teacher("t", None, None, None);
    var bare := LessonSlot("s", "t", 0, 30 * MINUTE_MS, true, None, t, []);
    var cancelled := SlotReservation("r", Cancelled, Some(0), Some(MINUTE_MS));
    var rs := [cancelled];
    assert rs[..0] == [];
    assert ClippedIntervals(rs, 0, 30 * MINUTE_MS) == [];
  }

  // ----- the availability check as written -----

  /** The `forEach` over a slot's reservations that collects clipped booked intervals. */
  method CollectBookedIntervals(rs: seq<SlotReservation>, lo: int, hi: int) returns (intervals: seq<Interval>)
    ensures intervals == ClippedIntervals(rs, lo, hi)
  {
    intervals := [];
    for i := 0 to |rs|
      invariant intervals == ClippedIntervals(rs[..i], lo, hi)
    {
      assert rs[..i + 1][..i] == rs[..i];
      var r := rs[i];
      if IsActive(r) && r.bookedStart.Some? && r.bookedEnd.Some? {
        var effectiveStart := Max(r.bookedStart.value, lo);
        var effectiveEnd := Min(r.bookedEnd.value, hi);
        if effectiveStart < effectiveEnd {
          intervals := intervals + [Interval(effectiveStart, effectiveEnd)];
        }
      }
    }
    assert rs[..|rs|] == rs;
  }

  /** The merge loop, which stops after the first 100 sorted intervals. */
  method MergeCapped(sorted: seq<Interval>) returns (merged: seq<Interval>)
    requires |sorted| > 0
    ensures merged == Merge(sorted[..Min(|sorted|, MAX_MERGE_ITERATIONS)])
  {
    merged := [sorted[0]];
    var maxIterations := Min(|sorted|, MAX_MERGE_ITERATIONS);
    assert sorted[..1] == [sorted[0]];
    for i := 1 to maxIterations
      invariant merged == Merge(sorted[..i])
    {
      assert sorted[..i + 1][..i] == sorted[..i];
      var current := sorted[i];
      var lastMerged := merged[|merged| - 1];
      if current.start <= lastMerged.end {
        merged := merged[..|merged| - 1] + [Interval(lastMerged.start, Max(lastMerged.end, current.end))];
      } else {
        merged := merged + [current];
      }
    }
  }

  /** The `reduce` that totals interval lengths. */
  method SumLengths(merged: seq<Interval>) returns (total: int)
    ensures total == TotalLength(merged)
  {
    total := 0;
    for j := 0 to |merged|
      invariant total == TotalLength(merged[..j])
    {
      TotalLengthAppend(merged[..j], merged[j]);
      assert merged[..j + 1] == merged[..j] + [merged[j]];
      total := total + (merged[j].end - merged[j].start);
    }
    assert merged[..|merged|] == merged;
  }

  /** The availability check of one slot, as the filter callback does it. */
  method IsSlotBookable(slot: LessonSlot) returns (ok: bool)
    ensures ok == Bookable(slot)
  {
    if !slot.isAvailable {
      return false;
    }
    if |slot.reservations| == 0 {
      return true;
    }
    var intervals := CollectBookedIntervals(slot.reservations, slot.start, slot.end);
    var totalBookedTime := 0;
    if |intervals| > 0 {
      var sorted := SortByStart(intervals);
      var merged := MergeCapped(sorted);
      totalBookedTime := SumLengths(merged);
    }
    var slotDuration := slot.end - slot.start;
    var availableTime := slotDuration - totalBookedTime;
    ok := availableTime >= MIN_LESSON_TIME;
  }

  // ----- one entry per mentor -----

  datatype Mentor = Mentor(
    id: string,
    name: string,
    email: string,
    image: Option<string>,
    bio: string,
    avgRating: real,
    totalReviews: nat,
    availableSlots: seq<LessonSlot>,
    availableSlotsCount: nat)

  const NO_NAME: string := "名前なし"
  const BIO_FALLBACK_NAME: string := "講師"
  const BIO_SUFFIX: string := "は経験豊富なインストラクターです。"

  /** The teacher id of every slot, in slot order. */
  function TeacherIds(slots: seq<LessonSlot>): (r: seq<string>)
    ensures |r| == |slots| && forall i :: 0 <= i < |slots| ==> r[i] == slots[i].teacherId
  {
    seq(|slots|, i requires 0 <= i < |slots| => slots[i].teacherId)
  }

  /** Teacher ids in order of first appearance, each once (the insertion order of the grouping object). */
  function TeacherOrder(slots: seq<LessonSlot>): (r: seq<string>)
    ensures NoDuplicates(r)
    ensures forall id :: id in r <==> id in TeacherIds(slots)
  {
    if slots == [] then []
    else
      var prev := TeacherOrder(slots[..|slots| - 1]);
      var id := slots[|slots| - 1].teacherId;
      assert TeacherIds(slots) == TeacherIds(slots[..|slots| - 1]) + [id];
      if id in prev then prev else prev + [id]
  }

  function HasTeacher(id: string): LessonSlot -> bool
  {
    (s: LessonSlot) => s.teacherId == id
  }

  /** The entry of one mentor, built from the first of their slots. */
  function MentorFor(id: string, slots: seq<LessonSlot>): (m: Mentor)
    requires |slots| > 0
    ensures m.id == id && m.availableSlots == slots && m.availableSlotsCount == |slots|
    ensures m.name == StringOr(slots[0].teacher.name, NO_NAME)
  {
    var teacher := slots[0].teacher;
    Mentor(id, StringOr(teacher.name, NO_NAME), StringOr(teacher.email, ""), teacher.image,
           StringOr(teacher.name, BIO_FALLBACK_NAME) + BIO_SUFFIX, 4.5, 10, slots, |slots|)
  }

  lemma MentorsOfIndex(slots: seq<LessonSlot>, k: int)
    requires 0 <= k < |MentorsOf(slots)|
    ensures slots != []
    ensures var avail := Filter(slots, Bookable);
      var order := TeacherOrder(avail);
      |MentorsOf(slots)| == |order| && |Filter(avail, HasTeacher(order[k]))| > 0
      && MentorsOf(slots)[k] == MentorFor(order[k], Filter(avail, HasTeacher(order[k])))
  {
    FilterHasTeacherNonEmpty(Filter(slots, Bookable), TeacherOrder(Filter(slots, Bookable))[k]);
  }

  /** One entry per teacher of the given slots, in first-appearance order. */
  function MentorsFrom(avail: seq<LessonSlot>): (ms: seq<Mentor>)
    ensures |ms| == |TeacherOrder(avail)|
  {
    var order := TeacherOrder(avail);
    seq(|order|, k requires 0 <= k < |order| =>
      FilterHasTeacherNonEmpty(avail, order[k]);
      MentorFor(order[k], Filter(avail, HasTeacher(order[k]))))
  }

  /** The mentors offered to the student: the bookable slots grouped by teacher. */
  function MentorsOf(slots: seq<LessonSlot>): seq<Mentor>
  {
    if slots == [] then [] else MentorsFrom(Filter(slots, Bookable))
  }

  lemma FilterHasTeacherNonEmpty(avail: seq<LessonSlot>, id: string)
    requires id in TeacherOrder(avail)
    ensures |Filter(avail, HasTeacher(id))| > 0
  {
    var i :| 0 <= i < |avail| && TeacherIds(avail)[i] == id;
    assert HasTeacher(id)(avail[i]);
  }

  /** Each teacher gets exactly one entry: the mentor ids are distinct. */
  lemma MentorIdsDistinct(slots: seq<LessonSlot>)
    ensures var ms := MentorsOf(slots); forall a, b :: 0 <= a < b < |ms| ==> ms[a].id != ms[b].id
  {
    var ms := MentorsOf(slots);
    if slots != [] {
      forall a, b | 0 <= a < b < |ms|
        ensures ms[a].id != ms[b].id
      {
        MentorsOfIndex(slots, a);
        MentorsOfIndex(slots, b);
      }
    }
  }

  /** A mentor lists only bookable slots of their own, at least one, and counts them. */
  lemma MentorSlotsBookableAndOwn(slots: seq<LessonSlot>, k: int)
    requires 0 <= k < |MentorsOf(slots)|
    ensures var m := MentorsOf(slots)[k];
      (forall s :: s in m.availableSlots ==> s in slots && Bookable(s) && s.teacherId == m.id)
      && m.availableSlotsCount == |m.availableSlots| > 0
  {
    MentorsOfIndex(slots, k);
  }

  /** Every bookable slot is listed under the entry of its own teacher. */
  lemma EveryBookableSlotListed(slots: seq<LessonSlot>, s: LessonSlot)
    requires s in slots && Bookable(s)
    ensures var ms := MentorsOf(slots);
      exists k :: 0 <= k < |ms| && ms[k].id == s.teacherId && s in ms[k].availableSlots
  {
    var avail := Filter(slots, Bookable);
    var order := TeacherOrder(avail);
    assert s in avail;
    var i :| 0 <= i < |avail| && avail[i] == s;
    assert TeacherIds(avail)[i] == s.teacherId;
    assert s.teacherId in order;
    var k :| 0 <= k < |order| && order[k] == s.teacherId;
    MentorsOfIndex(slots, k);
    assert HasTeacher(order[k])(s);
  }

  /** The `filter` pass keeping the bookable slots. */
  method FilterBookable(slots: seq<LessonSlot>) returns (avail: seq<LessonSlot>)
    ensures avail == Filter(slots, Bookable)
  {
    avail := [];
    for i := 0 to |slots|
      invariant avail == Filter(slots[..i], Bookable)
    {
      FilterPrefixStep(slots, i, Bookable);
      var ok := IsSlotBookable(slots[i]);
      if ok {
        avail := avail + [slots[i]];
      }
    }
    assert slots[..|slots|] == slots;
  }

  /** A teacher not yet seen in a prefix has no slots in it. */
  lemma {:induction false} UnseenTeacherHasNoSlots(avail: seq<LessonSlot>, i: nat, id: string)
    requires i <= |avail| && id !in TeacherOrder(avail[..i])
    ensures Filter(avail[..i], HasTeacher(id)) == []
    decreases i
  {
    if i > 0 {
      assert avail[..i][..i - 1] == avail[..i - 1];
      assert TeacherOrder(avail[..i - 1]) <= TeacherOrder(avail[..i]);
      UnseenTeacherHasNoSlots(avail, i - 1, id);
      FilterPrefixStep(avail, i - 1, HasTeacher(id));
    }
  }

  /** The `forEach` that groups slots by teacher id into an object, keys in insertion order. */
  method GroupByTeacher(avail: seq<LessonSlot>) returns (order: seq<string>, groups: map<string, seq<LessonSlot>>)
    ensures order == TeacherOrder(avail)
    ensures forall id :: id in groups <==> id in order
    ensures forall id :: id in groups ==> groups[id] == Filter(avail, HasTeacher(id))
  {
    order := [];
    groups := map[];
    for i := 0 to |avail|
      invariant order == TeacherOrder(avail[..i])
      invariant forall id :: id in groups <==> id in order
      invariant forall id :: id in groups ==> groups[id] == Filter(avail[..i], HasTeacher(id))
    {
      assert avail[..i + 1][..i] == avail[..i];
      var id := avail[i].teacherId;
      if id !in groups {
        UnseenTeacherHasNoSlots(avail, i, id);
        groups := groups[id := []];
        order := order + [id];
      }
      groups := groups[id := groups[id] + [avail[i]]];
      forall other | other in groups
        ensures groups[other] == Filter(avail[..i + 1], HasTeacher(other))
      {
        FilterPrefixStep(avail, i, HasTeacher(other));
      }
    }
    assert avail[..|avail|] == avail;
  }

  /** The `map` over the grouping object's entries that builds one mentor per teacher. */
  method BuildMentors(avail: seq<LessonSlot>, order: seq<string>, groups: map<string, seq<LessonSlot>>) returns (mentors: seq<Mentor>)
    requires order == TeacherOrder(avail)
    requires forall id :: id in groups <==> id in order
    requires forall id :: id in groups ==> groups[id] == Filter(avail, HasTeacher(id))
    ensures mentors == MentorsFrom(avail)
  {
    ghost var expected := MentorsFrom(avail);
    mentors := [];
    for k := 0 to |order|
      invariant mentors == expected[..k]
    {
      FilterHasTeacherNonEmpty(avail, order[k]);
      mentors := mentors + [MentorFor(order[k], groups[order[k]])];
      assert expected[..k + 1] == expected[..k] + [expected[k]];
    }
    assert expected[..|order|] == expected;
  }

  /** `convertLessonSlotsToMentors`: filter, group by teacher, then build one entry per group. */
  method ConvertLessonSlotsToMentors(slots: seq<LessonSlot>) returns (mentors: seq<Mentor>)
    ensures mentors == MentorsOf(slots)
  {
    if |slots| == 0 {
      return [];
    }
    var avail := FilterBookable(slots);
    var order, groups := GroupByTeacher(avail);
    mentors := BuildMentors(avail, order, groups);
  }

  // ----- merging fetched reservations into their slots -----

  /** A reservation as fetched for the student's calendar. */
  datatype Reservation = Reservation(id: string, slotId: string, status: Status, bookedStart: Option<int>, bookedEnd: Option<int>)

  function AsSlotReservation(r: Reservation): SlotReservation
  {
    SlotReservation(r.id, r.status, r.bookedStart, r.bookedEnd)
  }

  function BelongsTo(slot: LessonSlot): Reservation -> bool
  {
    (r: Reservation) => r.slotId == slot.id && (r.status == Confirmed || r.status == Pending)
  }

  function SlotReservationsOf(slot: LessonSlot, reservations: seq<Reservation>): (r: seq<SlotReservation>)
    ensures |r| == CountWhere(reservations, BelongsTo(slot))
  {
    var own := Filter(reservations, BelongsTo(slot));
    seq(|own|, i requires 0 <= i < |own| => AsSlotReservation(own[i]))
  }

  /** `calculateSlotAvailability`: every slot keeps its fields and lists its CONFIRMED or PENDING reservations. */
  function CalculateSlotAvailability(slots: seq<LessonSlot>, reservations: seq<Reservation>): (r: seq<LessonSlot>)
    ensures |r| == |slots|
  {
    seq(|slots|, i requires 0 <= i < |slots| =>
      slots[i].(reservations := SlotReservationsOf(slots[i], reservations)))
  }

  /**
   * After the merge a slot lists a reservation exactly when it was fetched for that slot with
   * status CONFIRMED or PENDING; everything else about the slot is unchanged.
   */
  lemma SlotAvailabilityMembership(slots: seq<LessonSlot>, reservations: seq<Reservation>, i: int, x: Reservation)
    requires 0 <= i < |slots| && x in reservations
    ensures var s := CalculateSlotAvailability(slots, reservations)[i];
      s == slots[i].(reservations := s.reservations)
      && (AsSlotReservation(x) in s.reservations <== x.slotId == slots[i].id && (x.status == Confirmed || x.status == Pending))
    ensures var s := CalculateSlotAvailability(slots, reservations)[i];
      forall y :: y in s.reservations ==>
        exists z :: z in reservations && z.slotId == slots[i].id && (z.status == Confirmed || z.status == Pending) && y == AsSlotReservation(z)
  {
    var own := Filter(reservations, BelongsTo(slots[i]));
    var s := CalculateSlotAvailability(slots, reservations)[i];
    if x.slotId == slots[i].id && (x.status == Confirmed || x.status == Pending) {
      assert x in own;
      var k :| 0 <= k < |own| && own[k] == x;
      assert s.reservations[k] == AsSlotReservation(x);
    }
    forall y | y in s.reservations
      ensures exists z :: z in reservations && z.slotId == slots[i].id && (z.status == Confirmed || z.status == Pending) && y == AsSlotReservation(z)
    {
      var k :| 0 <= k < |s.reservations| && s.reservations[k] == y;
      assert own[k] in own;
      assert BelongsTo(slots[i])(own[k]);
    }
  }
}
