// The lesson-slot store: creating slots with their defaults, the conflict
// test between a mentor's slots, expanding a weekly pattern into slots and
// inserting them only when none conflicts, deleting a slot only while no
// active reservation holds it, and the booked-capacity counter.

module LessonSlotsRepository {
  import opened Common

  datatype SlotStatus = Available | Booked | Cancelled

  datatype ReservationStatus = Pending | Approved | Paid | OtherStatus(name: string)

  datatype RepoReservation = RepoReservation(id: string, slotId: string, status: ReservationStatus)

  /** Free-form slot metadata, kept as given. */
  type Metadata = map<string, string>

  datatype CreateSlotInput = CreateSlotInput(
    mentorId: string,
    startTime: int,
    endTime: int,
    price: string,
    maxCapacity: Option<int>,
    tags: Option<seq<string>>,
    recurringId: Option<string>,
    metadata: Option<Metadata>)

  datatype RepoSlot = RepoSlot(
    id: string,
    mentorId: string,
    startTime: int,
    endTime: int,
    price: string,
    maxCapacity: int,
    currentCapacity: int,
    status: SlotStatus,
    tags: Option<seq<string>>,
    recurringId: Option<string>,
    metadata: Option<Metadata>)

  /** The row `create` inserts: one place, none taken, available, unless the input says otherwise. */
  function NewSlot(id: string, input: CreateSlotInput): (s: RepoSlot)
    ensures s.maxCapacity == (if input.maxCapacity.Some? then input.maxCapacity.value else 1)
    ensures s.currentCapacity == 0 && s.status == Available
    ensures s.mentorId == input.mentorId && s.startTime == input.startTime && s.endTime == input.endTime
  {
    RepoSlot(id, input.mentorId, input.startTime, input.endTime, input.price,
             if input.maxCapacity.Some? then input.maxCapacity.value else 1, 0, Available,
             input.tags, input.recurringId, input.metadata)
  }

  // ----- conflicts -----

  /** An existing slot blocks an interval for a mentor when it is that mentor's, not cancelled, and overlaps it. */
  predicate Blocks(s: RepoSlot, mentorId: string, start: int, end: int)
  {
    s.mentorId == mentorId && s.status != Cancelled && s.startTime < end && s.endTime > start
  }

  /** `hasConflict`: some slot other than the excluded one (an empty id excludes nothing) blocks the interval. */
  predicate HasConflict(slots: map<string, RepoSlot>, mentorId: string, start: int, end: int, exclude: Option<string>)
  {
    exists id :: id in slots && Blocks(slots[id], mentorId, start, end)
                 && !(exclude.Some? && exclude.value != "" && id == exclude.value)
  }

  /** Blocking is symmetric between two live slots of one mentor. */
  lemma BlocksSymmetric(a: RepoSlot, b: RepoSlot)
    requires a.status != Cancelled && b.status != Cancelled
    ensures Blocks(a, b.mentorId, b.startTime, b.endTime) <==> Blocks(b, a.mentorId, a.startTime, a.endTime)
  {
  }

  /** No two different live slots of one mentor overlap. */
  predicate NoOverlaps(slots: map<string, RepoSlot>)
  {
    forall a, b :: a in slots && b in slots && a != b && slots[a].status != Cancelled ==>
      !Blocks(slots[b], slots[a].mentorId, slots[a].startTime, slots[a].endTime)
  }

  // ----- weekly patterns -----

  /** A weekly pattern, its "HH:mm" times already split into hours and minutes. */
  datatype RecurringPattern = RecurringPattern(
    mentorId: string,
    startHour: int,
    startMinute: int,
    endHour: int,
    endMinute: int,
    price: string,
    maxCapacity: Option<int>,
    tags: Option<seq<string>>,
    daysOfWeek: seq<int>,
    startDate: int,
    endDate: int,
    metadata: Option<Metadata>)

  /** The instant the loop visits at step `k`: `startDate` moved on by `k` days. */
  function StepInstant(p: RecurringPattern, k: nat): int
  {
    p.startDate + k * DAY_MS
  }

  function StartOffset(p: RecurringPattern): int
  {
    p.startHour * HOUR_MS + p.startMinute * MINUTE_MS
  }

  function EndOffset(p: RecurringPattern): int
  {
    p.endHour * HOUR_MS + p.endMinute * MINUTE_MS
  }

  /** The slot for the day of `t`: `setHours` to the pattern's start and end on that day. */
  function SlotOn(p: RecurringPattern, recurringId: string, t: int): CreateSlotInput
  {
    CreateSlotInput(p.mentorId, DayStart(t) + StartOffset(p), DayStart(t) + EndOffset(p),
                    p.price, p.maxCapacity, p.tags, Some(recurringId), p.metadata)
  }

  predicate OnPatternDay(p: RecurringPattern, k: nat)
  {
    Weekday(StepInstant(p, k)) in p.daysOfWeek
  }

  function SlotAtStep(p: RecurringPattern, recurringId: string, k: nat): CreateSlotInput
  {
    SlotOn(p, recurringId, StepInstant(p, k))
  }

  /** The number of days the loop visits: those whose step instant is not after `endDate`. */
  function Steps(p: RecurringPattern): nat
  {
    if p.endDate < p.startDate then 0 else (p.endDate - p.startDate) / DAY_MS + 1
  }

  lemma StepsMeaning(p: RecurringPattern, k: nat)
    ensures k < Steps(p) <==> StepInstant(p, k) <= p.endDate
  {
    if p.endDate >= p.startDate {
      var q := (p.endDate - p.startDate) / DAY_MS;
      assert q * DAY_MS <= p.endDate - p.startDate < q * DAY_MS + DAY_MS;
      if k <= q {
        assert k * DAY_MS <= q * DAY_MS;
      } else {
        assert k * DAY_MS >= (q + 1) * DAY_MS;
      }
    }
  }

  /** The slots of the first `n` visited days. */
  function GeneratedUpTo(p: RecurringPattern, recurringId: string, n: nat): seq<CreateSlotInput>
  {
    if n == 0 then []
    else GeneratedUpTo(p, recurringId, n - 1)
         + (if OnPatternDay(p, n - 1) then [SlotAtStep(p, recurringId, n - 1)] else [])
  }

  function RecurringSlots(p: RecurringPattern, recurringId: string): seq<CreateSlotInput>
  {
    GeneratedUpTo(p, recurringId, Steps(p))
  }

  /** `generateRecurringSlots`, with the series id given. */
  method GenerateRecurringSlots(p: RecurringPattern, recurringId: string) returns (out: seq<CreateSlotInput>)
    ensures out == RecurringSlots(p, recurringId)
  {
    out := [];
    var current := p.startDate;
    ghost var k: nat := 0;
    while current <= p.endDate
      invariant current == StepInstant(p, k)
      invariant k <= Steps(p)
      invariant out == GeneratedUpTo(p, recurringId, k)
      decreases p.endDate - current
    {
      StepsMeaning(p, k);
      if Weekday(current) in p.daysOfWeek {
        out := out + [SlotOn(p, recurringId, current)];
      }
      current := current + DAY_MS;
      k := k + 1;
    }
    StepsMeaning(p, k);
  }

  /** `x` is the slot of some visited pattern day before step `n`. */
  predicate FromStep(p: RecurringPattern, recurringId: string, n: nat, x: CreateSlotInput)
  {
    exists k: nat :: k < n && OnPatternDay(p, k) && x == SlotAtStep(p, recurringId, k)
  }

  /** The generated slots are exactly the slots of the visited days whose weekday the pattern names. */
  lemma {:induction false} GeneratedMembers(p: RecurringPattern, recurringId: string, n: nat)
    ensures forall x :: x in GeneratedUpTo(p, recurringId, n) ==> FromStep(p, recurringId, n, x)
    ensures forall k: nat :: k < n && OnPatternDay(p, k) ==> SlotAtStep(p, recurringId, k) in GeneratedUpTo(p, recurringId, n)
  {
    if n > 0 {
      GeneratedMembers(p, recurringId, n - 1);
      var prev := GeneratedUpTo(p, recurringId, n - 1);
      var r := GeneratedUpTo(p, recurringId, n);
      forall x | x in r
        ensures FromStep(p, recurringId, n, x)
      {
        if x in prev {
          var k: nat :| k < n - 1 && OnPatternDay(p, k) && x == SlotAtStep(p, recurringId, k);
          assert k < n;
        } else {
          assert OnPatternDay(p, n - 1) && x == SlotAtStep(p, recurringId, n - 1);
        }
      }
    }
  }

  /** Every generated slot carries the pattern's mentor, price, capacity, tags, metadata and the series id. */
  lemma GeneratedCarryPattern(p: RecurringPattern, recurringId: string, n: nat)
    ensures forall x :: x in GeneratedUpTo(p, recurringId, n) ==>
      x.mentorId == p.mentorId && x.price == p.price && x.maxCapacity == p.maxCapacity
      && x.tags == p.tags && x.metadata == p.metadata && x.recurringId == Some(recurringId)
  {
    GeneratedMembers(p, recurringId, n);
  }

  lemma DayStartShift(t: int, k: nat)
    ensures DayStart(t + k * DAY_MS) == DayStart(t) + k * DAY_MS
  {
    var d := DayOf(t);
    assert d * DAY_MS <= t < d * DAY_MS + DAY_MS;
    assert (d + k) * DAY_MS <= t + k * DAY_MS < (d + k) * DAY_MS + DAY_MS;
    assert (t + k * DAY_MS) / DAY_MS == d + k;
  }

  /** Where the slot of step `k` starts and ends. */
  lemma StepTimes(p: RecurringPattern, recurringId: string, k: nat)
    ensures SlotAtStep(p, recurringId, k).startTime == DayStart(p.startDate) + k * DAY_MS + StartOffset(p)
    ensures SlotAtStep(p, recurringId, k).endTime == DayStart(p.startDate) + k * DAY_MS + EndOffset(p)
  {
    DayStartShift(p.startDate, k);
  }

  /** The generated slots come in strictly ascending order of start. */
  lemma {:induction false} GeneratedAscending(p: RecurringPattern, recurringId: string, n: nat)
    ensures Ascending(GeneratedUpTo(p, recurringId, n))
    ensures forall x :: x in GeneratedUpTo(p, recurringId, n) ==>
      x.startTime < DayStart(p.startDate) + n * DAY_MS + StartOffset(p)
  {
    if n > 0 {
      GeneratedAscending(p, recurringId, n - 1);
      StepTimes(p, recurringId, n - 1);
      var prev := GeneratedUpTo(p, recurringId, n - 1);
      var r := GeneratedUpTo(p, recurringId, n);
      var bound := DayStart(p.startDate) + (n - 1) * DAY_MS + StartOffset(p);
      assert bound + DAY_MS == DayStart(p.startDate) + n * DAY_MS + StartOffset(p);
      if OnPatternDay(p, n - 1) {
        var last := SlotAtStep(p, recurringId, n - 1);
        assert r == prev + [last];
        assert last.startTime == bound;
        forall i | 0 <= i < |r| - 1
          ensures r[i].startTime < r[i + 1].startTime
        {
          assert r[i] == prev[i] && prev[i] in prev;
          if i + 1 < |prev| {
            assert r[i + 1] == prev[i + 1];
          }
        }
      } else {
        assert r == prev;
      }
    }
  }

  /** With both times inside a day and the start first, two slots of different steps never overlap. */
  lemma StepsDisjoint(p: RecurringPattern, recurringId: string, k: nat, j: nat)
    requires 0 <= StartOffset(p) <= EndOffset(p) < DAY_MS
    requires k < j
    ensures var a := SlotAtStep(p, recurringId, k); var b := SlotAtStep(p, recurringId, j);
      a.endTime <= b.startTime
  {
    StepTimes(p, recurringId, k);
    StepTimes(p, recurringId, j);
    assert (k + 1) * DAY_MS <= j * DAY_MS;
  }

  /** Generated slots lie each within its day, ahead of the next, so no two of them overlap. */
  lemma GeneratedPairwiseDisjoint(p: RecurringPattern, recurringId: string)
    requires 0 <= StartOffset(p) <= EndOffset(p) < DAY_MS
    ensures var r := RecurringSlots(p, recurringId);
      forall i, j :: 0 <= i < j < |r| ==> r[i].endTime <= r[j].startTime
  {
    var r := RecurringSlots(p, recurringId);
    GeneratedMembers(p, recurringId, Steps(p));
    GeneratedAscending(p, recurringId, Steps(p));
    forall i, j | 0 <= i < j < |r|
      ensures r[i].endTime <= r[j].startTime
    {
      assert r[i] in r && r[j] in r;
      var ki: nat :| ki < Steps(p) && OnPatternDay(p, ki) && r[i] == SlotAtStep(p, recurringId, ki);
      var kj: nat :| kj < Steps(p) && OnPatternDay(p, kj) && r[j] == SlotAtStep(p, recurringId, kj);
      AscendingApart(r, i, j);
      StepTimes(p, recurringId, ki);
      StepTimes(p, recurringId, kj);
      assert ki < kj;
      StepsDisjoint(p, recurringId, ki, kj);
    }
  }

  /** Each slot starts before the next one. */
  predicate Ascending(r: seq<CreateSlotInput>)
  {
    forall x :: 0 <= x < |r| - 1 ==> r[x].startTime < r[x + 1].startTime
  }

  lemma {:induction false} AscendingApart(r: seq<CreateSlotInput>, i: int, j: int)
    requires Ascending(r)
    requires 0 <= i < j < |r|
    ensures r[i].startTime < r[j].startTime
    decreases j - i
  {
    if j > i + 1 {
      AscendingApart(r, i + 1, j);
    }
  }

  // ----- inserting many -----

  /** The rows `createMany` inserts, keyed by the ids the store gives them. */
  function Rows(inputs: seq<CreateSlotInput>, ids: seq<string>): (m: map<string, RepoSlot>)
    requires |ids| == |inputs|
    ensures forall id :: id in m <==> id in ids
  {
    if inputs == [] then map[]
    else Rows(inputs[..|inputs| - 1], ids[..|ids| - 1])[ids[|ids| - 1] := NewSlot(ids[|ids| - 1], inputs[|inputs| - 1])]
  }

  lemma {:induction false} RowsContent(inputs: seq<CreateSlotInput>, ids: seq<string>)
    requires |ids| == |inputs| && NoDuplicates(ids)
    ensures forall i :: 0 <= i < |ids| ==> Rows(inputs, ids)[ids[i]] == NewSlot(ids[i], inputs[i])
  {
    if inputs != [] {
      var n := |inputs| - 1;
      var init, initIds := inputs[..n], ids[..n];
      NoDuplicatesInit(ids);
      RowsContent(init, initIds);
      var m := Rows(init, initIds);
      assert Rows(inputs, ids) == m[ids[n] := NewSlot(ids[n], inputs[n])];
      forall i | 0 <= i < |ids|
        ensures Rows(inputs, ids)[ids[i]] == NewSlot(ids[i], inputs[i])
      {
        if i < n {
          assert ids[i] == initIds[i] && inputs[i] == init[i];
          assert ids[i] != ids[n];
        }
      }
    }
  }

  // ----- the store -----

  class SlotRepository {
    var slots: map<string, RepoSlot>
    var reservations: seq<RepoReservation>

    /** Every stored slot has a non-negative count of places taken and is stored under its own id. */
    predicate Valid()
      reads this
    {
      forall id :: id in slots ==> slots[id].currentCapacity >= 0 && slots[id].id == id
    }

    constructor (reservations: seq<RepoReservation>)
      ensures slots == map[] && this.reservations == reservations && Valid()
    {
      slots := map[];
      this.reservations := reservations;
    }

    /** `create`, with `id` the fresh id the store assigns. */
    method Create(input: CreateSlotInput, id: string) returns (slot: RepoSlot)
      requires Valid() && id !in slots
      modifies this
      ensures slot == NewSlot(id, input) && slots == old(slots)[id := slot]
      ensures reservations == old(reservations) && Valid()
    {
      slot := NewSlot(id, input);
      slots := slots[id := slot];
    }

    /** `createMany`, with `ids` the fresh ids the store assigns, one per input. */
    method CreateMany(inputs: seq<CreateSlotInput>, ids: seq<string>) returns (created: seq<RepoSlot>)
      requires Valid() && |ids| == |inputs| && NoDuplicates(ids)
      requires forall id :: id in ids ==> id !in slots
      modifies this
      ensures |created| == |inputs| && forall i :: 0 <= i < |inputs| ==> created[i] == NewSlot(ids[i], inputs[i])
      ensures slots == old(slots) + Rows(inputs, ids)
      ensures reservations == old(reservations) && Valid()
    {
      if |inputs| == 0 {
        created := [];
        assert Rows(inputs, ids) == map[];
        assert slots + map[] == slots;
        return;
      }
      created := seq(|inputs|, i requires 0 <= i < |inputs| => NewSlot(ids[i], inputs[i]));
      RowsContent(inputs, ids);
      slots := slots + Rows(inputs, ids);
      forall id | id in slots
        ensures slots[id].currentCapacity >= 0 && slots[id].id == id
      {
        if id in ids {
          var i :| 0 <= i < |ids| && ids[i] == id;
        }
      }
    }

    /** `hasConflict` against the current table. */
    function Conflicts(mentorId: string, start: int, end: int, exclude: Option<string>): bool
      reads this
    {
      HasConflict(slots, mentorId, start, end, exclude)
    }

    /**
     * `createRecurring`: the pattern's slots are checked one by one against the stored slots; the
     * first conflict aborts with nothing inserted, otherwise all are inserted.
     */
    method CreateRecurring(p: RecurringPattern, recurringId: string, ids: seq<string>) returns (r: Result<seq<RepoSlot>>)
      requires Valid() && |ids| == |RecurringSlots(p, recurringId)| && NoDuplicates(ids)
      requires forall id :: id in ids ==> id !in slots
      modifies this
      ensures var gen := RecurringSlots(p, recurringId);
        (r.Err? <==> exists g :: g in gen && HasConflict(old(slots), g.mentorId, g.startTime, g.endTime, None))
        && (r.Err? ==> slots == old(slots))
        && (r.Ok? ==> slots == old(slots) + Rows(gen, ids) && |r.value| == |gen|)
      ensures reservations == old(reservations) && Valid()
    {
      var gen := GenerateRecurringSlots(p, recurringId);
      var i := 0;
      while i < |gen|
        invariant 0 <= i <= |gen|
        invariant forall j :: 0 <= j < i ==> !HasConflict(slots, gen[j].mentorId, gen[j].startTime, gen[j].endTime, None)
      {
        if Conflicts(gen[i].mentorId, gen[i].startTime, gen[i].endTime, None) {
          return Err("Conflict detected for slot at " + IntToString(gen[i].startTime));
        }
        i := i + 1;
      }
      var created := CreateMany(gen, ids);
      r := Ok(created);
    }

    /** `delete`: refused while a pending, approved or paid reservation holds the slot; otherwise the removed row, if any. */
    method Delete(slotId: string) returns (r: Result<Option<RepoSlot>>)
      requires Valid()
      modifies this
      ensures (r.Err? <==> HeldByActive(reservations, slotId))
      ensures r.Err? ==> slots == old(slots)
      ensures r.Ok? ==> (slots == old(slots) - {slotId}
        && r.value == (if slotId in old(slots) then Some(old(slots)[slotId]) else None))
      ensures reservations == old(reservations) && Valid()
    {
      var i := 0;
      while i < |reservations|
        invariant 0 <= i <= |reservations|
        invariant forall j :: 0 <= j < i ==> !(reservations[j].slotId == slotId && IsActiveReservation(reservations[j]))
      {
        if reservations[i].slotId == slotId && IsActiveReservation(reservations[i]) {
          return Err("Cannot delete slot with active reservations");
        }
        i := i + 1;
      }
      r := Ok(if slotId in slots then Some(slots[slotId]) else None);
      slots := slots - {slotId};
    }

    /** `incrementCapacity`: one more place taken, and booked once all are; None for an unknown id. */
    method IncrementCapacity(slotId: string) returns (r: Option<RepoSlot>)
      requires Valid()
      modifies this
      ensures slotId in old(slots) ==> r == Some(Incremented(old(slots)[slotId])) && slots == old(slots)[slotId := r.value]
      ensures slotId !in old(slots) ==> r.None? && slots == old(slots)
      ensures reservations == old(reservations) && Valid()
    {
      if slotId !in slots {
        return None;
      }
      var s := slots[slotId];
      var updated := s.(currentCapacity := s.currentCapacity + 1);
      slots := slots[slotId := updated];
      if updated.currentCapacity >= updated.maxCapacity {
        updated := updated.(status := Booked);
        slots := slots[slotId := updated];
      }
      r := Some(updated);
    }

    /** `decrementCapacity`: one place fewer, never below zero, and available again; None for an unknown id. */
    method DecrementCapacity(slotId: string) returns (r: Option<RepoSlot>)
      requires Valid()
      modifies this
      ensures slotId in old(slots) ==> r == Some(Decremented(old(slots)[slotId])) && slots == old(slots)[slotId := r.value]
      ensures slotId !in old(slots) ==> r.None? && slots == old(slots)
      ensures reservations == old(reservations) && Valid()
    {
      if slotId !in slots {
        return None;
      }
      var s := slots[slotId];
      var updated := s.(currentCapacity := Max(s.currentCapacity - 1, 0), status := Available);
      slots := slots[slotId := updated];
      r := Some(updated);
    }
  }

  predicate IsActiveReservation(r: RepoReservation)
  {
    r.status == Pending || r.status == Approved || r.status == Paid
  }

  predicate HeldByActive(reservations: seq<RepoReservation>, slotId: string)
  {
    exists r :: r in reservations && r.slotId == slotId && IsActiveReservation(r)
  }

  function Incremented(s: RepoSlot): RepoSlot
  {
    var t := s.(currentCapacity := s.currentCapacity + 1);
    if t.currentCapacity >= t.maxCapacity then t.(status := Booked) else t
  }

  function Decremented(s: RepoSlot): RepoSlot
  {
    s.(currentCapacity := Max(s.currentCapacity - 1, 0), status := Available)
  }

  /**
   * Taking a place raises the count by one and books the slot exactly when it is then full; giving
   * one back after it restores the count and makes the slot available, whatever it was before.
   */
  lemma CapacityRoundTrip(s: RepoSlot)
    requires s.currentCapacity >= 0
    ensures Incremented(s).currentCapacity == s.currentCapacity + 1
    ensures Incremented(s).status == (if s.currentCapacity + 1 >= s.maxCapacity then Booked else s.status)
    ensures Decremented(Incremented(s)).currentCapacity == s.currentCapacity
    ensures Decremented(Incremented(s)).status == Available
    ensures Decremented(s).currentCapacity >= 0 && Decremented(s).currentCapacity == Max(s.currentCapacity - 1, 0)
  {
  }

  /** Giving back a place on a cancelled slot makes it available again. */
  lemma DecrementRevivesCancelled(s: RepoSlot)
    requires s.status == Cancelled
    ensures Decremented(s).status == Available
  {
  }

  /**
   * Inserting a conflict-free weekly series keeps a store without overlaps free of them, provided
   * the pattern's times lie inside a day with the start first.
   */
  lemma RecurringKeepsNoOverlaps(slots: map<string, RepoSlot>, p: RecurringPattern, recurringId: string, ids: seq<string>)
    requires NoOverlaps(slots)
    requires 0 <= StartOffset(p) <= EndOffset(p) < DAY_MS
    requires |ids| == |RecurringSlots(p, recurringId)| && NoDuplicates(ids)
    requires forall id :: id in ids ==> id !in slots
    requires forall g :: g in RecurringSlots(p, recurringId) ==> !HasConflict(slots, g.mentorId, g.startTime, g.endTime, None)
    ensures NoOverlaps(slots + Rows(RecurringSlots(p, recurringId), ids))
  {
    GeneratedPairwiseDisjoint(p, recurringId);
    InsertApartKeepsNoOverlaps(slots, RecurringSlots(p, recurringId), ids);
  }

  /** Inserting ordered, pairwise apart slots none of which the store blocks keeps it free of overlaps. */
  lemma InsertApartKeepsNoOverlaps(slots: map<string, RepoSlot>, gen: seq<CreateSlotInput>, ids: seq<string>)
    requires NoOverlaps(slots)
    requires |ids| == |gen| && NoDuplicates(ids)
    requires forall id :: id in ids ==> id !in slots
    requires forall x, y :: 0 <= x < y < |gen| ==> gen[x].endTime <= gen[y].startTime
    requires forall g :: g in gen ==> !HasConflict(slots, g.mentorId, g.startTime, g.endTime, None)
    ensures NoOverlaps(slots + Rows(gen, ids))
  {
    var rows := Rows(gen, ids);
    var after := slots + rows;
    RowsContent(gen, ids);
    forall a, b | a in after && b in after && a != b && after[a].status != Cancelled
      ensures !Blocks(after[b], after[a].mentorId, after[a].startTime, after[a].endTime)
    {
      if a in ids && b in ids {
        var i :| 0 <= i < |ids| && ids[i] == a;
        var j :| 0 <= j < |ids| && ids[j] == b;
        assert after[a] == NewSlot(a, gen[i]) && after[b] == NewSlot(b, gen[j]);
        GeneratedApart(gen, i, j, b);
      } else if a in ids {
        var i :| 0 <= i < |ids| && ids[i] == a;
        assert gen[i] in gen;
        assert after[b] == slots[b];
        assert !Blocks(slots[b], gen[i].mentorId, gen[i].startTime, gen[i].endTime);
      } else if b in ids {
        var j :| 0 <= j < |ids| && ids[j] == b;
        assert gen[j] in gen;
        assert after[a] == slots[a];
        assert !Blocks(slots[a], gen[j].mentorId, gen[j].startTime, gen[j].endTime);
      }
    }
  }

  /** Two different slots of an ordered, non-overlapping series do not block each other. */
  lemma GeneratedApart(gen: seq<CreateSlotInput>, i: nat, j: nat, id: string)
    requires i < |gen| && j < |gen| && i != j
    requires forall x, y :: 0 <= x < y < |gen| ==> gen[x].endTime <= gen[y].startTime
    ensures !Blocks(NewSlot(id, gen[j]), gen[i].mentorId, gen[i].startTime, gen[i].endTime)
  {
    if i < j {
      assert gen[i].endTime <= gen[j].startTime;
    } else {
      assert gen[j].endTime <= gen[i].startTime;
    }
  }
}
