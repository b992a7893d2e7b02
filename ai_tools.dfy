// The tools the chat assistant may call: searching open lesson slots,
// booking a slot, reporting a subscription's usage against this module's own
// limit table, and the dispatch from a tool name to its handler.

module AiTools {
  import opened Common
  import Sorting
  import SR = SubscriptionsRepository
  import LR = LessonSlotsRepository

  // ----- this module's limit table -----

  /** `getAIMaterialsLimit`: 3 for freemium, starter and any unknown tier; unlimited (-1) for basic and premium. */
  function AiMaterialsLimit(tier: string): (l: int)
    ensures l == -1 <==> tier == "basic" || tier == "premium"
    ensures l != -1 ==> l == 3
  {
    if tier == "freemium" || tier == "starter" then 3
    else if tier == "basic" then -1
    else if tier == "premium" then -1
    else 3
  }

  /** `getReservationsLimit`: 1 for freemium, starter and any unknown tier; 5 for basic; unlimited for premium. */
  function ReservationsLimit(tier: string): (l: int)
    ensures l == -1 <==> tier == "premium"
    ensures tier == "basic" ==> l == 5
    ensures tier != "basic" && tier != "premium" ==> l == 1
  {
    if tier == "freemium" || tier == "starter" then 1
    else if tier == "basic" then 5
    else if tier == "premium" then -1
    else 1
  }

  /**
   * This table and the subscription table's disagree: a starter subscriber is told 3 materials
   * and 1 reservation here but allowed 20 and 5 there, and basic is unlimited here but 50 there.
   */
  lemma LimitTablesDisagree()
    ensures AiMaterialsLimit("starter") == 3 && SR.TierLimits(SR.Starter).aiMaterialsLimit == 20
    ensures ReservationsLimit("starter") == 1 && SR.TierLimits(SR.Starter).reservationsLimit == 5
    ensures AiMaterialsLimit("basic") == -1 && SR.TierLimits(SR.Basic).aiMaterialsLimit == 50
    ensures forall t: SR.Tier :: ReservationsLimit(SR.TierName(t)) == -1 <==> SR.TierLimits(t).reservationsLimit == -1
  {
  }

  // ----- getSubscriptionStatus -----

  datatype Usage = Usage(aiMaterials: int, aiMaterialsLimit: int, reservations: int, reservationsLimit: int)

  /** The reported tier and status as stored (None when the column is empty), the period's end and the usage. */
  datatype StatusReport = StatusReport(tier: Option<string>, status: SR.Status, currentPeriodEnd: Option<int>, usage: Usage)

  /** The issue a ZodError reports when a `z.string().uuid()` argument is not a UUID. */
  const INVALID_UUID: string := "Invalid uuid"

  /**
   * `executeGetSubscriptionStatus`: `getSubscriptionStatusSchema.parse` throws unless the user id is
   * a UUID, before the database is read; otherwise the report for the user's latest subscription.
   */
  function ExecuteGetSubscriptionStatus(userId: string, latest: Option<SR.Subscription>): (r: Result<StatusReport>)
    ensures r.Err? <==> !IsUuid(userId)
    ensures r.Err? ==> r.error == INVALID_UUID
    ensures r.Ok? ==> r.value == GetSubscriptionStatus(latest)
  {
    if !IsUuid(userId) then Err(INVALID_UUID) else Ok(GetSubscriptionStatus(latest))
  }

  /**
   * The report once the arguments are valid, given the user's most recent subscription of any
   * status: without one, freemium and active with 0 of 3 materials and 0 of 1 reservation.
   */
  function GetSubscriptionStatus(latest: Option<SR.Subscription>): (r: StatusReport)
    ensures latest.None? ==> r == StatusReport(Some("freemium"), SR.Active, None, Usage(0, 3, 0, 1))
    ensures latest.Some? ==> (r.tier == latest.value.tier && r.status == latest.value.status
      && r.usage.aiMaterials == latest.value.aiMaterialsUsed && r.usage.reservations == latest.value.reservationsUsed)
  {
    if latest.None? then StatusReport(Some("freemium"), SR.Active, None, Usage(0, 3, 0, 1))
    else
      var s := latest.value;
      var name := if s.tier.Some? then s.tier.value else "";
      StatusReport(s.tier, s.status, s.currentPeriodEnd,
                   Usage(s.aiMaterialsUsed, AiMaterialsLimit(name), s.reservationsUsed, ReservationsLimit(name)))
  }

  /**
   * The report's limits are this module's for the stored tier name; an empty or unknown tier gets
   * the same limits as having no subscription at all.
   */
  lemma StatusReportLimits(latest: Option<SR.Subscription>)
    requires latest.Some?
    ensures var r := GetSubscriptionStatus(latest);
      var name := if latest.value.tier.Some? then latest.value.tier.value else "";
      r.usage.aiMaterialsLimit == AiMaterialsLimit(name) && r.usage.reservationsLimit == ReservationsLimit(name)
      && (name !in {"basic", "premium"} ==> r.usage.aiMaterialsLimit == GetSubscriptionStatus(None).usage.aiMaterialsLimit)
      && (name !in {"basic", "premium"} ==> r.usage.reservationsLimit == GetSubscriptionStatus(None).usage.reservationsLimit)
  {
  }

  // ----- searchAvailableSlots -----

  const SEARCH_LIMIT: nat := 20

  predicate SearchMatches(s: LR.RepoSlot, startDate: int, endDate: int, mentorId: Option<string>)
  {
    s.status == LR.Available && startDate <= s.startTime < endDate && (mentorId.None? || s.mentorId == mentorId.value)
  }

  function StartOf(s: LR.RepoSlot): int
  {
    s.startTime
  }

  /**
   * `executeSearchAvailableSlots`: `searchAvailableSlotsSchema.parse` throws when a mentor id is
   * given that is not a UUID; otherwise the search below.
   */
  function ExecuteSearchAvailableSlots(rows: seq<LR.RepoSlot>, startDate: int, endDate: int, mentorId: Option<string>): (r: Result<seq<LR.RepoSlot>>)
    ensures r.Err? <==> mentorId.Some? && !IsUuid(mentorId.value)
    ensures r.Err? ==> r.error == INVALID_UUID
    ensures r.Ok? ==> r.value == SearchAvailableSlots(rows, startDate, endDate, mentorId) && |r.value| <= SEARCH_LIMIT
  {
    if mentorId.Some? && !IsUuid(mentorId.value) then Err(INVALID_UUID)
    else Ok(SearchAvailableSlots(rows, startDate, endDate, mentorId))
  }

  /** The search once the arguments are valid, over the slot rows: the open slots starting in the range, earliest first, at most 20. */
  function SearchAvailableSlots(rows: seq<LR.RepoSlot>, startDate: int, endDate: int, mentorId: Option<string>): (r: seq<LR.RepoSlot>)
    ensures |r| <= SEARCH_LIMIT
  {
    var sorted := SortedMatches(rows, startDate, endDate, mentorId);
    sorted[..Min(SEARCH_LIMIT, |sorted|)]
  }

  /** The matching rows, earliest first, before the limit is applied. */
  function SortedMatches(rows: seq<LR.RepoSlot>, startDate: int, endDate: int, mentorId: Option<string>): seq<LR.RepoSlot>
  {
    Sorting.SortBy(Filter(rows, (s: LR.RepoSlot) => SearchMatches(s, startDate, endDate, mentorId)), StartOf)
  }

  lemma SortedMatchesMeaning(rows: seq<LR.RepoSlot>, startDate: int, endDate: int, mentorId: Option<string>)
    ensures var sorted := SortedMatches(rows, startDate, endDate, mentorId);
      Sorting.SortedBy(sorted, StartOf)
      && forall s :: s in sorted <==> s in rows && SearchMatches(s, startDate, endDate, mentorId)
  {
    var matching := Filter(rows, (s: LR.RepoSlot) => SearchMatches(s, startDate, endDate, mentorId));
    Sorting.SortByProperties(matching, StartOf);
    Sorting.SortByMembers(matching, StartOf);
  }

  /** Every slot found matches, and they come earliest first. */
  lemma SearchFindsMatches(rows: seq<LR.RepoSlot>, startDate: int, endDate: int, mentorId: Option<string>)
    ensures var r := SearchAvailableSlots(rows, startDate, endDate, mentorId);
      (forall s :: s in r ==> s in rows && SearchMatches(s, startDate, endDate, mentorId))
      && Sorting.SortedBy(r, StartOf)
  {
    var sorted := SortedMatches(rows, startDate, endDate, mentorId);
    SortedMatchesMeaning(rows, startDate, endDate, mentorId);
    assert SearchAvailableSlots(rows, startDate, endDate, mentorId) == sorted[..Min(SEARCH_LIMIT, |sorted|)];
  }

  /** A matching slot is left out only when twenty slots starting no later than it were found. */
  lemma SearchDropsOnlyLater(rows: seq<LR.RepoSlot>, startDate: int, endDate: int, mentorId: Option<string>, s: LR.RepoSlot)
    requires s in rows && SearchMatches(s, startDate, endDate, mentorId)
    ensures var r := SearchAvailableSlots(rows, startDate, endDate, mentorId);
      s !in r ==> |r| == SEARCH_LIMIT && forall i :: 0 <= i < |r| ==> r[i].startTime <= s.startTime
  {
    var sorted := SortedMatches(rows, startDate, endDate, mentorId);
    SortedMatchesMeaning(rows, startDate, endDate, mentorId);
    var r := sorted[..Min(SEARCH_LIMIT, |sorted|)];
    assert SearchAvailableSlots(rows, startDate, endDate, mentorId) == r;
    if s !in r {
      var j :| 0 <= j < |sorted| && sorted[j] == s;
      assert j >= |r|;
      forall i | 0 <= i < |r|
        ensures r[i].startTime <= s.startTime
      {
        Sorting.SortedByApart(sorted, StartOf, i, j);
      }
    }
  }

  // ----- createReservation -----

  datatype ToolReservation = ToolReservation(
    id: string,
    slotId: string,
    studentId: string,
    mentorId: string,
    amount: string,
    status: LR.ReservationStatus,
    notes: Option<string>)

  /** A booking, a refusal the tool returns, or the ZodError `.parse` throws on a non-UUID id. */
  datatype BookingResult = Booked(reservation: ToolReservation) | NotBooked(error: string) | InvalidArguments(issue: string)

  const SLOT_UNAVAILABLE: string := "Slot not found or already booked"

  /** The row a successful booking inserts: pending, at the slot's price, with the slot's mentor. */
  function NewReservation(id: string, slot: LR.RepoSlot, userId: string, notes: Option<string>): ToolReservation
  {
    ToolReservation(id, slot.id, userId, slot.mentorId, slot.price, LR.Pending, notes)
  }

  class ToolStore {
    var slots: map<string, LR.RepoSlot>
    var reservations: seq<ToolReservation>

    constructor (slots: map<string, LR.RepoSlot>)
      ensures this.slots == slots && reservations == []
    {
      this.slots := slots;
      reservations := [];
    }

    /**
     * `executeCreateReservation`, with `newId` the id the store gives the reservation: a slot id or
     * user id that is not a UUID makes `createReservationSchema.parse` throw before anything is read
     * or written; a missing or not-available slot is refused with nothing written; otherwise a
     * pending reservation is added and the slot marked booked.
     */
    method CreateReservation(slotId: string, userId: string, notes: Option<string>, newId: string) returns (r: BookingResult)
      modifies this
      ensures r.InvalidArguments? <==> !(IsUuid(slotId) && IsUuid(userId))
      ensures !r.Booked? ==> slots == old(slots) && reservations == old(reservations)
      ensures var valid := IsUuid(slotId) && IsUuid(userId);
        var ok := slotId in old(slots) && old(slots)[slotId].status == LR.Available;
        (!valid ==> r == InvalidArguments(INVALID_UUID))
        && (valid && !ok ==> r == NotBooked(SLOT_UNAVAILABLE))
        && (valid && ok ==>
              r == Booked(NewReservation(newId, old(slots)[slotId], userId, notes))
              && reservations == old(reservations) + [r.reservation]
              && slots == old(slots)[slotId := old(slots)[slotId].(status := LR.Booked)])
    {
      if !IsUuid(slotId) || !IsUuid(userId) {
        return InvalidArguments(INVALID_UUID);
      }
      if slotId !in slots || slots[slotId].status != LR.Available {
        return NotBooked(SLOT_UNAVAILABLE);
      }
      var slot := slots[slotId];
      var reservation := NewReservation(newId, slot, userId, notes);
      reservations := reservations + [reservation];
      slots := slots[slotId := slot.(status := LR.Booked)];
      r := Booked(reservation);
    }
  }

  /** A booked slot is no longer open, so booking the same slot again is refused. */
  lemma BookingTwiceRefused(slots: map<string, LR.RepoSlot>, slotId: string)
    requires slotId in slots && slots[slotId].status == LR.Available
    ensures var after := slots[slotId := slots[slotId].(status := LR.Booked)];
      !(slotId in after && after[slotId].status == LR.Available)
      && forall id :: id in slots && id != slotId ==> id in after && after[id] == slots[id]
  {
  }

  /** A reservation made through the tool is pending, for the slot's mentor and at the slot's price. */
  lemma NewReservationCarriesSlot(id: string, slot: LR.RepoSlot, userId: string, notes: Option<string>)
    ensures var r := NewReservation(id, slot, userId, notes);
      r.status == LR.Pending && r.mentorId == slot.mentorId && r.amount == slot.price
      && r.slotId == slot.id && r.studentId == userId
  {
  }

  // ----- dispatch -----

  datatype Tool = SearchAvailableSlotsTool | CreateReservationTool | GenerateStudyMaterialTool
                | GetSubscriptionStatusTool | UpgradeSubscriptionTool

  function ToolName(t: Tool): string
  {
    match t
    case SearchAvailableSlotsTool => "searchAvailableSlots"
    case CreateReservationTool => "createReservation"
    case GenerateStudyMaterialTool => "generateStudyMaterial"
    case GetSubscriptionStatusTool => "getSubscriptionStatus"
    case UpgradeSubscriptionTool => "upgradeSubscription"
  }

  /** `executeTool`'s switch: the handler for a known name; the "Unknown tool" error for any other. */
  function Dispatch(name: string): (r: Result<Tool>)
    ensures r.Ok? ==> ToolName(r.value) == name
    ensures r.Err? ==> r.error == "Unknown tool: " + name
  {
    if name == "searchAvailableSlots" then Ok(SearchAvailableSlotsTool)
    else if name == "createReservation" then Ok(CreateReservationTool)
    else if name == "generateStudyMaterial" then Ok(GenerateStudyMaterialTool)
    else if name == "getSubscriptionStatus" then Ok(GetSubscriptionStatusTool)
    else if name == "upgradeSubscription" then Ok(UpgradeSubscriptionTool)
    else Err("Unknown tool: " + name)
  }

  /** Every tool is reached by its own name, and only the five names reach a tool. */
  lemma DispatchByName(t: Tool, name: string)
    ensures Dispatch(ToolName(t)) == Ok(t)
    ensures Dispatch(name).Err? <==> forall u: Tool :: ToolName(u) != name
  {
    if Dispatch(name).Ok? {
      assert ToolName(Dispatch(name).value) == name;
    }
  }
}
