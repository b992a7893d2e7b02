// The lesson-slot API: how each slot is reported to the caller (bookable or
// not, the caller's own reservation, who sees the full reservation list),
// the checks that slot creation runs before writing, and the retry wrapper
// around database queries.

module LessonSlotsRoute {
  import opened Common
  import opened Bookings
  import opened Text
  import Sorting

  // ----- listing -----

  datatype RouteReservation = RouteReservation(id: string, status: Status, studentId: string, createdAt: int, updatedAt: int)

  datatype RouteSlot = RouteSlot(
    id: string,
    startTime: int,
    endTime: int,
    teacherId: string,
    teacher: Option<Teacher>,
    isAvailable: bool,
    reservations: seq<RouteReservation>)

  /** The signed-in caller: the user id and the role text, "" when the session carries none. */
  datatype Session = Session(userId: string, role: string)

  /** The single-lesson price read from the payment provider. */
  datatype PriceInfo = PriceInfo(priceId: string, unitAmount: int, currency: string)

  /** The price reported when the provider cannot be reached. */
  const FALLBACK_PRICE: PriceInfo := PriceInfo("price_1ROXvxRYtspYtD2zVhMlsy6M", 5000, "usd")

  function PriceOrFallback(fetched: Option<PriceInfo>): PriceInfo
  {
    if fetched.Some? then fetched.value else FALLBACK_PRICE
  }

  datatype FormattedSlot = FormattedSlot(
    id: string,
    startTime: int,
    endTime: int,
    teacherId: string,
    mentorName: Option<string>,
    isAvailable: bool,
    isReservedByMe: bool,
    myReservation: Option<RouteReservation>,
    price: int,
    currency: string,
    priceId: string,
    reservations: Option<seq<RouteReservation>>)

  /** Only confirmed reservations count as active here. */
  function IsActive(r: RouteReservation): bool
  {
    r.status == Confirmed
  }

  function IsMine(user: string): RouteReservation -> bool
  {
    (r: RouteReservation) => IsActive(r) && r.studentId == user
  }

  function IsOthers(user: string): RouteReservation -> bool
  {
    (r: RouteReservation) => IsActive(r) && r.studentId != user
  }

  /**
   * `reduce` keeping the later-updated reservation: the latest `updatedAt`, the earliest such one
   * on a tie.
   */
  function Latest(rs: seq<RouteReservation>): (r: RouteReservation)
    requires rs != []
    ensures r in rs
    ensures forall x :: x in rs ==> x.updatedAt <= r.updatedAt
    ensures exists i :: EarliestAt(rs, r, i)
  {
    if |rs| == 1 then
      assert EarliestAt(rs, rs[0], 0);
      rs[0]
    else
      var init := rs[..|rs| - 1];
      var best := Latest(init);
      var last := rs[|rs| - 1];
      assert rs == init + [last];
      if last.updatedAt > best.updatedAt then
        LaterLastIsEarliest(init, last);
        last
      else
        EarliestAtExtends(init, last, best);
        best
  }

  /** `r` sits at `i` and every reservation before it was updated strictly earlier. */
  predicate EarliestAt(rs: seq<RouteReservation>, r: RouteReservation, i: int)
  {
    0 <= i < |rs| && rs[i] == r && forall j :: 0 <= j < i ==> rs[j].updatedAt < r.updatedAt
  }

  lemma EarliestAtExtends(rs: seq<RouteReservation>, x: RouteReservation, r: RouteReservation)
    ensures forall i :: EarliestAt(rs, r, i) ==> EarliestAt(rs + [x], r, i)
  {
    forall i | EarliestAt(rs, r, i)
      ensures EarliestAt(rs + [x], r, i)
    {
      forall j | 0 <= j < i
        ensures (rs + [x])[j].updatedAt < r.updatedAt
      {
        assert (rs + [x])[j] == rs[j];
      }
    }
  }

  lemma LaterLastIsEarliest(rs: seq<RouteReservation>, x: RouteReservation)
    requires forall y :: y in rs ==> y.updatedAt < x.updatedAt
    ensures EarliestAt(rs + [x], x, |rs|)
  {
    forall j | 0 <= j < |rs|
      ensures (rs + [x])[j].updatedAt < x.updatedAt
    {
      assert (rs + [x])[j] == rs[j] && rs[j] in rs;
    }
  }

  /** The full list goes to an administrator and to the slot's own mentor only. */
  predicate SeesAllReservations(session: Session, slot: RouteSlot)
  {
    session.role == "admin" || (session.role == "mentor" && slot.teacherId == session.userId)
  }

  /** One slot as reported to the caller. */
  function Format(slot: RouteSlot, session: Session, price: PriceInfo): FormattedSlot
  {
    var mine := Filter(slot.reservations, IsMine(session.userId));
    var others := Filter(slot.reservations, IsOthers(session.userId));
    var hasOther := exists r :: r in others && r.status == Confirmed;
    FormattedSlot(
      slot.id, slot.startTime, slot.endTime, slot.teacherId,
      if slot.teacher.Some? && slot.teacher.value.name.Some? && slot.teacher.value.name.value != ""
      then slot.teacher.value.name else None,
      slot.isAvailable && !hasOther,
      |mine| > 0,
      if |mine| > 0 then Some(Latest(mine)) else None,
      price.unitAmount, price.currency, price.priceId,
      if SeesAllReservations(session, slot) then Some(slot.reservations) else None)
  }

  /**
   * A reported slot is bookable exactly when the slot is switched on and nobody else holds a
   * confirmed reservation on it; it is the caller's exactly when the caller holds one, and then
   * the reported reservation is the caller's latest-updated confirmed one.
   */
  lemma FormatMeaning(slot: RouteSlot, session: Session, price: PriceInfo)
    ensures var f := Format(slot, session, price);
      (f.isAvailable <==> (slot.isAvailable
        && forall r :: r in slot.reservations && r.status == Confirmed ==> r.studentId == session.userId))
      && (f.isReservedByMe <==> exists r :: r in slot.reservations && r.status == Confirmed && r.studentId == session.userId)
      && (f.myReservation.Some? <==> f.isReservedByMe)
      && (f.myReservation.Some? ==>
            var m := f.myReservation.value;
            m in slot.reservations && m.status == Confirmed && m.studentId == session.userId
            && forall r :: r in slot.reservations && r.status == Confirmed && r.studentId == session.userId ==>
                 r.updatedAt <= m.updatedAt)
      && (f.reservations.Some? <==> SeesAllReservations(session, slot))
      && (f.reservations.Some? ==> f.reservations.value == slot.reservations)
  {
    var mine := Filter(slot.reservations, IsMine(session.userId));
    if |mine| > 0 {
      assert mine[0] in mine;
    }
  }

  /** The caller's own confirmed reservation never makes the slot unbookable for them. */
  lemma OwnReservationKeepsSlotOpen(slot: RouteSlot, session: Session, price: PriceInfo)
    requires slot.isAvailable
    requires forall r :: r in slot.reservations ==> r.studentId == session.userId
    ensures Format(slot, session, price).isAvailable
  {
  }

  /** The listing starts six hours before `now`. */
  function StartsInWindow(now: int): RouteSlot -> bool
  {
    (s: RouteSlot) => s.startTime >= now - 6 * HOUR_MS
  }

  function SlotStart(s: RouteSlot): int
  {
    s.startTime
  }

  /** The stored slots the query returns: those from six hours ago on, in ascending start time. */
  function WindowRows(table: seq<RouteSlot>, now: int): seq<RouteSlot>
  {
    Sorting.SortBy(Filter(table, StartsInWindow(now)), SlotStart)
  }

  datatype ListResponse =
    | ListUnauthorized                // 401
    | ListDatabaseError               // 500
    | Listed(slots: seq<FormattedSlot>) // 200

  /** Every row formatted for the caller, in the rows' order. */
  function FormatAll(rows: seq<RouteSlot>, session: Session, price: PriceInfo): (r: seq<FormattedSlot>)
    ensures |r| == |rows|
    ensures forall i :: 0 <= i < |rows| ==> r[i] == Format(rows[i], session, price) && r[i].startTime == rows[i].startTime
  {
    seq(|rows|, i requires 0 <= i < |rows| => Format(rows[i], session, price))
  }

  /**
   * `GET`: 401 without a session; 500 when the (retried) slot query finally throws, `failure`
   * being that error; otherwise the query's rows formatted for the caller.
   */
  function ListSlots(table: seq<RouteSlot>, session: Option<Session>, now: int, failure: Option<QueryError>,
                     fetchedPrice: Option<PriceInfo>): (r: ListResponse)
    ensures r.ListUnauthorized? <==> session.None?
    ensures r.ListDatabaseError? <==> session.Some? && failure.Some?
    ensures r.Listed? ==> r.slots == FormatAll(WindowRows(table, now), session.value, PriceOrFallback(fetchedPrice))
  {
    if session.None? then ListUnauthorized
    else if failure.Some? then ListDatabaseError
    else Listed(FormatAll(WindowRows(table, now), session.value, PriceOrFallback(fetchedPrice)))
  }

  /** A listing holds one slot per stored slot in the window, each from the window, earliest first. */
  lemma ListedInOrder(table: seq<RouteSlot>, session: Session, now: int, price: PriceInfo)
    ensures var out := FormatAll(WindowRows(table, now), session, price);
      |out| == |Filter(table, StartsInWindow(now))|
      && (forall i :: 0 <= i < |out| ==> out[i].startTime >= now - 6 * HOUR_MS)
      && (forall i :: 0 <= i < |out| - 1 ==> out[i].startTime <= out[i + 1].startTime)
  {
    var kept := Filter(table, StartsInWindow(now));
    var rows := WindowRows(table, now);
    Sorting.SortByProperties(kept, SlotStart);
    Sorting.SortByMembers(kept, SlotStart);
    forall i | 0 <= i < |rows|
      ensures rows[i].startTime >= now - 6 * HOUR_MS
    {
      assert rows[i] in kept;
    }
    forall i | 0 <= i < |rows| - 1
      ensures rows[i].startTime <= rows[i + 1].startTime
    {
      assert SlotStart(rows[i]) <= SlotStart(rows[i + 1]);
    }
  }

  /**
   * The listed rows are exactly the stored slots starting at most six hours before now, each as
   * often as it is stored.
   */
  lemma ListedExactly(table: seq<RouteSlot>, now: int)
    ensures forall s :: s in WindowRows(table, now) <==> s in table && s.startTime >= now - 6 * HOUR_MS
    ensures multiset(WindowRows(table, now)) == multiset(Filter(table, StartsInWindow(now)))
  {
    var kept := Filter(table, StartsInWindow(now));
    Sorting.SortByProperties(kept, SlotStart);
    Sorting.SortByMembers(kept, SlotStart);
    forall s | s in table && s.startTime >= now - 6 * HOUR_MS
      ensures s in kept
    {
      assert StartsInWindow(now)(s);
    }
  }

  // ----- creating a slot -----

  /** The role may create slots when its lower-cased text contains "mentor" or "admin". */
  predicate MayCreate(role: string)
  {
    Contains(ToLowerAscii(role), "mentor") || Contains(ToLowerAscii(role), "admin")
  }

  /** Upper-case role names pass the check. */
  lemma UpperCaseRolesMayCreate()
    ensures MayCreate("Mentor") && MayCreate("ADMIN")
  {
    assert MayCreate("Mentor") by {
      LowerContainsAt("Mentor", "mentor", 0);
    }
    assert MayCreate("ADMIN") by {
      LowerContainsAt("ADMIN", "admin", 0);
    }
  }

  /** A role that merely contains "admin" passes too. */
  lemma CompoundRoleMayCreate()
    ensures MayCreate("super-admin")
  {
    LowerContainsAt("super-admin", "admin", 6);
  }

  /** A student, and a session without a role, are refused. */
  lemma StudentMayNotCreate()
    ensures !MayCreate("student") && !MayCreate("")
  {
    LowerLacksFirstChar("student", "mentor");
    LowerLacksFirstChar("student", "admin");
  }

  /**
   * A time field of the body: missing or falsy (so `!data.startTime` holds), text that `new Date`
   * cannot read (an Invalid Date), or an instant.
   */
  datatype TimeField = Absent | Unreadable | At(ms: int)

  datatype CreateRequest = CreateRequest(startTime: TimeField, endTime: TimeField, isAvailable: Option<bool>)

  /** What `request.json()` gives: a parse failure (it throws), or the body's fields. */
  datatype Body = Malformed | Parsed(req: CreateRequest)

  datatype CreateResponse =
    | Unauthorized            // 401
    | Forbidden               // 403
    | MissingTimes            // 400
    | StartNotBeforeEnd       // 400
    | Overlapping             // 409
    | ServerError             // 500, the handler's catch
    | Created(slot: RouteSlot) // 201

  function StatusCode(r: CreateResponse): int
  {
    match r
    case Unauthorized => 401
    case Forbidden => 403
    case MissingTimes => 400
    case StartNotBeforeEnd => 400
    case Overlapping => 409
    case ServerError => 500
    case Created(_) => 201
  }

  /** The overlap query: the existing slot covers the new start, covers the new end, or lies within the new interval. */
  predicate QueryOverlaps(s: RouteSlot, start: int, end: int)
  {
    (s.startTime <= start && s.endTime > start)
    || (s.startTime < end && s.endTime >= end)
    || (s.startTime >= start && s.endTime <= end)
  }

  /** For an existing slot of positive length, the three cases are exactly sharing an instant. */
  lemma QueryOverlapsIff(s: RouteSlot, start: int, end: int)
    requires start < end && s.startTime < s.endTime
    ensures QueryOverlaps(s, start, end) <==> s.startTime < end && s.endTime > start
  {
  }

  predicate Conflicts(table: seq<RouteSlot>, teacher: string, start: int, end: int)
  {
    exists s :: s in table && s.teacherId == teacher && QueryOverlaps(s, start, end)
  }

  /** Both times are instants, the start strictly before the end. */
  predicate Ordered(body: Body)
  {
    body.Parsed? && body.req.startTime.At? && body.req.endTime.At? && body.req.startTime.ms < body.req.endTime.ms
  }

  /**
   * `POST`: the response and the table after it. The checks run in order: a session, a creating
   * role, a readable body, both times, start not after the end, no overlapping slot of the same
   * mentor; only then is the slot (available unless the body says otherwise) added. Anything
   * thrown on the way becomes the catch's 500: an unparsable body; an Invalid Date, which passes
   * `startTime >= endTime` (every comparison with NaN is false) and is then refused by the
   * database client as a query argument; and the overlap lookup or the insert still failing after
   * `executePrismaQuery`'s retries (`lookupFailure`, `insertFailure`).
   */
  function CreateSlot(table: seq<RouteSlot>, session: Option<Session>, body: Body, newId: string,
                      lookupFailure: Option<QueryError>, insertFailure: Option<QueryError>): (r: (CreateResponse, seq<RouteSlot>))
    ensures r.0.Created? <==> r.1 != table
  {
    if session.None? then (Unauthorized, table)
    else if !MayCreate(session.value.role) then (Forbidden, table)
    else if body.Malformed? then (ServerError, table)
    else if body.req.startTime.Absent? || body.req.endTime.Absent? then (MissingTimes, table)
    else if body.req.startTime.At? && body.req.endTime.At? && body.req.startTime.ms >= body.req.endTime.ms then
      (StartNotBeforeEnd, table)
    else if body.req.startTime.Unreadable? || body.req.endTime.Unreadable? || lookupFailure.Some? then (ServerError, table)
    else if Conflicts(table, session.value.userId, body.req.startTime.ms, body.req.endTime.ms) then (Overlapping, table)
    else if insertFailure.Some? then (ServerError, table)
    else
      var req := body.req;
      var slot := RouteSlot(newId, req.startTime.ms, req.endTime.ms, session.value.userId, None,
                            if req.isAvailable.Some? then req.isAvailable.value else true, []);
      assert |table + [slot]| != |table|;
      (Created(slot), table + [slot])
  }

  /** Another slot of the mentor shares an instant with the requested interval. */
  predicate Clashes(table: seq<RouteSlot>, teacher: string, body: Body)
    requires Ordered(body)
  {
    exists s :: s in table && s.teacherId == teacher
      && s.startTime < body.req.endTime.ms && s.endTime > body.req.startTime.ms
  }

  /** For positive-length stored slots, the query's three cases find exactly the clashing slots. */
  lemma ConflictsIffClashes(table: seq<RouteSlot>, teacher: string, body: Body)
    requires forall s :: s in table ==> s.startTime < s.endTime
    requires Ordered(body)
    ensures Conflicts(table, teacher, body.req.startTime.ms, body.req.endTime.ms) <==> Clashes(table, teacher, body)
  {
    forall s | s in table
      ensures QueryOverlaps(s, body.req.startTime.ms, body.req.endTime.ms)
              <==> s.startTime < body.req.endTime.ms && s.endTime > body.req.startTime.ms
    {
      QueryOverlapsIff(s, body.req.startTime.ms, body.req.endTime.ms);
    }
  }

  /**
   * A created slot belongs to the caller, starts before it ends and shares no instant with any
   * other positive-length slot of that mentor; every refusal leaves the table as it was; and each
   * status code is returned exactly in its case, 500 covering every error the catch receives.
   */
  lemma CreateSlotMeaning(table: seq<RouteSlot>, session: Option<Session>, body: Body, newId: string,
                          lookupFailure: Option<QueryError>, insertFailure: Option<QueryError>)
    requires forall s :: s in table ==> s.startTime < s.endTime
    ensures var (resp, after) := CreateSlot(table, session, body, newId, lookupFailure, insertFailure);
      var allowed := session.Some? && MayCreate(session.value.role);
      var missing := body.Parsed? && (body.req.startTime.Absent? || body.req.endTime.Absent?);
      var reversed := body.Parsed? && body.req.startTime.At? && body.req.endTime.At?
                      && body.req.startTime.ms >= body.req.endTime.ms;
      var unreadable := body.Parsed? && !missing && (body.req.startTime.Unreadable? || body.req.endTime.Unreadable?);
      (resp.Created? ==>
        allowed && Ordered(body)
        && after == table + [resp.slot]
        && resp.slot.teacherId == session.value.userId
        && resp.slot.startTime < resp.slot.endTime
        && (forall s :: s in table && s.teacherId == session.value.userId ==>
              !(s.startTime < resp.slot.endTime && s.endTime > resp.slot.startTime)))
      && (!resp.Created? ==> after == table)
      && (session.None? <==> StatusCode(resp) == 401)
      && (session.Some? && !MayCreate(session.value.role) <==> StatusCode(resp) == 403)
      && (StatusCode(resp) == 400 <==> allowed && (missing || reversed))
      && (StatusCode(resp) == 409 <==>
            allowed && Ordered(body) && lookupFailure.None? && Clashes(table, session.value.userId, body))
      && (StatusCode(resp) == 500 <==>
            allowed && (body.Malformed? || unreadable
                        || (Ordered(body) && (lookupFailure.Some?
                                              || (!Clashes(table, session.value.userId, body) && insertFailure.Some?)))))
      && (StatusCode(resp) == 201 <==>
            allowed && Ordered(body) && lookupFailure.None? && insertFailure.None?
            && !Clashes(table, session.value.userId, body))
  {
    if session.Some? && Ordered(body) {
      ConflictsIffClashes(table, session.value.userId, body);
    }
  }

  // ----- retrying a query -----

  /** How a query can fail: the two connection errors that are retried, and everything else. */
  datatype QueryError = Initialization | KnownRequest | OtherError

  datatype Outcome<T> = Success(value: T) | Failure(error: QueryError)

  predicate Retryable(e: QueryError)
  {
    e == Initialization || e == KnownRequest
  }

  /**
   * `executePrismaQuery` with `call(k)` the outcome of the k-th call of the query: the outcome and
   * the number of calls made. A retryable first failure leads to up to three more calls, stopping
   * at the first success; when all fail, the last failure is thrown. Any other first failure is
   * thrown at once.
   */
  function QueryResult<T>(call: nat -> Outcome<T>): (Outcome<T>, nat)
  {
    if call(0).Success? || !Retryable(call(0).error) then (call(0), 1)
    else if call(1).Success? then (call(1), 2)
    else if call(2).Success? then (call(2), 3)
    else (call(3), 4)
  }

  /**
   * The loop of `executePrismaQuery`; `waits` are the pauses, in milliseconds, taken before each
   * retry: one second more each time.
   */
  method ExecuteQuery<T>(call: nat -> Outcome<T>) returns (r: Outcome<T>, calls: nat, waits: seq<nat>)
    ensures (r, calls) == QueryResult(call)
    ensures |waits| == calls - 1
    ensures forall k :: 0 <= k < |waits| ==> waits[k] == 1000 * (k + 1)
  {
    r := call(0);
    calls := 1;
    waits := [];
    if r.Failure? && Retryable(r.error) {
      var attempt := 0;
      var done := false;
      while attempt < 3 && !done
        invariant 0 <= attempt <= 3 && calls == attempt + 1
        invariant attempt == 0 ==> !done
        invariant attempt > 0 ==> r == call(attempt)
        invariant done <==> attempt > 0 && r.Success?
        invariant forall k :: 1 <= k < attempt ==> call(k).Failure?
        invariant |waits| == attempt && forall k :: 0 <= k < attempt ==> waits[k] == 1000 * (k + 1)
      {
        waits := waits + [1000 * (attempt + 1)];
        r := call(attempt + 1);
        calls := calls + 1;
        done := r.Success?;
        attempt := attempt + 1;
      }
    }
  }

  /**
   * At most four calls; a success is what the last call returned; a failure means every call made
   * failed; a failure that is not a connection error is never retried.
   */
  lemma QueryResultBounds<T>(call: nat -> Outcome<T>)
    ensures var (r, n) := QueryResult(call);
      1 <= n <= 4 && r == call(n - 1)
      && (r.Failure? ==> forall k :: 0 <= k < n ==> call(k).Failure?)
      && (r.Success? ==> forall k :: 0 <= k < n - 1 ==> call(k).Failure?)
      && (call(0).Failure? && !Retryable(call(0).error) ==> n == 1 && r == call(0))
      && (n > 1 ==> Retryable(call(0).error))
  {
  }
}
