// The subscription table: the tier limits, reading a stored tier safely,
// the usage checks against the user's active subscription, and creating,
// updating, cancelling, reactivating and upserting subscriptions.

module SubscriptionsRepository {
  import opened Common

  datatype Tier = Freemium | Starter | Basic | Premium

  datatype Status = Active | Cancelled | PastDue | Unpaid

  datatype Limits = Limits(aiMaterialsLimit: int, reservationsLimit: int)

  /** -1 stands for "unlimited" in every limit. */
  const UNLIMITED: int := -1

  /** `TIER_LIMITS`: materials and reservations allowed per period for each tier. */
  function TierLimits(tier: Tier): (l: Limits)
    ensures tier == Premium <==> l == Limits(UNLIMITED, UNLIMITED)
    ensures tier != Premium ==> l.aiMaterialsLimit > 0 && l.reservationsLimit > 0
  {
    match tier
    case Freemium => Limits(5, 1)
    case Starter => Limits(20, 5)
    case Basic => Limits(50, 15)
    case Premium => Limits(-1, -1)
  }

  /** A higher tier never allows less than a lower one. */
  lemma TierLimitsGrow()
    ensures TierLimits(Freemium).aiMaterialsLimit < TierLimits(Starter).aiMaterialsLimit < TierLimits(Basic).aiMaterialsLimit
    ensures TierLimits(Freemium).reservationsLimit < TierLimits(Starter).reservationsLimit < TierLimits(Basic).reservationsLimit
  {
  }

  function TierName(tier: Tier): string
  {
    match tier
    case Freemium => "freemium"
    case Starter => "starter"
    case Basic => "basic"
    case Premium => "premium"
  }

  /** `getTierSafely`: the stored tier when it names one of the four, freemium for anything else or nothing. */
  function TierSafely(stored: Option<string>): (t: Tier)
    ensures t == Freemium || stored == Some(TierName(t))
  {
    if stored == Some("starter") then Starter
    else if stored == Some("basic") then Basic
    else if stored == Some("premium") then Premium
    else Freemium
  }

  /** Reading back a tier's own name gives that tier; a name outside the four gives freemium. */
  lemma TierSafelyReadsNames(tier: Tier, stored: Option<string>)
    ensures TierSafely(Some(TierName(tier))) == tier
    ensures (forall t: Tier :: stored != Some(TierName(t))) ==> TierSafely(stored) == Freemium
  {
    if forall t: Tier :: stored != Some(TierName(t)) {
      assert stored != Some(TierName(Starter)) && stored != Some(TierName(Basic)) && stored != Some(TierName(Premium));
    }
  }

  // ----- rows -----

  datatype Subscription = Subscription(
    id: string,
    userId: string,
    stripeSubscriptionId: Option<string>,
    stripeCustomerId: Option<string>,
    tier: Option<string>,
    status: Status,
    currentPeriodStart: Option<int>,
    currentPeriodEnd: Option<int>,
    cancelAtPeriodEnd: bool,
    aiMaterialsUsed: int,
    reservationsUsed: int,
    metadata: Option<map<string, string>>)

  datatype CreateInput = CreateInput(
    userId: string,
    stripeSubscriptionId: Option<string>,
    stripeCustomerId: Option<string>,
    tier: Option<Tier>,
    status: Option<Status>,
    currentPeriodStart: Option<int>,
    currentPeriodEnd: Option<int>,
    metadata: Option<map<string, string>>)

  /** The fields an update sets; None leaves a field as it is. */
  datatype UpdateInput = UpdateInput(
    stripeSubscriptionId: Option<string>,
    stripeCustomerId: Option<string>,
    tier: Option<Tier>,
    status: Option<Status>,
    currentPeriodStart: Option<int>,
    currentPeriodEnd: Option<int>,
    cancelAtPeriodEnd: Option<bool>,
    aiMaterialsUsed: Option<int>,
    reservationsUsed: Option<int>,
    metadata: Option<map<string, string>>)

  function OptionOr<T>(o: Option<T>, d: T): T
  {
    if o.Some? then o.value else d
  }

  /** The row `create` inserts: freemium and active unless given, no usage, not set to cancel. */
  function NewSubscription(id: string, input: CreateInput): (s: Subscription)
    ensures s.id == id && s.userId == input.userId
    ensures TierSafely(s.tier) == OptionOr(input.tier, Freemium)
    ensures s.status == OptionOr(input.status, Active)
    ensures s.aiMaterialsUsed == 0 && s.reservationsUsed == 0 && !s.cancelAtPeriodEnd
  {
    TierSafelyReadsNames(OptionOr(input.tier, Freemium), None);
    Subscription(id, input.userId, input.stripeSubscriptionId, input.stripeCustomerId,
                 Some(TierName(OptionOr(input.tier, Freemium))), OptionOr(input.status, Active),
                 input.currentPeriodStart, input.currentPeriodEnd, false, 0, 0, input.metadata)
  }

  /** A row after an update: every field the update names takes the new value; id and user stay. */
  function Apply(s: Subscription, u: UpdateInput): Subscription
  {
    Subscription(
      s.id, s.userId,
      if u.stripeSubscriptionId.Some? then u.stripeSubscriptionId else s.stripeSubscriptionId,
      if u.stripeCustomerId.Some? then u.stripeCustomerId else s.stripeCustomerId,
      if u.tier.Some? then Some(TierName(u.tier.value)) else s.tier,
      OptionOr(u.status, s.status),
      if u.currentPeriodStart.Some? then u.currentPeriodStart else s.currentPeriodStart,
      if u.currentPeriodEnd.Some? then u.currentPeriodEnd else s.currentPeriodEnd,
      OptionOr(u.cancelAtPeriodEnd, s.cancelAtPeriodEnd),
      OptionOr(u.aiMaterialsUsed, s.aiMaterialsUsed),
      OptionOr(u.reservationsUsed, s.reservationsUsed),
      if u.metadata.Some? then u.metadata else s.metadata)
  }

  const NO_CHANGE: UpdateInput := UpdateInput(None, None, None, None, None, None, None, None, None, None)

  /** `cancel`: at the period's end only sets the flag; immediately sets the status to cancelled. */
  function CancelChange(atPeriodEnd: bool): UpdateInput
  {
    if atPeriodEnd then NO_CHANGE.(cancelAtPeriodEnd := Some(true)) else NO_CHANGE.(status := Some(Cancelled))
  }

  /** `reactivate`: active again and no longer set to cancel. */
  const REACTIVATE: UpdateInput := NO_CHANGE.(status := Some(Active), cancelAtPeriodEnd := Some(false))

  /** The update `upsertByUserId` applies to an existing row: the input's Stripe, tier, status, period and metadata fields. */
  function UpsertChange(input: CreateInput): UpdateInput
  {
    UpdateInput(input.stripeSubscriptionId, input.stripeCustomerId, input.tier, input.status,
                input.currentPeriodStart, input.currentPeriodEnd, None, None, None, input.metadata)
  }

  /** Cancelling at once and reactivating leaves the row as it was but active and not set to cancel. */
  lemma CancelThenReactivate(s: Subscription, atPeriodEnd: bool)
    ensures Apply(Apply(s, CancelChange(atPeriodEnd)), REACTIVATE) == s.(status := Active, cancelAtPeriodEnd := false)
    ensures Apply(s, CancelChange(true)) == s.(cancelAtPeriodEnd := true)
    ensures Apply(s, CancelChange(false)) == s.(status := Cancelled)
  {
  }

  // ----- lookups -----

  /** The row a lookup for `userId` may return: the user's, and active when only active rows count. */
  predicate Matches(s: Subscription, userId: string, onlyActive: bool)
  {
    s.userId == userId && (!onlyActive || s.status == Active)
  }

  /** Row `i` matches and no later row does. */
  predicate LastMatchAt(rows: seq<Subscription>, i: int, userId: string, onlyActive: bool)
  {
    0 <= i < |rows| && Matches(rows[i], userId, onlyActive)
    && forall j :: i < j < |rows| ==> !Matches(rows[j], userId, onlyActive)
  }

  /** Where the most recently created matching row sits, rows being kept in the order they were created. */
  function LatestIndex(rows: seq<Subscription>, userId: string, onlyActive: bool): (r: Option<nat>)
    ensures r.None? <==> forall i :: 0 <= i < |rows| ==> !Matches(rows[i], userId, onlyActive)
    ensures r.Some? ==> LastMatchAt(rows, r.value, userId, onlyActive)
  {
    if rows == [] then None
    else if Matches(rows[|rows| - 1], userId, onlyActive) then Some(|rows| - 1)
    else LatestIndex(rows[..|rows| - 1], userId, onlyActive)
  }

  /** `findByUserId` (any status) and `findActiveByUserId` (active only): the most recently created matching row. */
  function Latest(rows: seq<Subscription>, userId: string, onlyActive: bool): (r: Option<Subscription>)
    ensures var k := LatestIndex(rows, userId, onlyActive);
      r == if k.Some? then Some(rows[k.value]) else None
  {
    if rows == [] then None
    else if Matches(rows[|rows| - 1], userId, onlyActive) then Some(rows[|rows| - 1])
    else Latest(rows[..|rows| - 1], userId, onlyActive)
  }

  /** The rows after an update of the row(s) with id `id`. */
  function UpdatedRows(rows: seq<Subscription>, id: string, u: UpdateInput): (r: seq<Subscription>)
    ensures |r| == |rows|
    ensures forall i :: 0 <= i < |rows| ==> r[i] == (if rows[i].id == id then Apply(rows[i], u) else rows[i])
  {
    if rows == [] then []
    else
      var last := rows[|rows| - 1];
      UpdatedRows(rows[..|rows| - 1], id, u) + [if last.id == id then Apply(last, u) else last]
  }

  /** The first row with id `id`, if any. */
  function IndexOfId(rows: seq<Subscription>, id: string): (r: Option<nat>)
    ensures r.Some? ==> r.value < |rows| && rows[r.value].id == id
    ensures r.Some? ==> forall j :: 0 <= j < r.value ==> rows[j].id != id
    ensures r.None? ==> forall j :: 0 <= j < |rows| ==> rows[j].id != id
  {
    if rows == [] then None
    else if rows[0].id == id then Some(0)
    else
      var r := IndexOfId(rows[1..], id);
      if r.Some? then Some(r.value + 1) else None
  }

  /**
   * An update that leaves the status alone (or any update, for a lookup of any status) changes a
   * user's lookup only by updating the row found.
   */
  lemma {:induction false} LatestAfterUpdate(rows: seq<Subscription>, id: string, u: UpdateInput, userId: string, onlyActive: bool)
    requires !onlyActive || u.status.None?
    ensures var l := Latest(rows, userId, onlyActive);
      Latest(UpdatedRows(rows, id, u), userId, onlyActive)
      == (if l.Some? && l.value.id == id then Some(Apply(l.value, u)) else l)
  {
    if rows != [] {
      var init, last := rows[..|rows| - 1], rows[|rows| - 1];
      var after := UpdatedRows(rows, id, u);
      assert after[..|after| - 1] == UpdatedRows(init, id, u);
      ApplyKeepsMatch(last, u, userId, onlyActive);
      if !Matches(last, userId, onlyActive) {
        LatestAfterUpdate(init, id, u, userId, onlyActive);
      }
    }
  }

  /** An update that leaves the status alone keeps whether a row matches a lookup. */
  lemma ApplyKeepsMatch(s: Subscription, u: UpdateInput, userId: string, onlyActive: bool)
    requires !onlyActive || u.status.None?
    ensures Matches(Apply(s, u), userId, onlyActive) == Matches(s, userId, onlyActive)
  {
  }

  // ----- usage -----

  /** A counter is within its limit: the limit is unlimited, or fewer have been used. */
  predicate WithinLimit(used: int, limit: int)
  {
    limit == UNLIMITED || used < limit
  }

  /** `canUseAiMaterials`, given the user's active subscription if any. */
  function CanUseAiMaterials(active: Option<Subscription>): (b: bool)
    ensures active.None? ==> !b
    ensures active.Some? && TierSafely(active.value.tier) == Premium ==> b
  {
    active.Some? && WithinLimit(active.value.aiMaterialsUsed, TierLimits(TierSafely(active.value.tier)).aiMaterialsLimit)
  }

  /** `canMakeReservation`, given the user's active subscription if any. */
  function CanMakeReservation(active: Option<Subscription>): (b: bool)
    ensures active.None? ==> !b
    ensures active.Some? && TierSafely(active.value.tier) == Premium ==> b
  {
    active.Some? && WithinLimit(active.value.reservationsUsed, TierLimits(TierSafely(active.value.tier)).reservationsLimit)
  }

  datatype Usage = Usage(used: int, limit: int)

  datatype UsageLimits = UsageLimits(tier: Tier, aiMaterials: Usage, reservations: Usage)

  /** `getUsageLimits`: freemium with nothing used without an active subscription, else the safe tier, the counters and its limits. */
  function GetUsageLimits(active: Option<Subscription>): (r: UsageLimits)
    ensures active.None? ==> r == UsageLimits(Freemium, Usage(0, 5), Usage(0, 1))
    ensures active.Some? ==> (r.tier == TierSafely(active.value.tier)
      && r.aiMaterials.used == active.value.aiMaterialsUsed && r.reservations.used == active.value.reservationsUsed)
    ensures active.Some? ==> (r.aiMaterials.limit == TierLimits(r.tier).aiMaterialsLimit
      && r.reservations.limit == TierLimits(r.tier).reservationsLimit)
  {
    if active.None? then
      UsageLimits(Freemium, Usage(0, TierLimits(Freemium).aiMaterialsLimit), Usage(0, TierLimits(Freemium).reservationsLimit))
    else
      var s := active.value;
      var limits := TierLimits(TierSafely(s.tier));
      UsageLimits(TierSafely(s.tier), Usage(s.aiMaterialsUsed, limits.aiMaterialsLimit), Usage(s.reservationsUsed, limits.reservationsLimit))
  }

  /**
   * The checks agree with the reported usage: with a subscription, each is allowed exactly when its
   * reported limit is unlimited or above what is reported used; without one, neither is allowed
   * although freemium's limits are reported.
   */
  lemma ChecksAgreeWithUsage(active: Option<Subscription>)
    ensures var u := GetUsageLimits(active);
      (CanUseAiMaterials(active) <==> active.Some? && (u.aiMaterials.limit == -1 || u.aiMaterials.used < u.aiMaterials.limit))
      && (CanMakeReservation(active) <==> active.Some? && (u.reservations.limit == -1 || u.reservations.used < u.reservations.limit))
      && (active.None? ==> u.aiMaterials.used < u.aiMaterials.limit && u.reservations.used < u.reservations.limit)
  {
  }

  /** A stored tier that is none of the four counts as freemium: five materials and one reservation. */
  lemma UnknownTierGetsFreemiumLimits(s: Subscription)
    requires forall t: Tier :: s.tier != Some(TierName(t))
    ensures GetUsageLimits(Some(s)).aiMaterials.limit == 5 && GetUsageLimits(Some(s)).reservations.limit == 1
    ensures CanUseAiMaterials(Some(s)) <==> s.aiMaterialsUsed < 5
  {
    TierSafelyReadsNames(Freemium, s.tier);
  }

  // ----- the table -----

  class SubscriptionRepository {
    /** The rows, in the order they were created. */
    var rows: seq<Subscription>

    /** Ids are unique. */
    predicate Valid()
      reads this
    {
      forall i, j :: 0 <= i < j < |rows| ==> rows[i].id != rows[j].id
    }

    constructor ()
      ensures rows == [] && Valid()
    {
      rows := [];
    }

    /** `findByUserId`: the user's most recently created row, whatever its status; none without a row. */
    function FindByUserId(userId: string): (r: Option<Subscription>)
      reads this
      ensures r.None? <==> forall i :: 0 <= i < |rows| ==> rows[i].userId != userId
      ensures r.Some? ==> r.value.userId == userId
                          && exists i :: LastMatchAt(rows, i, userId, false) && rows[i] == r.value
    {
      Latest(rows, userId, false)
    }

    /** `findActiveByUserId`: the user's most recently created active row; none without one. */
    function FindActiveByUserId(userId: string): (r: Option<Subscription>)
      reads this
      ensures r.None? <==> forall i :: 0 <= i < |rows| ==> !(rows[i].userId == userId && rows[i].status == Active)
      ensures r.Some? ==> r.value.userId == userId && r.value.status == Active
                          && exists i :: LastMatchAt(rows, i, userId, true) && rows[i] == r.value
    {
      Latest(rows, userId, true)
    }

    /** `create`, with `id` the fresh id the table assigns. */
    method Create(input: CreateInput, id: string) returns (s: Subscription)
      requires Valid() && forall i :: 0 <= i < |rows| ==> rows[i].id != id
      modifies this
      ensures s == NewSubscription(id, input) && rows == old(rows) + [s] && Valid()
    {
      s := NewSubscription(id, input);
      rows := rows + [s];
    }

    /** `update`: the row with that id takes the new values; None when there is none. */
    method Update(id: string, u: UpdateInput) returns (r: Option<Subscription>)
      requires Valid()
      modifies this
      ensures rows == UpdatedRows(old(rows), id, u) && Valid()
      ensures var k := IndexOfId(old(rows), id); r == if k.Some? then Some(Apply(old(rows)[k.value], u)) else None
    {
      var k := IndexOfId(rows, id);
      r := if k.Some? then Some(Apply(rows[k.value], u)) else None;
      rows := UpdatedRows(rows, id, u);
    }

    /** `cancel`: at the period's end (the default) or at once. */
    method Cancel(id: string, atPeriodEnd: bool) returns (r: Option<Subscription>)
      requires Valid()
      modifies this
      ensures rows == UpdatedRows(old(rows), id, CancelChange(atPeriodEnd)) && Valid()
      ensures var k := IndexOfId(old(rows), id); r == if k.Some? then Some(Apply(old(rows)[k.value], CancelChange(atPeriodEnd))) else None
    {
      r := Update(id, CancelChange(atPeriodEnd));
    }

    /** `reactivate`. */
    method Reactivate(id: string) returns (r: Option<Subscription>)
      requires Valid()
      modifies this
      ensures rows == UpdatedRows(old(rows), id, REACTIVATE) && Valid()
      ensures var k := IndexOfId(old(rows), id); r == if k.Some? then Some(Apply(old(rows)[k.value], REACTIVATE)) else None
    {
      r := Update(id, REACTIVATE);
    }

    /**
     * `upsertByUserId`: the user's latest row takes the input's fields; without one a row is
     * created from the input as given (its own `userId` included), under the fresh id `freshId`.
     */
    method UpsertByUserId(userId: string, input: CreateInput, freshId: string) returns (r: Option<Subscription>)
      requires Valid() && forall i :: 0 <= i < |rows| ==> rows[i].id != freshId
      modifies this
      ensures var existing := Latest(old(rows), userId, false);
        (existing.Some? ==> rows == UpdatedRows(old(rows), existing.value.id, UpsertChange(input))
                            && r == Some(Apply(existing.value, UpsertChange(input))))
        && (existing.None? ==> rows == old(rows) + [NewSubscription(freshId, input)]
                               && r == Some(NewSubscription(freshId, input)))
      ensures Valid()
    {
      var existing := FindByUserId(userId);
      if existing.Some? {
        var i := LatestIndex(rows, userId, false).value;
        assert IndexOfId(rows, existing.value.id) == Some(i);
        r := Update(existing.value.id, UpsertChange(input));
      } else {
        var s := Create(input, freshId);
        r := Some(s);
      }
    }
  }

  /** Cancelling at the period's end keeps the user's active subscription, and with it what they may use. */
  lemma CancelAtPeriodEndKeepsAccess(rows: seq<Subscription>, id: string, userId: string)
    ensures var before := Latest(rows, userId, true);
      var after := Latest(UpdatedRows(rows, id, CancelChange(true)), userId, true);
      after.Some? == before.Some?
      && CanUseAiMaterials(after) == CanUseAiMaterials(before)
      && CanMakeReservation(after) == CanMakeReservation(before)
  {
    LatestAfterUpdate(rows, id, CancelChange(true), userId, true);
  }

  /** Cancelling at once takes away the row's access: it is no longer what an active lookup finds. */
  lemma CancelNowEndsAccess(rows: seq<Subscription>, id: string, userId: string)
    ensures var after := Latest(UpdatedRows(rows, id, CancelChange(false)), userId, true);
      after.Some? ==> after.value.id != id
  {
    var after := UpdatedRows(rows, id, CancelChange(false));
    var l := Latest(after, userId, true);
    if l.Some? {
      var i := LatestIndex(after, userId, true).value;
      assert after[i].status == Active;
    }
  }

  /** After an upsert for the input's own user, a lookup of that user finds the row written. */
  lemma UpsertIsFound(rows: seq<Subscription>, input: CreateInput, freshId: string)
    ensures var existing := Latest(rows, input.userId, false);
      var after := if existing.Some? then UpdatedRows(rows, existing.value.id, UpsertChange(input))
                   else rows + [NewSubscription(freshId, input)];
      Latest(after, input.userId, false)
      == Some(if existing.Some? then Apply(existing.value, UpsertChange(input)) else NewSubscription(freshId, input))
  {
    var existing := Latest(rows, input.userId, false);
    if existing.Some? {
      LatestAfterUpdate(rows, existing.value.id, UpsertChange(input), input.userId, false);
    } else {
      var after := rows + [NewSubscription(freshId, input)];
      assert after[..|after| - 1] == rows;
    }
  }
}
