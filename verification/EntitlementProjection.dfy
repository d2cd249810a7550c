/**
 Paid access through time: base subscription, complimentary months and the user
 record derived from them (SOURCE/auth/models.py, and the validator in
 SOURCE/auth/entitlement_projection.py).  Instants matter only through their order.
 */
module EntitlementProjection {
  import opened Common

  type Time = int
  type UserId = string

  datatype Plan = FreePlan | ProMonthly | ProAnnual | MaxMonthly | MaxAnnual
  datatype Family = FreeFamily | Pro | Max
  datatype Status = Free | Active | Canceled | PastDue | Trialing
  datatype Provider = Stripe | BtcPay | Manual
  datatype Source = Commercial | OwnerMonthGift

  function FamilyOf(p: Plan): Family {
    match p
    case FreePlan => FreeFamily
    case ProMonthly => Pro
    case ProAnnual => Pro
    case MaxMonthly => Max
    case MaxAnnual => Max
  }

  predicate IsPaidPlan(p: Plan) { !FamilyOf(p).FreeFamily? }

  datatype Facts = Facts(
    plan: Plan, family: Family, status: Status, paid: bool, start: Option<Time>, end: Option<Time>,
    source: Source, pending: bool, fundedThrough: Option<Time>)

  datatype Gift = Gift(user: UserId, start: Time, end: Time)
  {
    predicate IsActive(at: Time) { start <= at < end }
  }

  datatype Projection = Projection(user: UserId, effective: Facts, base: Facts, gift: Option<Gift>, queued: seq<Gift>)

  datatype ProjectionError = FamilyMismatch | ForeignGift | GiftWithoutWindow | NotTheGiftsWindow | AnotherAccount

  /** The validators of `SubscriptionFacts` and `EntitlementProjection`. */
  function Validate(p: Projection): Result<Projection, ProjectionError> {
    if p.effective.family != FamilyOf(p.effective.plan) || p.base.family != FamilyOf(p.base.plan) then
      Err(FamilyMismatch)
    else if (p.gift.Some? && p.gift.value.user != p.user) || (exists g :: g in p.queued && g.user != p.user) then
      Err(ForeignGift)
    else if p.effective.source.OwnerMonthGift? && p.gift.None? then Err(GiftWithoutWindow)
    else if p.effective.source.OwnerMonthGift?
            && (p.effective.start != Some(p.gift.value.start)
                || p.effective.end != Some(p.gift.value.end)) then Err(NotTheGiftsWindow)
    else Ok(p)
  }

  /**
   What the validators accept: families that are those of their plans, gifts of the
   account itself, and effective access that claims to be a gift only over just the
   window of one.
   */
  lemma ValidExactlyWhen(p: Projection)
    ensures Validate(p).Ok? <==>
              && (forall f :: f in {p.effective, p.base} ==> f.family == FamilyOf(f.plan))
              && (forall g :: g in p.queued || p.gift == Some(g) ==> g.user == p.user)
              && (p.effective.source == OwnerMonthGift ==>
                    exists g :: p.gift == Some(g) && p.effective.start == Some(g.start)
                        && p.effective.end == Some(g.end))
    ensures Validate(p).Ok? ==> Validate(p).value == p
  {
    if p.gift.Some? { assert p.gift == Some(p.gift.value); }
    assert p.effective in {p.effective, p.base} && p.base in {p.effective, p.base};
  }

  // ---------------------------------------------------------------- projecting

  predicate GiftActive(p: Projection, at: Time) { p.gift.Some? && p.gift.value.IsActive(at) }

  function PaidUntil(f: Facts, gift: bool): Option<Time> {
    if !gift && f.fundedThrough.Some? then f.fundedThrough else f.end
  }

  predicate Paid(f: Facts, gift: bool, at: Time) {
    && f.paid && !f.pending
    && (f.start.None? || f.start.value <= at)
    && (PaidUntil(f, gift).None? || PaidUntil(f, gift).value > at)
  }

  function Settle(f: Facts, paid: bool): Facts {
    if paid then f.(paid := true) else f.(paid := false, plan := FreePlan, family := FreeFamily, status := Free)
  }

  /** `current_entitlement_projection`. */
  function Project(p: Projection, at: Time): Projection {
    var active := GiftActive(p, at);
    var facts := if active then p.effective else p.base;
    p.(effective := Settle(facts, Paid(facts, active, at)), gift := if active then p.gift else None)
  }

  /**
   Which projections grant access, and as what: while a gift is active what the
   effective facts say of it, otherwise what the base subscription says, up to the
   instant it is funded to.  Without access everything falls back to the free plan.
   */
  lemma AccessExactlyWhen(p: Projection, at: Time)
    ensures var gift := p.gift.Some? && p.gift.value.start <= at < p.gift.value.end;
            var f := if gift then p.effective else p.base;
            var until := if !gift && f.fundedThrough.Some? then f.fundedThrough else f.end;
            var r := Project(p, at).effective;
            && (r.paid <==> && f.paid && !f.pending
                            && (f.start.Some? ==> f.start.value <= at) && (until.Some? ==> at < until.value))
            && (r.paid ==> r == f)
            && (!r.paid ==> r == f.(paid := false, plan := FreePlan, family := FreeFamily, status := Free))
            && Project(p, at).gift == (if gift then p.gift else None)
  {
  }

  /** A stored projection sleeps through the start of its gift. */
  predicate GiftStartsBetween(p: Projection, t1: Time, t2: Time) {
    p.gift.Some? && t1 < p.gift.value.start <= t2 < p.gift.value.end
  }

  /** Access under one gift window that begins only after the first look. */
  predicate AccessStartsBetween(p: Projection, t1: Time, t2: Time) {
    && GiftActive(p, t1) && GiftActive(p, t2)
    && p.effective.start.Some? && t1 < p.effective.start.value && Paid(p.effective, true, t2)
  }

  /** Exactly when looking at t1 and then at t2 gives what looking at t2 alone would. */
  lemma ProjectionComposesExactlyWhen(p: Projection, t1: Time, t2: Time)
    requires t1 <= t2
    ensures Project(Project(p, t1), t2) == Project(p, t2)
            <==> !GiftStartsBetween(p, t1, t2) && !AccessStartsBetween(p, t1, t2)
  {
    var one := Project(p, t1);
    if GiftStartsBetween(p, t1, t2) {
      assert Project(one, t2).gift == None && Project(p, t2).gift == p.gift;
    } else if GiftActive(p, t1) && GiftActive(p, t2) {
      assert Project(one, t2).effective == Settle(one.effective, Paid(one.effective, true, t2));
      if AccessStartsBetween(p, t1, t2) {
        assert !Paid(p.effective, true, t1);
        assert !Project(one, t2).effective.paid && Project(p, t2).effective.paid;
      }
    }
  }

  /** In particular: without a gift, or when the gift has started and effective access uses its window. */
  lemma ProjectionComposes(p: Projection, t1: Time, t2: Time)
    requires t1 <= t2 && Validate(p).Ok?
    requires p.gift.None? || (p.gift.value.start <= t1 && p.effective.source.OwnerMonthGift?)
    ensures Project(Project(p, t1), t2) == Project(p, t2)
  {
    ProjectionComposesExactlyWhen(p, t1, t2);
  }

  /** Any number of looks in order of time. */
  function ProjectAll(p: Projection, times: seq<Time>): Projection
    decreases |times|
  {
    if times == [] then p else ProjectAll(Project(p, times[0]), times[1..])
  }

  predicate Ordered(times: seq<Time>) { forall i, j :: 0 <= i <= j < |times| ==> times[i] <= times[j] }

  lemma {:induction false} ManyLooksAreOne(p: Projection, times: seq<Time>)
    requires times != [] && Ordered(times) && Validate(p).Ok?
    requires p.gift.None? || (p.gift.value.start <= times[0] && p.effective.source.OwnerMonthGift?)
    requires p.base.source.Commercial?
    ensures ProjectAll(p, times) == Project(p, times[|times| - 1])
    decreases |times|
  {
    var rest := times[1..];
    if rest == [] {
      assert ProjectAll(Project(p, times[0]), rest) == Project(p, times[0]);
    } else {
      ProjectionStaysValid(p, times[0]);
      assert Ordered(rest) && rest[0] >= times[0];
      ManyLooksAreOne(Project(p, times[0]), rest);
      ProjectionComposes(p, times[0], rest[|rest| - 1]);
    }
  }

  lemma LookingTwiceChangesNothing(p: Projection, at: Time)
    ensures Project(Project(p, at), at) == Project(p, at)
  {
    ProjectionComposesExactlyWhen(p, at, at);
  }

  /**
   A projection taken from valid facts can be stored and read back, unless the
   base subscription itself claims to be a gift and no gift is active.
   */
  lemma ProjectionStaysValid(p: Projection, at: Time)
    requires Validate(p).Ok?
    ensures Project(p, at).base == p.base && Project(p, at).queued == p.queued && Project(p, at).user == p.user
    ensures Validate(Project(p, at)).Ok? <==> GiftActive(p, at) || p.base.source.Commercial?
  {
    var r := Project(p, at);
    assert r.effective.family == FamilyOf(r.effective.plan);
    assert forall g :: g in p.queued ==> g.user == p.user;
  }

  /** Paid access always lies inside a window: of the gift while one is active, of the base subscription otherwise. */
  lemma AccessLiesInAWindow(p: Projection, at: Time)
    requires Validate(p).Ok? && Project(p, at).effective.paid && Project(p, at).effective.source.OwnerMonthGift?
    requires p.base.source.Commercial?
    ensures p.gift.Some? && p.gift.value.user == p.user && p.gift.value.start <= at < p.gift.value.end
    ensures Project(p, at).effective.start == Some(p.gift.value.start)
            && Project(p, at).effective.end == Some(p.gift.value.end)
  {
  }

  // ----------------------------------------------------------- the user record

  datatype User = User(
    id: UserId, plan: Plan, status: Status, provider: Option<Provider>, start: Option<Time>, end: Option<Time>,
        pending: bool,
    projection: Option<Projection>)

  /** `apply_user_entitlement_projection`. */
  function ApplyProjection(u: User, p: Projection, at: Time): Result<User, ProjectionError> {
    var parsed := Validate(p);
    if parsed.Err? then Err(parsed.error)
    else if p.user != u.id then Err(AnotherAccount)
    else
      var current := Project(p, at);
      var f := current.effective;
      Ok(u.(plan := f.plan, status := f.status, end := f.end, start := f.start, pending := f.pending,
            projection := Some(current)))
  }

  /** `billing_state_has_paid_access`. */
  predicate HasPaidAccess(u: User, at: Time) {
    && IsPaidPlan(u.plan) && !u.pending
    && !(u.start.Some? && u.start.value > at)
    && match u.status
       case Active => ActiveAccess(u, at)
       case Trialing => ActiveAccess(u, at)
       case PastDue => u.provider != Some(BtcPay) && u.end.Some? && u.end.value > at
       case Canceled => u.end.Some? && u.end.value > at
       case Free => false
  }

  predicate ActiveAccess(u: User, at: Time) {
    && !(u.end.Some? && u.end.value <= at)
    && (u.provider == Some(BtcPay) ==> u.end.Some? && u.end.value > at)
  }

  /** The derived user never has more access than the projection, and a foreign or malformed one derives nothing. */
  lemma DerivedAccessIsProjectedAccess(u: User, p: Projection, at: Time)
    ensures ApplyProjection(u, p, at).Ok? <==> Validate(p).Ok? && p.user == u.id
    ensures ApplyProjection(u, p, at).Ok? ==>
              var d := ApplyProjection(u, p, at).value;
              && d.projection == Some(Project(p, at)) && d.id == u.id && d.provider == u.provider
              && (HasPaidAccess(d, at) ==> Project(p, at).effective.paid)
  {
  }

  /**
   And which of it the derived user has: all access under an active or trialing plan
   that ends later, or, outside Bitcoin payments, never; under a canceled one that
   ends later; under a past-due one that ends later, outside Bitcoin payments.
   */
  lemma DerivedAccessExactlyWhen(u: User, p: Projection, at: Time)
    requires ApplyProjection(u, p, at).Ok?
    ensures var e := Project(p, at).effective;
            var later := e.end.Some? && at < e.end.value;
            var bitcoin := u.provider == Some(BtcPay);
            HasPaidAccess(ApplyProjection(u, p, at).value, at)
            <==> && e.paid && e.plan in {ProMonthly, ProAnnual, MaxMonthly, MaxAnnual}
                 && (|| (e.status in {Active, Trialing} && (later || (e.end.None? && !bitcoin)))
                     || (e.status == Canceled && later)
                     || (e.status == PastDue && later && !bitcoin))
  {
  }

  /**
   A derived user that is not derived again keeps access the projection no longer
   grants exactly when the base subscription is funded only up to an instant
   before its period ends; a gift's user record never does.
   */
  lemma StaleUserOutlivesFundingExactlyWhen(u: User, p: Projection, t1: Time, t2: Time)
    requires t1 <= t2 && Validate(p).Ok? && p.user == u.id
    requires p.gift.None? || (p.gift.value.start <= t1 && p.effective.source.OwnerMonthGift?)
    ensures var d := ApplyProjection(u, p, t1).value;
            HasPaidAccess(d, t2) ==>
              (!Project(p, t2).effective.paid
               <==> !GiftActive(p, t1) && p.base.fundedThrough.Some? && p.base.fundedThrough.value <= t2)
  {
    DerivedAccessIsProjectedAccess(u, p, t1);
  }
}
