/** What a move writes, told column by column over all triggers and prior rows, and
    what that makes of a whole run (billing/machine.py:110-187,
    billing/entitlements.py:133-266, 308-399). */
module EntitlementColumns {
  import opened Prelude
  import opened Machine
  import opened Entitlements
  import opened Billing
  import opened EntitlementRuns

  // --- the columns ----------------------------------------------------------------------

  predicate IsStart(t: Trigger)
  {
    (t.Start? || t.StartTrial?)
  }

  predicate Lands(t: Trigger, p: Params, s: Status)
  {
    t == Override && p.toStatus == Known(s)
  }

  /** The move ends whatever lapse or cancellation was under way. */
  predicate EndsLapse(t: Trigger, p: Params)
  {
    IsStart(t) || (t.PaymentSucceeded? || t.Grant?) || Lands(t, p, NoStatus) || Lands(t, p, Expired)
  }

  /** A first failure, or an operator's `past_due`. */
  predicate BeginsDunning(was: Ent, t: Trigger, p: Params)
  {
    ((t.PaymentFailed? || t.TrialOverdue?) && !was.status.PastDue? && !was.status.Grace?) || Lands(t, p, PastDue)
  }

  /** A purchase, a comp, a payment or an override gives the tier its parameters
      name; nothing else touches the tier. */
  function GivenTier(t: Trigger, p: Params): Option<Tier>
  {
    if IsStart(t) || (t.PaymentSucceeded? || t.Grant? || t.Override?) then p.tier else None
  }

  function StatusReached(was: Status, t: Trigger, p: Params): Status
  {
    match t
    case Start => Active
    case PaymentSucceeded => Active
    case StartTrial => Trialing
    case PaymentFailed => if was == Grace then Grace else PastDue
    case TrialOverdue => PastDue
    case DunningElapsed => Grace
    case Cancel => if was == Grace then Expired else Canceled
    case Grant => Comped
    case Override => if p.toStatus.Known? then p.toStatus.status else was
    case _ => Expired
  }

  function ModeAfter(was: Ent, t: Trigger, p: Params): BillingMode
  {
    if t.Grant? then Comp
    else if IsStart(t) || (t.PaymentSucceeded? && was.status.Comped?) then
      if p.billingMode.Some? then p.billingMode.value else Recurring
    else was.billingMode
  }

  function StartedAfter(was: Ent, t: Trigger, now: int): Option<int>
  {
    if IsStart(t) || (t.Grant? && was.startedAt.None?) then Some(now) else was.startedAt
  }

  function TrialEndAfter(was: Ent, t: Trigger, p: Params): Option<int>
  {
    if t.StartTrial? || Lands(t, p, Trialing) then p.trialEndsAt
    else if t.Start? || t.Grant? then None else was.trialEndsAt
  }

  function PeriodEndAfter(was: Ent, t: Trigger, p: Params): Option<int>
  {
    if t.Grant? then None
    else if (IsStart(t) || t.PaymentSucceeded? || t.Override?) && p.periodEnd.Some? then p.periodEnd
    else if t.StartTrial? || (Lands(t, p, Trialing) && was.currentPeriodEnd.None?) then p.trialEndsAt
    else if t.Cancel? && !was.status.Grace? && was.currentPeriodEnd.None? then was.trialEndsAt
    else was.currentPeriodEnd
  }

  /** A column of the lapse: what a first failure sets, what an end clears. */
  function Lapsed<T>(was: Ent, t: Trigger, p: Params, begun: T, none: T, kept: T): T
  {
    if BeginsDunning(was, t, p) then begun else if EndsLapse(t, p) then none else kept
  }

  function GraceEndAfter(was: Ent, t: Trigger, now: int, p: Params): Option<int>
  {
    if t.DunningElapsed? || Lands(t, p, Grace) then Some(now + 30 * 86400)
    else if EndsLapse(t, p) then None else was.graceEndsAt
  }

  function FailuresAfter(was: Ent, t: Trigger, p: Params): int
  {
    if EndsLapse(t, p) then 0
    else if (t.PaymentFailed? || t.TrialOverdue?) && p.attempt != 0 then p.attempt
    else if t.PaymentFailed? || t.TrialOverdue? || Lands(t, p, PastDue) then was.failedAttempts + 1
    else was.failedAttempts
  }

  function FailureCodeAfter(was: Ent, t: Trigger, p: Params): string
  {
    if EndsLapse(t, p) then ""
    else if t.TrialOverdue? then "trial_unreported"
    else if Lands(t, p, PastDue) then "override"
    else if t.PaymentFailed? && (p.failureCode != "" || BeginsDunning(was, t, p)) then p.failureCode
    else was.lastFailureCode
  }

  /** A column of the cancellation. */
  function Stopped<T>(cancels: bool, t: Trigger, p: Params, set_: T, none: T, kept: T): T
  {
    if cancels then set_ else if EndsLapse(t, p) then none else kept
  }

  function CanceledByAfter(was: Ent, t: Trigger, p: Params): string
  {
    if t.Cancel? then (if p.canceledBy == "" then "owner" else p.canceledBy)
    else Stopped(Lands(t, p, Canceled), t, p, "operator", "", was.canceledBy)
  }

  predicate EndsComp(was: Ent, t: Trigger, p: Params)
  {
    IsStart(t) || t.Revoke? || (t.PaymentSucceeded? && was.status.Comped?)
    || (t.Override? && p.toStatus != Known(Comped))
  }

  /** A column of the comp. */
  function CompAfter<T>(was: Ent, t: Trigger, p: Params, granted: T, none: T, kept: T): T
  {
    if t.Grant? then granted else if EndsComp(was, t, p) then none else kept
  }

  /** What is held, and on which terms. */
  predicate HeldColumns(was: Ent, t: Trigger, now: int, p: Params, r: Ent)
  {
    && r.tier == (if GivenTier(t, p).Some? then GivenTier(t, p).value else was.tier)
    && r.status == StatusReached(was.status, t, p)
    && r.billingMode == ModeAfter(was, t, p)
    && r.termDays == (if IsStart(t) then p.termDays else if t.Grant? then None else was.termDays)
    && r.startedAt == StartedAfter(was, t, now)
    && r.paymentRef ==
       (if IsStart(t) || (t.PaymentSucceeded? && p.paymentRef != map[]) then p.paymentRef else was.paymentRef)
  }

  /** When it ends. */
  predicate PeriodColumns(was: Ent, t: Trigger, p: Params, r: Ent)
  {
    r.trialEndsAt == TrialEndAfter(was, t, p) && r.currentPeriodEnd == PeriodEndAfter(was, t, p)
  }

  /** The lapse: dunning, grace and the failures counted. */
  predicate LapseColumns(was: Ent, t: Trigger, now: int, p: Params, r: Ent)
  {
    && r.dunningStartedAt == Lapsed(was, t, p, Some(now), None, was.dunningStartedAt)
    && r.dunningEndsAt == Lapsed(was, t, p, Some(now + 14 * 86400), None, was.dunningEndsAt)
    && r.graceEndsAt == GraceEndAfter(was, t, now, p)
    && r.failedAttempts == FailuresAfter(was, t, p)
    && r.lastFailureCode == FailureCodeAfter(was, t, p)
  }

  /** The cancellation and the renewal notice. */
  predicate CancelColumns(was: Ent, t: Trigger, now: int, p: Params, r: Ent)
  {
    var ends := (t.Cancel? && !was.status.Grace?) || Lands(t, p, Canceled);
    && r.cancelAtPeriodEnd == Stopped(ends, t, p, true, false, was.cancelAtPeriodEnd)
    && r.canceledAt == Stopped(t.Cancel? || ends, t, p, Some(now), None, was.canceledAt)
    && r.canceledBy == CanceledByAfter(was, t, p)
    && r.renewalNotifiedAt == Stopped(false, t, p, None, None, was.renewalNotifiedAt)
  }

  predicate CompColumns(was: Ent, t: Trigger, p: Params, r: Ent)
  {
    && r.compGrantedBy == CompAfter(was, t, p, p.operator, None, was.compGrantedBy)
    && Some(r.compReason) == CompAfter(was, t, p, p.reason, Some(""), Some(was.compReason))
    && r.compExpiresAt == CompAfter(was, t, p, p.expiresAt, None, was.compExpiresAt)
  }

  predicate AllColumns(was: Ent, t: Trigger, now: int, p: Params, r: Ent)
  {
    && HeldColumns(was, t, now, p, r) && PeriodColumns(was, t, p, r) && LapseColumns(was, t, now, p, r)
    && CancelColumns(was, t, now, p, r) && CompColumns(was, t, p, r)
  }

  lemma OverrideHolds(e: Ent, now: int, p: Params)
    requires AfterOverride(e, now, p).Some?
    ensures HeldColumns(e, Override, now, p, AfterOverride(e, now, p).value)
  {
  }

  lemma OverrideEnds(e: Ent, now: int, p: Params)
    requires AfterOverride(e, now, p).Some?
    ensures PeriodColumns(e, Override, p, AfterOverride(e, now, p).value)
    ensures CompColumns(e, Override, p, AfterOverride(e, now, p).value)
    ensures AfterOverride(e, now, p).value.hiddenByExpiry == e.hiddenByExpiry
  {
  }

  lemma OverrideLapses(e: Ent, now: int, p: Params)
    requires AfterOverride(e, now, p).Some?
    ensures LapseColumns(e, Override, now, p, AfterOverride(e, now, p).value)
  {
    match p.toStatus.status
    case PastDue =>
    case Grace =>
    case NoStatus =>
    case Expired =>
    case _ =>
  }

  lemma OverrideCancels(e: Ent, now: int, p: Params)
    requires AfterOverride(e, now, p).Some?
    ensures CancelColumns(e, Override, now, p, AfterOverride(e, now, p).value)
  {
  }

  lemma StartColumns(e: Ent, trial: bool, now: int, p: Params)
    requires AfterStart(e, trial, now, p).Some?
    ensures AllColumns(e, if trial then StartTrial else Start, now, p, AfterStart(e, trial, now, p).value)
    ensures AfterStart(e, trial, now, p).value.hiddenByExpiry == e.hiddenByExpiry
  {
  }

  lemma PaymentHolds(e: Ent, now: int, p: Params)
    requires AfterPayment(e, p).Some?
    ensures var r := AfterPayment(e, p).value;
      HeldColumns(e, PaymentSucceeded, now, p, r) && PeriodColumns(e, PaymentSucceeded, p, r)
  {
  }

  lemma PaymentEnds(e: Ent, now: int, p: Params)
    requires AfterPayment(e, p).Some?
    ensures var r := AfterPayment(e, p).value;
      && LapseColumns(e, PaymentSucceeded, now, p, r) && CancelColumns(e, PaymentSucceeded, now, p, r)
      && CompColumns(e, PaymentSucceeded, p, r) && r.hiddenByExpiry == e.hiddenByExpiry
  {
  }

  function Failed(e: Ent, t: Trigger, now: int, p: Params): Ent
  {
    AfterFailure(e, if t.TrialOverdue? then "trial_unreported" else p.failureCode, now, p)
  }

  lemma FailureHolds(e: Ent, t: Trigger, now: int, p: Params)
    requires t.PaymentFailed? || (t.TrialOverdue? && e.status == Trialing)
    ensures HeldColumns(e, t, now, p, Failed(e, t, now, p)) && PeriodColumns(e, t, p, Failed(e, t, now, p))
    ensures CompColumns(e, t, p, Failed(e, t, now, p)) && Failed(e, t, now, p).hiddenByExpiry == e.hiddenByExpiry
  {
    assert GivenTier(t, p) == None && !IsStart(t) && !EndsComp(e, t, p);
    hide GivenTier, IsStart, EndsComp;
  }

  lemma FailureLapses(e: Ent, t: Trigger, now: int, p: Params)
    requires t.PaymentFailed? || (t.TrialOverdue? && e.status == Trialing)
    ensures LapseColumns(e, t, now, p, Failed(e, t, now, p)) && CancelColumns(e, t, now, p, Failed(e, t, now, p))
  {
  }

  lemma GrantColumns(e: Ent, now: int, p: Params)
    requires AfterGrant(e, now, p).Some?
    ensures AllColumns(e, Grant, now, p, AfterGrant(e, now, p).value)
    ensures AfterGrant(e, now, p).value.hiddenByExpiry == e.hiddenByExpiry
  {
  }

  lemma CancellationColumns(e: Ent, now: int, p: Params)
    requires RuleFor(e.status, Cancel).Some?
    ensures var r := AfterCancel(e, RuleFor(e.status, Cancel).value.to, now, p);
      AllColumns(e, Cancel, now, p, r) && r.hiddenByExpiry == e.hiddenByExpiry
  {
  }

  /** The moves that only end an entitlement. */
  predicate OnlyEnds(t: Trigger)
  {
    t.Refund? || t.SubscriptionEnded? || t.TermEnded? || t.GraceElapsed? || t.PeriodElapsed? || t.CompExpired?
  }

  lemma EndingColumns(e: Ent, t: Trigger, now: int, p: Params)
    requires OnlyEnds(t)
    ensures AllColumns(e, t, now, p, e.(status := Expired))
  {
    assert StatusReached(e.status, t, p) == Expired && GivenTier(t, p) == None && !IsStart(t);
    assert !EndsLapse(t, p) && !EndsComp(e, t, p) && !BeginsDunning(e, t, p);
    hide StatusReached, GivenTier, IsStart, EndsLapse, EndsComp, BeginsDunning;
  }

  lemma GraceColumns(e: Ent, now: int, p: Params)
    ensures AllColumns(e, DunningElapsed, now, p, e.(status := Grace, graceEndsAt := Some(now + GRACE)))
  {
  }

  lemma RevokeColumns(e: Ent, now: int, p: Params)
    ensures AllColumns(e, Revoke, now, p, CompCleared(e.(status := Expired)))
  {
  }

  lemma MovedColumns(e: Ent, t: Trigger, now: int, p: Params)
    requires Moved(e, t, now, p).Ok?
    ensures AllColumns(e, t, now, p, Moved(e, t, now, p).value)
    ensures Moved(e, t, now, p).value.hiddenByExpiry == e.hiddenByExpiry
  {
    hide AfterStart, AfterPayment, AfterFailure, AfterCancel, AfterGrant, AfterOverride;
    hide HeldColumns, PeriodColumns, LapseColumns, CancelColumns, CompColumns;
    match t {
      case Override =>
        OverrideHolds(e, now, p);
        OverrideEnds(e, now, p);
        OverrideLapses(e, now, p);
        OverrideCancels(e, now, p);
      case Start => StartColumns(e, false, now, p);
      case StartTrial => StartColumns(e, true, now, p);
      case PaymentSucceeded => PaymentHolds(e, now, p); PaymentEnds(e, now, p);
      case PaymentFailed => FailureHolds(e, t, now, p); FailureLapses(e, t, now, p);
      case TrialOverdue => FailureHolds(e, t, now, p); FailureLapses(e, t, now, p);
      case DunningElapsed => GraceColumns(e, now, p);
      case Revoke => RevokeColumns(e, now, p);
      case Cancel => CancellationColumns(e, now, p);
      case Grant => GrantColumns(e, now, p);
      case _ => EndingColumns(e, t, now, p);
    }
  }

  // --- on the tables ----------------------------------------------------------------------

  /** The row a move finds; a first start, grant or override finds a blank one. */
  function Was(tb: Tables, m: Move): (r: Ent)
    requires m.listing in tb.ents || m.params.tier.Some?
    ensures m.listing !in tb.ents ==>
      && r.tier == m.params.tier.value && r.status == NoStatus && r.billingMode == NoMode && r.termDays == None
      && r.startedAt == None && r.currentPeriodEnd == None && r.trialEndsAt == None && r.dunningStartedAt == None
      && r.dunningEndsAt == None && r.graceEndsAt == None && r.failedAttempts == 0 && r.lastFailureCode == ""
      && !r.cancelAtPeriodEnd && r.canceledAt == None && r.canceledBy == "" && r.renewalNotifiedAt == None
      && !r.hiddenByExpiry && r.compGrantedBy == None && r.compReason == "" && r.compExpiresAt == None
      && r.paymentRef == map[]
  {
    if m.listing in tb.ents then tb.ents[m.listing] else NewRow(m.params.tier.value)
  }

  /** Every applied move writes every column as told above, on its own listing's row. */
  lemma StepColumns(tb: Tables, m: Move)
    requires Try(tb, m).Ok?
    ensures m.listing in tb.ents || m.params.tier.Some?
    ensures m.listing in Step(tb, m).ents && m.listing in tb.listings
    ensures AllColumns(Was(tb, m), m.trigger, m.now, m.params, Step(tb, m).ents[m.listing])
  {
    var row, e := StepRow(tb, m);
    assert row == Was(tb, m);
    hide Applied, Written, Moved, CurrentRow, RuleFor, AllColumns;
    MovedColumns(row, m.trigger, m.now, m.params);
    FlagIsNoColumn(row, m.trigger, m.now, m.params, e, tb.listings[m.listing].visibility, m.rank0);
  }

  lemma FlagIsNoColumn(was: Ent, t: Trigger, now: int, p: Params, r: Ent, v: Visibility, rank0: Option<Tier>)
    requires AllColumns(was, t, now, p, r)
    ensures AllColumns(was, t, now, p, FlagAfter(r, v, rank0))
  {
    var f := FlagAfter(r, v, rank0);
    assert f == r.(hiddenByExpiry := f.hiddenByExpiry);
    hide FlagAfter, GivenTier, StatusReached, ModeAfter, StartedAfter, TrialEndAfter, PeriodEndAfter, Lapsed, GraceEndAfter;
    hide FailuresAfter, FailureCodeAfter, Stopped, CanceledByAfter, CompAfter, IsStart, Lands;
  }

  /** The tier after a move is the one its parameters give, where it gives one, and
      the prior row's otherwise. */
  lemma TierGivenOrKept(tb: Tables, m: Move)
    requires Try(tb, m).Ok?
    ensures m.listing in Step(tb, m).ents
    ensures var tier := Step(tb, m).ents[m.listing].tier;
      && (m.trigger in {Start, StartTrial, Grant, PaymentSucceeded, Override} && m.params.tier.Some?
          ==> tier == m.params.tier.value)
      && (m.trigger !in {Start, StartTrial, Grant, PaymentSucceeded, Override} || m.params.tier.None?
          ==> m.listing in tb.ents && tier == tb.ents[m.listing].tier)
      && (m.trigger in {Start, StartTrial, Grant} ==> m.params.tier.Some?)
  {
    StepColumns(tb, m);
    hide RuleFor, Moved, Written;
  }

  /** A comp: the tier, operator, reason and expiry given, no period and no lapse; and
      its end, which keeps the tier but shows the rank-0 one. */
  lemma GrantAndRevoke(tb: Tables, m: Move)
    requires Try(tb, m).Ok? && m.trigger in {Grant, Revoke}
    ensures m.listing in Step(tb, m).ents && m.listing in Step(tb, m).listings
    ensures var e := Step(tb, m).ents[m.listing]; var shown := Step(tb, m).listings[m.listing].currentTier;
      if m.trigger == Grant then
        && e.status == Comped && Some(e.tier) == m.params.tier && e.billingMode == Comp && shown == m.params.tier
        && e.currentPeriodEnd == None && e.trialEndsAt == None && e.dunningEndsAt == None && e.graceEndsAt == None
        && e.compGrantedBy == m.params.operator && Some(e.compReason) == m.params.reason
        && e.compExpiresAt == m.params.expiresAt
      else
        && m.listing in tb.ents && tb.ents[m.listing].status == Comped && e.status == Expired
        && e.tier == tb.ents[m.listing].tier && shown == m.rank0
        && e.compGrantedBy == None && e.compReason == "" && e.compExpiresAt == None
  {
    MoveAdmitted(tb, m);
    StepColumns(tb, m);
    ShownTier(tb, m);
    hide Try, Step;
  }

  lemma ShownTier(tb: Tables, m: Move)
    requires Try(tb, m).Ok?
    ensures m.listing in Step(tb, m).ents && m.listing in Step(tb, m).listings
    ensures var e := Step(tb, m).ents[m.listing];
      Step(tb, m).listings[m.listing].currentTier ==
        if e.status in {NoStatus, Grace, Expired} then m.rank0 else Some(e.tier)
  {
    var row, e := StepRow(tb, m);
    hide RuleFor, Moved, Written, CurrentRow, Applied;
  }

  // --- which moves are let through -------------------------------------------------------

  /** The triggers each status admits; an operator may always grant and override. */
  predicate Admits(s: Status, t: Trigger)
  {
    t.Grant? || t.Override? ||
    match s
    case NoStatus => t.Start? || t.StartTrial?
    case Expired => t.Start? || t.StartTrial?
    case Trialing => PaidTrigger(t) || t.PaymentFailed? || t.Cancel? || t.TrialOverdue?
    case Active => PaidTrigger(t) || t.PaymentFailed? || t.Cancel? || t.TermEnded?
    case PastDue => PaidTrigger(t) || t.PaymentFailed? || t.Cancel? || t.DunningElapsed?
    case Grace => PaidTrigger(t) || t.PaymentFailed? || t.Cancel? || t.GraceElapsed?
    case Canceled => PaidTrigger(t) || t.Start? || t.PeriodElapsed?
    case Comped => t.PaymentSucceeded? || t.Start? || t.CompExpired? || t.Revoke?
  }

  /** What an adapter may report of any paid subscription. */
  predicate PaidTrigger(t: Trigger)
  {
    t.PaymentSucceeded? || t.Refund? || t.SubscriptionEnded?
  }

  /** The instant from which the clock may move the row, if there is one. */
  function DueFrom(e: Ent): Option<int>
  {
    match e.status
    case PastDue => e.dunningEndsAt
    case Grace => e.graceEndsAt
    case Canceled => e.currentPeriodEnd
    case Comped => e.compExpiresAt
    case Active => if e.billingMode == Term then e.currentPeriodEnd else None
    case Trialing => if e.trialEndsAt.Some? then Some(e.trialEndsAt.value + 3 * 86400) else None
    case _ => None
  }

  predicate ByClock(t: Trigger)
  {
    (t.DunningElapsed? || t.GraceElapsed? || t.PeriodElapsed? || t.CompExpired? || t.TermEnded? || t.TrialOverdue?)
  }

  /** The parameters a trigger cannot do without. */
  predicate Supplied(t: Trigger, p: Params)
  {
    && ((t.Start? || t.StartTrial? || t.Grant?) ==> p.tier.Some?)
    && ((t.Start? || t.PaymentSucceeded?) ==> p.periodEnd.Some?)
    && (t == StartTrial ==> p.trialEndsAt.Some?)
    && ((t.Grant? || t.Revoke? || t.Override?) ==> p.operator.Some? && p.reason.Some?)
    && (t == Override ==> p.toStatus.Known?)
    && (Lands(t, p, Trialing) ==> p.trialEndsAt.Some?)
    && (Lands(t, p, Canceled) ==> p.periodEnd.Some?)
  }

  lemma RuleAdmits(s: Status, t: Trigger)
    ensures RuleFor(s, t).Some? <==> Admits(s, t)
  {
  }

  lemma DueAdmits(e: Ent, t: Trigger, now: int)
    requires RuleFor(e.status, t).Some?
    ensures IsClock(t) <==> ByClock(t)
    ensures ByClock(t) ==> (IsDue(e, t, now) <==> Reached(DueFrom(e), now))
  {
  }

  lemma SuppliedMutates(e: Ent, t: Trigger, to: Target, now: int, p: Params)
    ensures Mutated(e, t, to, now, p).Some? <==> Supplied(t, p)
  {
    hide LifecycleReset, CompCleared, InDunning, AfterFailure, AfterCancel;
  }

  lemma RowAdmitted(e: Ent, t: Trigger, now: int, p: Params)
    ensures Moved(e, t, now, p).Ok? <==>
      Admits(e.status, t) && Supplied(t, p) && (ByClock(t) ==> Reached(DueFrom(e), now))
    ensures !Admits(e.status, t) <==> Moved(e, t, now, p) == Err(InvalidTransition)
    ensures Moved(e, t, now, p) == Err(NotDue) <==> Admits(e.status, t) && ByClock(t) && !Reached(DueFrom(e), now)
  {
    RuleAdmits(e.status, t);
    hide RuleFor, IsClock, IsDue, Mutated, DueFrom, Supplied, Admits, Reached, ByClock;
    if Admits(e.status, t) {
      DueAdmits(e, t, now);
      SuppliedMutates(e, t, RuleFor(e.status, t).value.to, now, p);
    }
  }

  /** A move is applied exactly when its listing exists, its row's status admits the
      trigger, its parameters are supplied, and the clock, if it is the clock's, has
      reached the row's deadline. */
  lemma MoveAdmitted(tb: Tables, m: Move)
    ensures Try(tb, m).Ok? <==>
      && m.listing in tb.listings && (m.listing in tb.ents || m.params.tier.Some?)
      && Admits(Was(tb, m).status, m.trigger) && Supplied(m.trigger, m.params)
      && (ByClock(m.trigger) ==> Reached(DueFrom(Was(tb, m)), m.now))
  {
    if m.listing in tb.ents || m.params.tier.Some? {
      RowAdmitted(Was(tb, m), m.trigger, m.now, m.params);
    }
    hide Moved, RuleFor, Written, Supplied, DueFrom;
  }

  // --- what is logged ---------------------------------------------------------------------

  /** Which lifecycle events a move from `s` logs. */
  predicate Logs(s: Status, t: Trigger, n: EventName)
  {
    match n
    case Started => IsStart(t)
    case TrialConverted => t == PaymentSucceeded && s == Trialing
    case Recovered => t == PaymentSucceeded && s == PastDue
    case Restored => t == PaymentSucceeded && (s.Grace? || s.Canceled?)
    case DunningStarted => (t.PaymentFailed? || t.TrialOverdue?) && (s.Trialing? || s.Active?)
    case Downgraded => t == DunningElapsed
    case CanceledEvent => t == Cancel
    case Overridden => (t.Grant? || t.Revoke? || t.Override?)
    case ExpiredEvent =>
      (t == Cancel && s == Grace)
      || (t.Refund? || t.SubscriptionEnded? || t.TermEnded? || t.GraceElapsed? || t.PeriodElapsed? || t.CompExpired? || t.Revoke?)
  }

  /** The triggers whose events depend on the status left. */
  lemma PaymentLogs(s: Status, t: Trigger, n: EventName)
    requires RuleFor(s, t).Some? && (t.PaymentSucceeded? || t.PaymentFailed? || t.Cancel?)
    ensures n in RuleFor(s, t).value.events <==> Logs(s, t, n)
  {
  }

  lemma OtherLogs(s: Status, t: Trigger, n: EventName)
    requires RuleFor(s, t).Some? && !(t.PaymentSucceeded? || t.PaymentFailed? || t.Cancel?)
    ensures n in RuleFor(s, t).value.events <==> Logs(s, t, n)
  {
  }

  lemma RuleLogs(s: Status, t: Trigger, n: EventName)
    requires RuleFor(s, t).Some?
    ensures n in RuleFor(s, t).value.events <==> Logs(s, t, n)
  {
    hide RuleFor, Logs;
    if t.PaymentSucceeded? || t.PaymentFailed? || t.Cancel? {
      PaymentLogs(s, t, n);
    } else {
      OtherLogs(s, t, n);
    }
  }

  /** At most two are logged, the expiry last. */
  lemma RuleOrder(s: Status, t: Trigger)
    requires RuleFor(s, t).Some?
    ensures var events := RuleFor(s, t).value.events;
      |events| <= 2 && NoDuplicates(events) && (|events| == 2 ==> events[1] == ExpiredEvent)
  {
  }

  /** A status changes to `expired`, other than by an operator's override, exactly when
      the log says so. */
  lemma ExpiryIsLogged(s: Status, t: Trigger, p: Params)
    requires Admits(s, t) && t != Override
    ensures StatusReached(s, t, p) == Expired <==> Logs(s, t, ExpiredEvent)
  {
  }

  /** Why a change of the shown tier says it happened. */
  function Why(s: Status, t: Trigger, up: bool): string
  {
    match t
    case Start => "purchase"
    case StartTrial => "purchase"
    case Grant => "comp"
    case Override => "override"
    case Revoke => "revoke"
    case Refund => "refund"
    case DunningElapsed => "grace"
    case PaymentSucceeded =>
      if s == Comped then "purchase" else if s == Grace then "restore" else if up then "upgrade" else "downgrade"
    case PaymentFailed => if up then "upgrade" else "downgrade"
    case TrialOverdue => if up then "upgrade" else "downgrade"
    case Cancel => if s == Grace then "expiry" else if up then "upgrade" else "downgrade"
    case _ => "expiry"
  }

  /** The shown tier does not fall in rank. */
  predicate Rises(ranks: map<Tier, nat>, before: Option<Tier>, after: Option<Tier>)
  {
    after.Some? && (before.Some? ==> RankOf(ranks, after.value) >= RankOf(ranks, before.value))
  }

  lemma CauseIsWhy(ranks: map<Tier, nat>, s: Status, t: Trigger, before: Option<Tier>, after: Option<Tier>)
    requires RuleFor(s, t).Some?
    ensures TierCause(ranks, RuleFor(s, t).value, before, after) == Why(s, t, Rises(ranks, before, after))
  {
  }

  /** The log of a move: its lifecycle events in the order they are named, then one
      tier event iff the shown tier changed, then at most one visibility event. */
  lemma StepLogs(tb: Tables, m: Move) returns (names: seq<EventName>)
    requires Try(tb, m).Ok?
    ensures m.listing in tb.listings && m.listing in Step(tb, m).listings && (m.listing in tb.ents || m.params.tier.Some?)
    ensures forall n :: n in names <==> Logs(Was(tb, m).status, m.trigger, n)
    ensures NoDuplicates(names) && |names| <= 2 && (|names| == 2 ==> names[1] == ExpiredEvent)
    ensures var before, after := tb.listings[m.listing], Step(tb, m).listings[m.listing];
      Step(tb, m).events == tb.events + LifecycleEvents(m.listing, names)
        + (if before.currentTier == after.currentTier then []
           else [TierChanged(m.listing, TierKey(before.currentTier), TierKey(after.currentTier), m.now,
                             Why(Was(tb, m).status, m.trigger, Rises(tb.ranks, before.currentTier, after.currentTier)))])
        + VisibilityEvents(m.listing, before.visibility, after.visibility)
  {
    var row, e := StepRow(tb, m);
    assert row == Was(tb, m);
    names := RuleFor(row.status, m.trigger).value.events;
    hide RuleFor, Moved, CurrentRow, Applied, TierCause, LifecycleEvents, VisibilityEvents, Logs;
    forall n ensures n in names <==> Logs(row.status, m.trigger, n) {
      RuleLogs(row.status, m.trigger, n);
    }
    RuleOrder(row.status, m.trigger);
    CauseIsWhy(tb.ranks, row.status, m.trigger, tb.listings[m.listing].currentTier, EffectiveTier(e, m.rank0));
  }

  // --- visibility --------------------------------------------------------------------------

  /** Expiry without a rank-0 tier hides a published listing and flags it; a perk
      status publishes only a listing hidden so, and clears the flag; nothing else
      moves either. */
  lemma VisibilityMoves(tb: Tables, m: Move)
    requires Try(tb, m).Ok?
    ensures m.listing in tb.listings && m.listing in Step(tb, m).listings && m.listing in Step(tb, m).ents
    ensures m.listing in tb.ents || m.params.tier.Some?
    ensures var v, e := tb.listings[m.listing].visibility, Step(tb, m).ents[m.listing];
      var hides := e.status == Expired && m.rank0 == None && v == Published;
      var returns_ := Was(tb, m).hiddenByExpiry && e.status in {Trialing, Active, PastDue, Canceled, Comped};
      && Step(tb, m).listings[m.listing].visibility ==
         (if hides then Hidden else if returns_ && v == Hidden then Published else v)
      && e.hiddenByExpiry == (hides || (Was(tb, m).hiddenByExpiry && !returns_))
  {
    var row, e := StepRow(tb, m);
    assert row == Was(tb, m);
    hide RuleFor, CurrentRow, Applied, Moved, AllColumns;
    MovedColumns(row, m.trigger, m.now, m.params);
  }

  /** A repurchase undoes the hiding of an expiry and nothing else. */
  lemma RepurchaseUndoesHiding(tb: Tables, ends: Move, again: Move)
    requires Try(tb, ends).Ok? && Try(Step(tb, ends), again).Ok? && ends.listing == again.listing
    requires ends.listing in tb.ents && !tb.ents[ends.listing].hiddenByExpiry
    requires Step(tb, ends).ents[ends.listing].status == Expired && again.trigger in {Start, StartTrial, Grant}
    ensures again.listing in Step(Step(tb, ends), again).listings && again.listing in tb.listings
    ensures Step(Step(tb, ends), again).listings[again.listing].visibility == tb.listings[again.listing].visibility
    ensures !Step(Step(tb, ends), again).ents[again.listing].hiddenByExpiry
  {
    VisibilityMoves(tb, ends);
    VisibilityMoves(Step(tb, ends), again);
    StepColumns(Step(tb, ends), again);
    hide Try, Step;
  }

  // --- over runs ------------------------------------------------------------------------------

  /** The tier the last applied move that named one gave the listing. */
  function LastGiven(tb: Tables, moves: seq<Move>, l: nat): Option<Tier>
  {
    if moves == [] then None
    else
      var m := moves[|moves| - 1];
      var early := moves[..|moves| - 1];
      if m.listing == l && GivenTier(m.trigger, m.params).Some? && Try(Run(tb, early), m).Ok?
      then GivenTier(m.trigger, m.params) else LastGiven(tb, early, l)
  }

  /** In every run from the start, a listing's entitlement is for the tier last bought,
      granted, paid for or set, and a status with perks shows that tier. */
  lemma {:induction false} TierIsLastGiven(tb: Tables, moves: seq<Move>, l: nat)
    requires Initial(tb)
    ensures var t := Run(tb, moves);
      && (l in t.ents <==> LastGiven(tb, moves, l).Some?)
      && (l in t.ents ==> Some(t.ents[l].tier) == LastGiven(tb, moves, l) && l in t.listings)
      && (l in t.ents && IsPerk(t.ents[l].status) ==> t.listings[l].currentTier == LastGiven(tb, moves, l))
  {
    hide Step, Try;
    if moves != [] {
      var n := |moves| - 1;
      var was, m := Run(tb, moves[..n]), moves[n];
      TierIsLastGiven(tb, moves[..n], l);
      if m.listing == l && Try(was, m).Ok? {
        TierGivenOrKept(was, m);
        ShownTier(was, m);
      } else {
        OtherListing(was, m, l);
      }
    }
  }

  lemma OtherListing(tb: Tables, m: Move, l: nat)
    requires m.listing != l || Try(tb, m).Err?
    ensures l in Step(tb, m).ents <==> l in tb.ents
    ensures l in tb.ents ==> Step(tb, m).ents[l] == tb.ents[l]
    ensures l in Step(tb, m).listings <==> l in tb.listings
    ensures l in tb.listings ==> Step(tb, m).listings[l] == tb.listings[l]
  {
    if m.listing != l {
      StepFrame(tb, m, l);
    }
  }
}
