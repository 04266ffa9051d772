/** The entitlement service (billing/entitlements.py): `_mutate` on one row, the
    effective tier and its one writer, and `apply_trigger` as one transaction
    over the tenant's tables. */
module Entitlements {
  import opened Prelude
  import opened Machine

  /** A reference to a tier: its key, which is frozen and unique in the tenant. */
  datatype Tier = Tier(key: string)

  /** A row of the `entitlements` table. */
  datatype Ent = Ent(
    tier: Tier,
    status: Status,
    billingMode: BillingMode,
    termDays: Option<nat>,
    startedAt: Option<int>,
    currentPeriodEnd: Option<int>,
    trialEndsAt: Option<int>,
    dunningStartedAt: Option<int>,
    dunningEndsAt: Option<int>,
    graceEndsAt: Option<int>,
    failedAttempts: int,
    lastFailureCode: string,
    cancelAtPeriodEnd: bool,
    canceledAt: Option<int>,
    canceledBy: string,
    renewalNotifiedAt: Option<int>,
    hiddenByExpiry: bool,
    compGrantedBy: Option<nat>,
    compReason: string,
    compExpiresAt: Option<int>,
    paymentRef: map<string, string>)

  /** The status an override asks for; anything outside the enumeration is refused. */
  datatype StatusChoice = Unset | Known(status: Status) | UnknownName

  /** `**params`. An `attempt` of 0 is an absent one (the source tests truth). */
  datatype Params = Params(
    tier: Option<Tier> := None,
    periodEnd: Option<int> := None,
    trialEndsAt: Option<int> := None,
    billingMode: Option<BillingMode> := None,
    termDays: Option<nat> := None,
    paymentRef: map<string, string> := map[],
    failureCode: string := "",
    attempt: int := 0,
    canceledBy: string := "",
    operator: Option<nat> := None,
    reason: Option<string> := None,
    expiresAt: Option<int> := None,
    toStatus: StatusChoice := Unset)

  datatype Refusal = InvalidTransition | NotDue | BadParameters | NoListing

  // --- due conditions (billing/machine.py) ----------------------------------

  predicate Reached(deadline: Option<int>, now: int)
  {
    deadline.Some? && deadline.value <= now
  }

  predicate IsDue(e: Ent, t: Trigger, now: int)
  {
    match t
    case DunningElapsed => e.status == PastDue && Reached(e.dunningEndsAt, now)
    case GraceElapsed => e.status == Grace && Reached(e.graceEndsAt, now)
    case PeriodElapsed => e.status == Canceled && Reached(e.currentPeriodEnd, now)
    case CompExpired => e.status == Comped && Reached(e.compExpiresAt, now)
    case TermEnded => e.status == Active && e.billingMode == Term && Reached(e.currentPeriodEnd, now)
    case TrialOverdue =>
      e.status == Trialing && e.trialEndsAt.Some? && e.trialEndsAt.value + TRIAL_OVERDUE <= now
    case _ => true
  }

  // --- what `_mutate` writes ------------------------------------------------

  function Or<T>(a: Option<T>, b: Option<T>): Option<T>
  {
    if a.Some? then a else b
  }

  function LifecycleReset(e: Ent): Ent
  {
    e.(dunningStartedAt := None, dunningEndsAt := None, graceEndsAt := None, failedAttempts := 0,
       lastFailureCode := "", cancelAtPeriodEnd := false, canceledAt := None, canceledBy := "",
       renewalNotifiedAt := None)
  }

  function CompCleared(e: Ent): Ent
  {
    e.(compGrantedBy := None, compReason := "", compExpiresAt := None)
  }

  function Attempts(e: Ent, attempt: int): int
  {
    if attempt != 0 then attempt else e.failedAttempts + 1
  }

  function InDunning(e: Ent, now: int, code: string, attempt: int): Ent
  {
    e.(dunningStartedAt := Some(now), dunningEndsAt := Some(now + DUNNING),
       failedAttempts := Attempts(e, attempt), lastFailureCode := code)
  }

  function AfterStart(e: Ent, trial: bool, now: int, p: Params): Option<Ent>
  {
    if p.tier.None? || (if trial then p.trialEndsAt.None? else p.periodEnd.None?) then None else
    Some(CompCleared(LifecycleReset(e.(
      tier := p.tier.value,
      billingMode := if p.billingMode.Some? then p.billingMode.value else Recurring,
      termDays := p.termDays,
      status := if trial then Trialing else Active,
      startedAt := Some(now),
      trialEndsAt := if trial then p.trialEndsAt else None,
      currentPeriodEnd := Or(p.periodEnd, p.trialEndsAt),
      paymentRef := p.paymentRef))))
  }

  function AfterPayment(e: Ent, p: Params): Option<Ent>
  {
    if p.periodEnd.None? then None else
    var paid := e.(
      tier := if p.tier.Some? then p.tier.value else e.tier,
      status := Active,
      currentPeriodEnd := p.periodEnd,
      paymentRef := if p.paymentRef != map[] then p.paymentRef else e.paymentRef);
    Some(LifecycleReset(
      if e.status != Comped then paid
      else CompCleared(paid.(billingMode := if p.billingMode.Some? then p.billingMode.value else Recurring))))
  }

  function AfterFailure(e: Ent, code: string, now: int, p: Params): Ent
  {
    if e.status in {PastDue, Grace} then
      e.(failedAttempts := Attempts(e, p.attempt),
         lastFailureCode := if code != "" then code else e.lastFailureCode)
    else
      InDunning(e, now, code, p.attempt).(status := PastDue)
  }

  function AfterCancel(e: Ent, to: Target, now: int, p: Params): Ent
  {
    var c := e.(canceledAt := Some(now), canceledBy := if p.canceledBy != "" then p.canceledBy else "owner");
    if to == To(Canceled) then
      c.(status := Canceled, cancelAtPeriodEnd := true,
         currentPeriodEnd := Or(e.currentPeriodEnd, e.trialEndsAt))
    else c.(status := Expired)
  }

  function AfterGrant(e: Ent, now: int, p: Params): Option<Ent>
  {
    if p.tier.None? || p.operator.None? || p.reason.None? then None else
    Some(LifecycleReset(e.(
      tier := p.tier.value, status := Comped, billingMode := Comp, termDays := None,
      startedAt := Or(e.startedAt, Some(now)), currentPeriodEnd := None, trialEndsAt := None,
      compGrantedBy := p.operator, compReason := p.reason.value, compExpiresAt := p.expiresAt)))
  }

  /** The columns a status overridden to needs of its own. */
  function Landed(a: Ent, to: Status, now: int, p: Params): Option<Ent>
  {
    match to
    case Trialing =>
      if p.trialEndsAt.None? then None
      else Some(a.(trialEndsAt := p.trialEndsAt, currentPeriodEnd := Or(a.currentPeriodEnd, p.trialEndsAt)))
    case PastDue => Some(InDunning(a, now, "override", 0))
    case Grace => Some(a.(graceEndsAt := Some(now + GRACE)))
    case Canceled =>
      if p.periodEnd.None? then None
      else Some(a.(cancelAtPeriodEnd := true, canceledAt := Some(now), canceledBy := "operator"))
    case NoStatus => Some(LifecycleReset(a))
    case Expired => Some(LifecycleReset(a))
    case _ => Some(a)
  }

  function AfterOverride(e: Ent, now: int, p: Params): Option<Ent>
  {
    if p.toStatus == Unset || p.operator.None? || p.reason.None? || p.toStatus == UnknownName then None else
    var to := p.toStatus.status;
    var b := Landed(e.(tier := if p.tier.Some? then p.tier.value else e.tier, status := to,
                       currentPeriodEnd := Or(p.periodEnd, e.currentPeriodEnd)), to, now, p);
    if b.None? then None else Some(if to == Comped then b.value else CompCleared(b.value))
  }

  /** `_mutate`: the row after `t`, or `None` where it raises `EntitlementError`. */
  function Mutated(e: Ent, t: Trigger, to: Target, now: int, p: Params): Option<Ent>
  {
    match t
    case Start => AfterStart(e, false, now, p)
    case StartTrial => AfterStart(e, true, now, p)
    case PaymentSucceeded => AfterPayment(e, p)
    case PaymentFailed => Some(AfterFailure(e, p.failureCode, now, p))
    case TrialOverdue => Some(AfterFailure(e, "trial_unreported", now, p))
    case DunningElapsed => Some(e.(status := Grace, graceEndsAt := Some(now + GRACE)))
    case Cancel => Some(AfterCancel(e, to, now, p))
    case Grant => AfterGrant(e, now, p)
    case Revoke =>
      if p.operator.None? || p.reason.None? then None else Some(CompCleared(e.(status := Expired)))
    case Override => AfterOverride(e, now, p)
    case _ => Some(e.(status := Expired))
  }

  /** The ORM object: it holds the row's columns and `_mutate` assigns them one
      after another; a refused object is discarded unsaved. */
  class Entitlement {
    var row: Ent

    constructor Load(e: Ent)
      ensures row == e
    {
      row := e;
    }

    method ResetLifecycle()
      modifies this
      ensures row == LifecycleReset(old(row))
    {
      row := row.(dunningStartedAt := None);
      row := row.(dunningEndsAt := None);
      row := row.(graceEndsAt := None);
      row := row.(failedAttempts := 0);
      row := row.(lastFailureCode := "");
      row := row.(cancelAtPeriodEnd := false);
      row := row.(canceledAt := None);
      row := row.(canceledBy := "");
      row := row.(renewalNotifiedAt := None);
    }

    method ClearComp()
      modifies this
      ensures row == CompCleared(old(row))
    {
      row := row.(compGrantedBy := None);
      row := row.(compReason := "");
      row := row.(compExpiresAt := None);
    }

    method EnterDunning(now: int, code: string, attempt: int)
      modifies this
      ensures row == InDunning(old(row), now, code, attempt)
    {
      row := row.(dunningStartedAt := Some(now));
      row := row.(dunningEndsAt := Some(now + DUNNING));
      row := row.(failedAttempts := if attempt != 0 then attempt else row.failedAttempts + 1);
      row := row.(lastFailureCode := code);
    }

    method MutateStart(trial: bool, now: int, p: Params) returns (ok: bool)
      modifies this
      ensures ok == AfterStart(old(row), trial, now, p).Some?
      ensures ok ==> AfterStart(old(row), trial, now, p) == Some(row)
    {
      if p.tier.None? { return false; }
      if trial && p.trialEndsAt.None? { return false; }
      if !trial && p.periodEnd.None? { return false; }
      row := row.(tier := p.tier.value);
      row := row.(billingMode := if p.billingMode.Some? then p.billingMode.value else Recurring);
      row := row.(termDays := p.termDays);
      row := row.(status := if trial then Trialing else Active);
      row := row.(startedAt := Some(now));
      row := row.(trialEndsAt := if trial then p.trialEndsAt else None);
      row := row.(currentPeriodEnd := if p.periodEnd.Some? then p.periodEnd else p.trialEndsAt);
      row := row.(paymentRef := p.paymentRef);
      ResetLifecycle();
      ClearComp();
      return true;
    }

    method MutatePayment(p: Params) returns (ok: bool)
      modifies this
      ensures ok == AfterPayment(old(row), p).Some?
      ensures ok ==> AfterPayment(old(row), p) == Some(row)
    {
      if p.periodEnd.None? { return false; }
      var prior := row.status;
      if p.tier.Some? { row := row.(tier := p.tier.value); }
      row := row.(status := Active);
      row := row.(currentPeriodEnd := p.periodEnd);
      if p.paymentRef != map[] { row := row.(paymentRef := p.paymentRef); }
      if prior == Comped {
        row := row.(billingMode := if p.billingMode.Some? then p.billingMode.value else Recurring);
        ClearComp();
      }
      ResetLifecycle();
      return true;
    }

    method MutateFailure(code: string, now: int, p: Params)
      modifies this
      ensures row == AfterFailure(old(row), code, now, p)
    {
      if row.status == PastDue || row.status == Grace {
        row := row.(failedAttempts := if p.attempt != 0 then p.attempt else row.failedAttempts + 1);
        if code != "" { row := row.(lastFailureCode := code); }
      } else {
        EnterDunning(now, code, p.attempt);
        row := row.(status := PastDue);
      }
    }

    method MutateCancel(to: Target, now: int, p: Params)
      modifies this
      ensures row == AfterCancel(old(row), to, now, p)
    {
      row := row.(canceledAt := Some(now));
      row := row.(canceledBy := if p.canceledBy != "" then p.canceledBy else "owner");
      if to == To(Canceled) {
        row := row.(status := Canceled);
        row := row.(cancelAtPeriodEnd := true);
        if row.currentPeriodEnd.None? { row := row.(currentPeriodEnd := row.trialEndsAt); }
      } else {
        row := row.(status := Expired);
      }
    }

    method MutateGrant(now: int, p: Params) returns (ok: bool)
      modifies this
      ensures ok == AfterGrant(old(row), now, p).Some?
      ensures ok ==> AfterGrant(old(row), now, p) == Some(row)
    {
      if p.tier.None? || p.operator.None? || p.reason.None? { return false; }
      row := row.(tier := p.tier.value);
      row := row.(status := Comped);
      row := row.(billingMode := Comp);
      row := row.(termDays := None);
      if row.startedAt.None? { row := row.(startedAt := Some(now)); }
      row := row.(currentPeriodEnd := None);
      row := row.(trialEndsAt := None);
      row := row.(compGrantedBy := p.operator);
      row := row.(compReason := p.reason.value);
      row := row.(compExpiresAt := p.expiresAt);
      ResetLifecycle();
      return true;
    }

    method LandOn(to: Status, now: int, p: Params) returns (ok: bool)
      modifies this
      ensures ok == Landed(old(row), to, now, p).Some?
      ensures ok ==> Landed(old(row), to, now, p) == Some(row)
    {
      if to == Trialing {
        if p.trialEndsAt.None? { return false; }
        row := row.(trialEndsAt := p.trialEndsAt);
        if row.currentPeriodEnd.None? { row := row.(currentPeriodEnd := p.trialEndsAt); }
      }
      if to == PastDue { EnterDunning(now, "override", 0); }
      if to == Grace { row := row.(graceEndsAt := Some(now + GRACE)); }
      if to == Canceled {
        if p.periodEnd.None? { return false; }
        row := row.(cancelAtPeriodEnd := true);
        row := row.(canceledAt := Some(now));
        row := row.(canceledBy := "operator");
      }
      if to == NoStatus || to == Expired { ResetLifecycle(); }
      return true;
    }

    /** The needs of `trialing` and `canceled` are checked after some columns are
        already assigned, as in the source. */
    method MutateOverride(now: int, p: Params) returns (ok: bool)
      modifies this
      ensures ok == AfterOverride(old(row), now, p).Some?
      ensures ok ==> AfterOverride(old(row), now, p) == Some(row)
    {
      if p.toStatus == Unset || p.operator.None? || p.reason.None? { return false; }
      if p.toStatus == UnknownName { return false; }
      var to := p.toStatus.status;
      if p.tier.Some? { row := row.(tier := p.tier.value); }
      row := row.(status := to);
      if p.periodEnd.Some? { row := row.(currentPeriodEnd := p.periodEnd); }
      ok := LandOn(to, now, p);
      if ok && to != Comped { ClearComp(); }
    }

    method Mutate(t: Trigger, to: Target, now: int, p: Params) returns (ok: bool)
      modifies this
      ensures ok == Mutated(old(row), t, to, now, p).Some?
      ensures ok ==> Mutated(old(row), t, to, now, p) == Some(row)
    {
      ok := true;
      match t {
        case Start => ok := MutateStart(false, now, p);
        case StartTrial => ok := MutateStart(true, now, p);
        case PaymentSucceeded => ok := MutatePayment(p);
        case PaymentFailed => MutateFailure(p.failureCode, now, p);
        case TrialOverdue => MutateFailure("trial_unreported", now, p);
        case DunningElapsed =>
          row := row.(status := Grace);
          row := row.(graceEndsAt := Some(now + GRACE));
        case Cancel => MutateCancel(to, now, p);
        case Grant => ok := MutateGrant(now, p);
        case Revoke =>
          if p.operator.None? || p.reason.None? { return false; }
          row := row.(status := Expired);
          ClearComp();
        case Override => ok := MutateOverride(now, p);
        case _ => row := row.(status := Expired);
      }
    }
  }
}
