/** `entitlement.reportPayment` (billing/reports.py): a payment adapter's
    at-least-once reports, resolved, mapped to a trigger, and deduplicated by a
    receipt inserted in the same transaction as the state change. */
module Reports {
  import opened Prelude
  import opened Machine
  import opened Entitlements
  import opened Billing

  datatype Kind =
    | CheckoutCompleted | InvoicePaid | InvoiceFailed | Refunded
    | SubscriptionChanged | SubscriptionCanceled | UnknownKind

  datatype Report = Report(
    kind: Kind,
    eventId: string,
    attempt: Option<nat>,
    listing: Option<nat>,
    tierKey: string,
    periodEnd: Option<int>,
    trialEndsAt: Option<int>,
    paymentRef: map<string, string>,
    failureCode: string,
    attemptNumber: int,
    atPeriodEnd: bool,
    canceledBy: string)

  /** The tenant's tiers by key, and its rank-0 tier if it has one. */
  datatype Config = Config(tiers: map<string, Tier>, rank0: Option<Tier>)

  datatype Delivery = Delivery(adapter: string, report: Report, now: int)

  datatype Reason =
    | UnknownKindReason | BadReport | UnknownCheckout | UnknownListing | CheckoutMismatch
    | UnknownTier | CheckoutAlreadyCompleted | NoEntitlement | Invalid

  /** `ReportRefused`: the reason, and the attempt to finish all the same. */
  datatype Refused = Refused(reason: Reason, attempt: Option<nat>)

  // --- keys -------------------------------------------------------------------

  /** The command log's idempotency key: the full event id. */
  function LogKey(d: Delivery): Key
  {
    (d.adapter, d.report.eventId)
  }

  /** The receipt's key: the event id as stored, at most 200 characters. */
  function ReceiptKey(d: Delivery): Key
  {
    (d.adapter, Take(d.report.eventId, 200))
  }

  // --- resolving and mapping a report -------------------------------------------

  function Resolve(tb: Tables, r: Report): Result<nat, Reason>
  {
    if r.attempt.Some? && r.attempt.value !in tb.attempts then Err(UnknownCheckout)
    else if r.listing.Some? && r.listing.value !in tb.listings then Err(UnknownListing)
    else if r.attempt.Some? then
      var of := tb.attempts[r.attempt.value].listing;
      if r.listing.Some? && r.listing.value != of then Err(CheckoutMismatch) else Ok(of)
    else if r.listing.None? then Err(UnknownListing)
    else Ok(r.listing.value)
  }

  function StatusOf(tb: Tables, l: nat): Status
  {
    if l in tb.ents then tb.ents[l].status else NoStatus
  }

  predicate Startable(tb: Tables, r: Report)
  {
    r.attempt.Some? && r.attempt.value in tb.attempts && tb.attempts[r.attempt.value].status == AttemptStarted
  }

  /** `_trigger`: which move the report asks for. */
  function Meaning(tb: Tables, l: nat, r: Report, cfg: Config): Result<(Trigger, Params, string), Reason>
  {
    match r.kind
    case CheckoutCompleted =>
      if r.attempt.None? || r.attempt.value !in tb.attempts then Err(UnknownCheckout)
      else if !Startable(tb, r) then Err(CheckoutAlreadyCompleted)
      else
        var tier := Some(tb.attempts[r.attempt.value].tier);
        if r.trialEndsAt.Some? then
          Ok((StartTrial, Params(tier := tier, trialEndsAt := r.trialEndsAt, paymentRef := r.paymentRef),
              "subscription_started"))
        else if r.periodEnd.None? then Err(BadReport)
        else
          Ok((Start, Params(tier := tier, periodEnd := r.periodEnd, paymentRef := r.paymentRef),
              "subscription_started"))
    case InvoicePaid =>
      if r.periodEnd.None? then Err(BadReport)
      else if StatusOf(tb, l) in {NoStatus, Expired} then
        if !Startable(tb, r) then Err(NoEntitlement)
        else
          Ok((Start, Params(tier := Some(tb.attempts[r.attempt.value].tier), periodEnd := r.periodEnd,
                            paymentRef := r.paymentRef), "payment_succeeded"))
      else if r.tierKey == "" then
        Ok((PaymentSucceeded, Params(periodEnd := r.periodEnd, paymentRef := r.paymentRef), "payment_succeeded"))
      else if r.tierKey !in cfg.tiers then Err(UnknownTier)
      else
        Ok((PaymentSucceeded, Params(tier := Some(cfg.tiers[r.tierKey]), periodEnd := r.periodEnd,
                                     paymentRef := r.paymentRef), "payment_succeeded"))
    case InvoiceFailed =>
      Ok((PaymentFailed, Params(failureCode := r.failureCode, attempt := r.attemptNumber), "payment_failed"))
    case Refunded => Ok((Refund, Params(), "refund_issued"))
    case SubscriptionChanged =>
      if r.tierKey == "" || r.periodEnd.None? then Err(BadReport)
      else if r.tierKey !in cfg.tiers then Err(UnknownTier)
      else
        Ok((PaymentSucceeded, Params(tier := Some(cfg.tiers[r.tierKey]), periodEnd := r.periodEnd,
                                     paymentRef := r.paymentRef), "subscription_changed"))
    case SubscriptionCanceled =>
      if r.atPeriodEnd then
        Ok((Cancel, Params(canceledBy := if r.canceledBy != "" then r.canceledBy else "owner"),
            "subscription_canceled"))
      else Ok((SubscriptionEnded, Params(), "subscription_canceled"))
    case UnknownKind => Err(UnknownKindReason)
  }

  // --- one delivery --------------------------------------------------------------

  datatype Outcome = Committed(tables: Tables) | Duplicate | NotApplied(refused: Refused)

  predicate StartsAttempt(r: Report, t: Trigger)
  {
    r.attempt.Some? && t in {Start, StartTrial}
  }

  function Completed(tb: Tables, a: nat, externalId: string): Tables
  {
    if a !in tb.attempts then tb else
    var was := tb.attempts[a];
    tb.(attempts := tb.attempts[a := was.(status := AttemptCompleted,
                                         externalRef := if was.externalRef != "" then was.externalRef else externalId)])
  }

  function ExternalId(r: Report): string
  {
    if "external_id" in r.paymentRef then Take(r.paymentRef["external_id"], 200) else ""
  }

  /** `_apply`: one transaction. The receipt is inserted first; any refusal rolls
      it back with the rest. */
  function ApplyReport(tb: Tables, d: Delivery, cfg: Config): Outcome
  {
    var r := d.report;
    if r.kind == UnknownKind then NotApplied(Refused(UnknownKindReason, None))
    else if r.eventId == "" then NotApplied(Refused(BadReport, None))
    else if ReceiptKey(d) in tb.receipts then Duplicate
    else
      var listing := Resolve(tb, r);
      if listing.Err? then NotApplied(Refused(listing.error, None)) else
      var meaning := Meaning(tb, listing.value, r, cfg);
      if meaning.Err? then NotApplied(Refused(meaning.error, None)) else
      var (t, p, money) := meaning.value;
      var withReceipt := tb.(receipts := tb.receipts[ReceiptKey(d) := ReceiptApplied]);
      var moved := Applied(withReceipt, listing.value, t, d.now, p, cfg.rank0);
      if moved.Err? then NotApplied(Refusing(r, moved.error))
      else Committed(WithMoney(if StartsAttempt(r, t) then Completed(moved.value, r.attempt.value, ExternalId(r))
                               else moved.value, listing.value, money))
  }

  function Refusing(r: Report, why: Refusal): Refused
  {
    if why == InvalidTransition then
      Refused(Invalid, if r.kind in {CheckoutCompleted, InvoicePaid} then r.attempt else None)
    else Refused(BadReport, None)
  }

  function WithMoney(tb: Tables, l: nat, what: string): Tables
  {
    tb.(events := tb.events + [Money(l, what)])
  }

  /** `_ignore`: the receipt of a report core will not apply, unless one exists. */
  function Ignored(tb: Tables, d: Delivery): Tables
  {
    if ReceiptKey(d) in tb.receipts then tb
    else tb.(receipts := tb.receipts[ReceiptKey(d) := ReceiptIgnored])
  }

  /** A purchase already in force still finishes its checkout attempt. */
  function Finished(tb: Tables, attempt: Option<nat>): Tables
  {
    if attempt.Some? && attempt.value in tb.attempts && tb.attempts[attempt.value].status == AttemptStarted
    then tb.(attempts := tb.attempts[attempt.value := tb.attempts[attempt.value].(status := AttemptCompleted)])
    else tb
  }

  predicate SeenBefore(tb: Tables, d: Delivery)
  {
    LogKey(d) in tb.appliedLog || LogKey(d) in tb.receipts
  }

  function Logged(tb: Tables, d: Delivery): Tables
  {
    tb.(appliedLog := tb.appliedLog + {LogKey(d)})
  }

  /** `report_payment`, run without another delivery in between. */
  function Reported(tb: Tables, d: Delivery, cfg: Config): Tables
  {
    if SeenBefore(tb, d) then tb else
    match ApplyReport(tb, d, cfg)
    case Committed(after) => Logged(after, d)
    case Duplicate => Logged(tb, d)
    case NotApplied(why) => Finished(Ignored(tb, d), why.attempt)
  }

  // --- the same command on the store ----------------------------------------------

  datatype Answer = AnswerApplied | AnswerReplayed | AnswerIgnored(reason: Reason)

  /** The transaction body after the receipt insert; `Some` means roll back. */
  method ApplyBody(db: Store, d: Delivery, cfg: Config) returns (refused: Option<Refused>)
    requires d.report.kind != UnknownKind && d.report.eventId != "" && ReceiptKey(d) !in db.receipts
    modifies db
    ensures match ApplyReport(old(db.State()), d, cfg)
            case Committed(after) => refused == None && db.State() == after
            case Duplicate => false
            case NotApplied(why) => refused == Some(why) && db.State() == old(db.State())
  {
    var r, before := d.report, db.receipts;
    var listing := Resolve(db.State(), r);
    if listing.Err? { return Some(Refused(listing.error, None)); }
    var meaning := Meaning(db.State(), listing.value, r, cfg);
    if meaning.Err? { return Some(Refused(meaning.error, None)); }
    var (t, p, money) := meaning.value;
    db.receipts := db.receipts[ReceiptKey(d) := ReceiptApplied];
    var error := db.ApplyTrigger(listing.value, t, d.now, p, cfg.rank0);
    if error.Some? {
      db.receipts := before;  // the transaction rolls back
      return Some(Refusing(r, error.value));
    }
    if StartsAttempt(r, t) && r.attempt.value in db.attempts {
      var was := db.attempts[r.attempt.value];
      db.attempts := db.attempts[r.attempt.value := was.(status := AttemptCompleted,
        externalRef := if was.externalRef != "" then was.externalRef else ExternalId(r))];
    }
    db.events := db.events + [Money(listing.value, money)];
    return None;
  }

  method ReportPayment(db: Store, d: Delivery, cfg: Config) returns (answer: Answer)
    modifies db
    ensures db.State() == Reported(old(db.State()), d, cfg)
    ensures answer == AnswerReplayed <==>
              SeenBefore(old(db.State()), d) || ApplyReport(old(db.State()), d, cfg) == Duplicate
    ensures answer == AnswerApplied <==>
              !SeenBefore(old(db.State()), d) && ApplyReport(old(db.State()), d, cfg).Committed?
  {
    if LogKey(d) in db.appliedLog { return AnswerReplayed; }
    if LogKey(d) in db.receipts { return AnswerReplayed; }
    var refused: Option<Refused>;
    if d.report.kind == UnknownKind {
      refused := Some(Refused(UnknownKindReason, None));
    } else if d.report.eventId == "" {
      refused := Some(Refused(BadReport, None));
    } else if ReceiptKey(d) in db.receipts {
      db.appliedLog := db.appliedLog + {LogKey(d)};
      return AnswerReplayed;
    } else {
      refused := ApplyBody(db, d, cfg);
    }
    if refused.None? {
      db.appliedLog := db.appliedLog + {LogKey(d)};
      return AnswerApplied;
    }
    Ignore(db, d);
    Finish(db, refused.value.attempt);
    return AnswerIgnored(refused.value.reason);
  }

  method Ignore(db: Store, d: Delivery)
    modifies db`receipts
    ensures db.State() == Ignored(old(db.State()), d)
  {
    if ReceiptKey(d) !in db.receipts {
      db.receipts := db.receipts[ReceiptKey(d) := ReceiptIgnored];
    }
  }

  method Finish(db: Store, attempt: Option<nat>)
    modifies db`attempts
    ensures db.State() == Finished(old(db.State()), attempt)
  {
    if attempt.Some? && attempt.value in db.attempts && db.attempts[attempt.value].status == AttemptStarted {
      db.attempts := db.attempts[attempt.value := db.attempts[attempt.value].(status := AttemptCompleted)];
    }
  }
}
