/** What each kind of payment report does to its listing, from every status: told on
    the tables before and after the delivery (billing/reports.py:104-252). */
module ReportMeanings {
  import opened Prelude
  import opened Machine
  import opened Entitlements
  import opened Billing
  import opened Reports
  import opened EntitlementColumns
  import EntitlementRuns

  /** A first delivery of an event. */
  predicate Fresh(tb: Tables, d: Delivery)
  {
    d.report.eventId != "" && !SeenBefore(tb, d) && ReceiptKey(d) !in tb.receipts
  }

  /** The report is about `l`: by its checkout attempt, by its listing, or by both
      when they agree. */
  predicate About(tb: Tables, r: Report, l: nat)
  {
    && l in tb.listings
    && (r.attempt.Some? || r.listing.Some?)
    && (r.attempt.Some? ==> r.attempt.value in tb.attempts && tb.attempts[r.attempt.value].listing == l)
    && (r.listing.Some? ==> r.listing.value == l)
  }

  function Receipted(tb: Tables, d: Delivery): Tables
  {
    tb.(receipts := tb.receipts[ReceiptKey(d) := ReceiptApplied])
  }

  /** The report is set aside: its receipt is all it leaves. */
  predicate OnlyReceipt(tb: Tables, d: Delivery, after: Tables)
  {
    after == tb.(receipts := tb.receipts[ReceiptKey(d) := ReceiptIgnored])
  }

  /** The report is applied: it leaves its receipt and its log entry, moves `l` and no
      other listing, and ends the events with its own. */
  ghost predicate Moves(tb: Tables, d: Delivery, after: Tables, l: nat, what: string)
  {
    && after.receipts == tb.receipts[ReceiptKey(d) := ReceiptApplied]
    && after.appliedLog == tb.appliedLog + {LogKey(d)} && after.ranks == tb.ranks
    && after.ents.Keys == tb.ents.Keys + {l} && after.listings.Keys == tb.listings.Keys && l in tb.listings
    && (forall k :: k in tb.ents && k != l ==> after.ents[k] == tb.ents[k])
    && (forall k :: k in tb.listings && k != l ==> after.listings[k] == tb.listings[k])
    && tb.events < after.events && after.events[|after.events| - 1] == Money(l, what)
  }

  function MoveOf(l: nat, t: Trigger, d: Delivery, p: Params, cfg: Config): EntitlementRuns.Move
  {
    EntitlementRuns.Move(l, t, d.now, p, cfg.rank0)
  }

  // --- a report is one move, or a receipt ---------------------------------------------------

  lemma ReportIsMove(tb: Tables, d: Delivery, cfg: Config, l: nat, t: Trigger, p: Params, what: string)
    requires Fresh(tb, d) && About(tb, d.report, l) && d.report.kind != UnknownKind
    requires Meaning(tb, l, d.report, cfg) == Ok((t, p, what))
    ensures var w, m := Receipted(tb, d), MoveOf(l, t, d, p, cfg);
      Reported(tb, d, cfg) ==
        match EntitlementRuns.Try(w, m)
        case Ok(moved) =>
          Logged(WithMoney(if StartsAttempt(d.report, t) then Completed(moved, d.report.attempt.value, ExternalId(d.report))
                           else moved, l, what), d)
        case Err(why) => Finished(Ignored(tb, d), Refusing(d.report, why).attempt)
  {
    assert Resolve(tb, d.report) == Ok(l);
    hide Applied, Meaning, Resolve;
  }

  lemma MoveShape(tb: Tables, m: EntitlementRuns.Move)
    requires EntitlementRuns.Try(tb, m).Ok?
    ensures var after, l := EntitlementRuns.Step(tb, m), m.listing;
      && EntitlementRuns.Try(tb, m) == Ok(after) && l in tb.listings
      && after.ents.Keys == tb.ents.Keys + {l} && after.listings.Keys == tb.listings.Keys
      && (forall k :: k in tb.ents && k != l ==> after.ents[k] == tb.ents[k])
      && (forall k :: k in tb.listings && k != l ==> after.listings[k] == tb.listings[k])
      && tb.events <= after.events && after.receipts == tb.receipts && after.attempts == tb.attempts
      && after.appliedLog == tb.appliedLog && after.ranks == tb.ranks
  {
    var row, e := EntitlementRuns.StepRow(tb, m);
    hide RuleFor, Moved, CurrentRow, TierCause, LifecycleEvents, TierEvents, VisibilityEvents, FlagAfter, VisibilityAfter;
  }

  /** An applied report that starts nothing: one move, on columns told elsewhere. */
  lemma AppliedReport(tb: Tables, d: Delivery, cfg: Config, l: nat, t: Trigger, p: Params, what: string)
    requires Fresh(tb, d) && About(tb, d.report, l) && d.report.kind != UnknownKind
    requires Meaning(tb, l, d.report, cfg) == Ok((t, p, what))
    requires l in tb.ents && Admits(tb.ents[l].status, t) && Supplied(t, p) && !ByClock(t)
    ensures var after := Reported(tb, d, cfg);
      && Moves(tb, d, after, l, what) && l in after.ents && l in after.listings
      && AllColumns(tb.ents[l], t, d.now, p, after.ents[l])
      && after.listings[l].currentTier ==
         (if after.ents[l].status in {NoStatus, Grace, Expired} then cfg.rank0 else Some(after.ents[l].tier))
      && (!StartsAttempt(d.report, t) ==> after.attempts == tb.attempts)
  {
    var w, m := Receipted(tb, d), MoveOf(l, t, d, p, cfg);
    MoveAdmitted(w, m);
    ReportIsMove(tb, d, cfg, l, t, p, what);
    MoveShape(w, m);
    StepColumns(w, m);
    ShownTier(w, m);
    hide EntitlementRuns.Try, EntitlementRuns.Step, Meaning, Fresh, Reported, AllColumns, ReceiptKey, LogKey;
  }

  /** A report whose move the status does not admit, from an adapter's other kinds. */
  lemma RefusedReport(tb: Tables, d: Delivery, cfg: Config, l: nat, t: Trigger, p: Params, what: string)
    requires Fresh(tb, d) && About(tb, d.report, l)
    requires d.report.kind !in {CheckoutCompleted, InvoicePaid, UnknownKind}
    requires Meaning(tb, l, d.report, cfg) == Ok((t, p, what)) && !IsStart(t) && t != Grant && t != Override
    requires l !in tb.ents || !Admits(tb.ents[l].status, t)
    ensures OnlyReceipt(tb, d, Reported(tb, d, cfg))
  {
    var w, m := Receipted(tb, d), MoveOf(l, t, d, p, cfg);
    MoveAdmitted(w, m);
    ReportIsMove(tb, d, cfg, l, t, p, what);
    hide EntitlementRuns.Try, EntitlementRuns.Step, Meaning, Reported, ReceiptKey, LogKey;
  }

  // --- the kinds ------------------------------------------------------------------------------

  /** What a fresh report of the kind finds. */
  predicate Arrives(tb: Tables, d: Delivery, kind: Kind, l: nat)
  {
    Fresh(tb, d) && About(tb, d.report, l) && d.report.kind == kind
  }

  function StatusAt(tb: Tables, l: nat): Status
  {
    if l in tb.ents then tb.ents[l].status else NoStatus
  }

  /** The row keeps all it holds but its status. */
  predicate KeepsTerms(was: Ent, r: Ent)
  {
    && r.tier == was.tier && r.billingMode == was.billingMode && r.startedAt == was.startedAt
    && r.trialEndsAt == was.trialEndsAt && r.paymentRef == was.paymentRef
  }

  /** A refund of a paid listing expires it at once and shows the rank-0 tier; of any
      other, it leaves a receipt. */
  lemma RefundExpires(tb: Tables, d: Delivery, cfg: Config, l: nat)
    requires Arrives(tb, d, Refunded, l)
    ensures var after := Reported(tb, d, cfg);
      if StatusAt(tb, l) in {Trialing, Active, PastDue, Grace, Canceled} then
        && Moves(tb, d, after, l, "refund_issued") && after.attempts == tb.attempts
        && after.ents[l].status == Expired && KeepsTerms(tb.ents[l], after.ents[l])
        && after.ents[l].currentPeriodEnd == tb.ents[l].currentPeriodEnd
        && after.listings[l].currentTier == cfg.rank0
      else OnlyReceipt(tb, d, after)
  {
    var p := Params();
    assert Meaning(tb, l, d.report, cfg) == Ok((Refund, p, "refund_issued"));
    hide Reported, Meaning, OnlyReceipt, Moves, Fresh, About;
    if StatusAt(tb, l) in {Trialing, Active, PastDue, Grace, Canceled} {
      AppliedReport(tb, d, cfg, l, Refund, p, "refund_issued");
    } else {
      RefusedReport(tb, d, cfg, l, Refund, p, "refund_issued");
    }
  }

  lemma FailedRow(was: Ent, now: int, p: Params, r: Ent)
    requires AllColumns(was, PaymentFailed, now, p, r)
    ensures r.status == (if was.status == Grace then Grace else PastDue) && KeepsTerms(was, r)
    ensures r.currentPeriodEnd == was.currentPeriodEnd && r.graceEndsAt == was.graceEndsAt
    ensures r.dunningEndsAt == (if was.status in {PastDue, Grace} then was.dunningEndsAt else Some(now + 14 * 86400))
    ensures r.failedAttempts == if p.attempt != 0 then p.attempt else was.failedAttempts + 1
    ensures p.failureCode != "" ==> r.lastFailureCode == p.failureCode
  {
    hide CancelColumns, CompColumns;
  }

  ghost predicate Lapses(tb: Tables, d: Delivery, cfg: Config, l: nat, after: Tables)
  {
    var s := StatusAt(tb, l);
    if s in {Trialing, Active, PastDue, Grace} then
      && Moves(tb, d, after, l, "payment_failed") && after.attempts == tb.attempts
      && after.ents[l].status == (if s == Grace then Grace else PastDue) && KeepsTerms(tb.ents[l], after.ents[l])
      && after.ents[l].currentPeriodEnd == tb.ents[l].currentPeriodEnd
      && after.ents[l].dunningEndsAt ==
         (if s in {Trialing, Active} then Some(d.now + 14 * 86400) else tb.ents[l].dunningEndsAt)
      && after.ents[l].graceEndsAt == tb.ents[l].graceEndsAt
      && after.ents[l].failedAttempts ==
         (if d.report.attemptNumber != 0 then d.report.attemptNumber else tb.ents[l].failedAttempts + 1)
      && (d.report.failureCode != "" ==> after.ents[l].lastFailureCode == d.report.failureCode)
      && after.listings[l].currentTier == (if s == Grace then cfg.rank0 else Some(tb.ents[l].tier))
    else OnlyReceipt(tb, d, after)
  }

  lemma FailureMeans(tb: Tables, r: Report, l: nat, cfg: Config) returns (p: Params)
    requires r.kind == InvoiceFailed
    ensures Meaning(tb, l, r, cfg) == Ok((PaymentFailed, p, "payment_failed"))
    ensures p.failureCode == r.failureCode && p.attempt == r.attemptNumber && p.tier == None
  {
    p := Params(failureCode := r.failureCode, attempt := r.attemptNumber);
  }

  /** A failed invoice puts a paid listing into past_due for 14 days with its tier
      shown, counts in past_due and in grace, and otherwise leaves a receipt. */
  lemma FailureLapses(tb: Tables, d: Delivery, cfg: Config, l: nat)
    requires Arrives(tb, d, InvoiceFailed, l)
    ensures Lapses(tb, d, cfg, l, Reported(tb, d, cfg))
  {
    hide Reported, Meaning, OnlyReceipt, Moves, Fresh, About, AllColumns;
    var p := FailureMeans(tb, d.report, l, cfg);
    if StatusAt(tb, l) in {Trialing, Active, PastDue, Grace} {
      AppliedReport(tb, d, cfg, l, PaymentFailed, p, "payment_failed");
      FailedRow(tb.ents[l], d.now, p, Reported(tb, d, cfg).ents[l]);
    } else {
      RefusedReport(tb, d, cfg, l, PaymentFailed, p, "payment_failed");
    }
  }

  lemma CanceledRow(was: Ent, now: int, p: Params, r: Ent)
    requires AllColumns(was, Cancel, now, p, r)
    ensures r.status == (if was.status == Grace then Expired else Canceled) && KeepsTerms(was, r)
    ensures r.canceledAt == Some(now) && r.canceledBy == (if p.canceledBy == "" then "owner" else p.canceledBy)
    ensures was.currentPeriodEnd.Some? ==> r.currentPeriodEnd == was.currentPeriodEnd
  {
    hide LapseColumns, CompColumns;
  }

  /** A cancellation at the period end keeps the tier until then, except in grace,
      where nothing is left to run to; it names who canceled. */
  lemma CancellationKeepsTier(tb: Tables, d: Delivery, cfg: Config, l: nat)
    requires Arrives(tb, d, SubscriptionCanceled, l) && d.report.atPeriodEnd
    ensures var after, s := Reported(tb, d, cfg), StatusAt(tb, l);
      if s in {Trialing, Active, PastDue, Grace} then
        && Moves(tb, d, after, l, "subscription_canceled") && after.attempts == tb.attempts
        && after.ents[l].status == (if s == Grace then Expired else Canceled) && KeepsTerms(tb.ents[l], after.ents[l])
        && after.ents[l].canceledAt == Some(d.now)
        && after.ents[l].canceledBy == (if d.report.canceledBy == "" then "owner" else d.report.canceledBy)
        && (tb.ents[l].currentPeriodEnd.Some? ==> after.ents[l].currentPeriodEnd == tb.ents[l].currentPeriodEnd)
        && after.listings[l].currentTier == (if s == Grace then cfg.rank0 else Some(tb.ents[l].tier))
      else OnlyReceipt(tb, d, after)
  {
    var p := Params(canceledBy := if d.report.canceledBy != "" then d.report.canceledBy else "owner");
    assert Meaning(tb, l, d.report, cfg) == Ok((Cancel, p, "subscription_canceled"));
    hide Reported, Meaning, OnlyReceipt, Moves, Fresh, About, AllColumns;
    if StatusAt(tb, l) in {Trialing, Active, PastDue, Grace} {
      AppliedReport(tb, d, cfg, l, Cancel, p, "subscription_canceled");
      CanceledRow(tb.ents[l], d.now, p, Reported(tb, d, cfg).ents[l]);
    } else {
      RefusedReport(tb, d, cfg, l, Cancel, p, "subscription_canceled");
    }
  }

  /** A cancellation with immediate effect expires any paid listing. */
  lemma CancellationNowExpires(tb: Tables, d: Delivery, cfg: Config, l: nat)
    requires Arrives(tb, d, SubscriptionCanceled, l) && !d.report.atPeriodEnd
    ensures var after := Reported(tb, d, cfg);
      if StatusAt(tb, l) in {Trialing, Active, PastDue, Grace, Canceled} then
        && Moves(tb, d, after, l, "subscription_canceled") && after.attempts == tb.attempts
        && after.ents[l].status == Expired && KeepsTerms(tb.ents[l], after.ents[l])
        && after.listings[l].currentTier == cfg.rank0
      else OnlyReceipt(tb, d, after)
  {
    var p := Params();
    assert Meaning(tb, l, d.report, cfg) == Ok((SubscriptionEnded, p, "subscription_canceled"));
    hide Reported, Meaning, OnlyReceipt, Moves, Fresh, About;
    if StatusAt(tb, l) in {Trialing, Active, PastDue, Grace, Canceled} {
      AppliedReport(tb, d, cfg, l, SubscriptionEnded, p, "subscription_canceled");
    } else {
      RefusedReport(tb, d, cfg, l, SubscriptionEnded, p, "subscription_canceled");
    }
  }

  /** The row is paid up: active on the tier, to the period end, with no lapse left. */
  predicate PaidUp(e: Ent, tier: Tier, periodEnd: Option<int>)
  {
    && e.status == Active && e.tier == tier && e.currentPeriodEnd == periodEnd
    && e.dunningEndsAt == None && e.graceEndsAt == None && e.failedAttempts == 0 && !e.cancelAtPeriodEnd
  }

  lemma PaidRow(was: Ent, now: int, p: Params, r: Ent)
    requires AllColumns(was, PaymentSucceeded, now, p, r) && p.periodEnd.Some?
    ensures PaidUp(r, if p.tier.Some? then p.tier.value else was.tier, p.periodEnd) && r.status == Active
    ensures r.tier == if p.tier.Some? then p.tier.value else was.tier
    ensures r.paymentRef == if p.paymentRef == map[] then was.paymentRef else p.paymentRef
  {
    hide CompColumns;
  }

  /** A plan change leaves a listing that holds something active on the named tier; an
      incomplete report, an unknown tier or a listing that holds nothing gets a receipt. */
  lemma ChangeMovesTier(tb: Tables, d: Delivery, cfg: Config, l: nat)
    requires Arrives(tb, d, SubscriptionChanged, l)
    ensures var after, r := Reported(tb, d, cfg), d.report;
      if StatusAt(tb, l) !in {NoStatus, Expired} && r.tierKey != "" && r.tierKey in cfg.tiers && r.periodEnd.Some? then
        && Moves(tb, d, after, l, "subscription_changed") && after.attempts == tb.attempts
        && PaidUp(after.ents[l], cfg.tiers[r.tierKey], r.periodEnd)
        && after.listings[l].currentTier == Some(cfg.tiers[r.tierKey])
      else OnlyReceipt(tb, d, after)
  {
    var r := d.report;
    if r.tierKey != "" && r.tierKey in cfg.tiers && r.periodEnd.Some? {
      var p := Params(tier := Some(cfg.tiers[r.tierKey]), periodEnd := r.periodEnd, paymentRef := r.paymentRef);
      assert Meaning(tb, l, r, cfg) == Ok((PaymentSucceeded, p, "subscription_changed"));
      hide Reported, Meaning, OnlyReceipt, Moves, Fresh, About, AllColumns, PaidUp;
      if StatusAt(tb, l) !in {NoStatus, Expired} {
        AppliedReport(tb, d, cfg, l, PaymentSucceeded, p, "subscription_changed");
        PaidRow(tb.ents[l], d.now, p, Reported(tb, d, cfg).ents[l]);
      } else {
        RefusedReport(tb, d, cfg, l, PaymentSucceeded, p, "subscription_changed");
      }
    } else {
      assert Meaning(tb, l, r, cfg).Err?;
      Unmeant(tb, d, cfg, l);
      hide Reported, Meaning;
    }
  }

  lemma Unmeant(tb: Tables, d: Delivery, cfg: Config, l: nat)
    requires Fresh(tb, d) && About(tb, d.report, l) && Meaning(tb, l, d.report, cfg).Err?
    ensures OnlyReceipt(tb, d, Reported(tb, d, cfg))
  {
    assert Resolve(tb, d.report) == Ok(l);
    hide Meaning, Resolve, Applied;
  }

  /** A paid invoice of a listing that holds something pays for the tier named, or for
      the one held when none is named; an unknown tier gets a receipt. */
  lemma InvoicePaysUp(tb: Tables, d: Delivery, cfg: Config, l: nat)
    requires Arrives(tb, d, InvoicePaid, l) && StatusAt(tb, l) !in {NoStatus, Expired}
    ensures var after, r := Reported(tb, d, cfg), d.report;
      if r.periodEnd.Some? && (r.tierKey == "" || r.tierKey in cfg.tiers) then
        var tier := if r.tierKey == "" then tb.ents[l].tier else cfg.tiers[r.tierKey];
        && Moves(tb, d, after, l, "payment_succeeded") && after.attempts == tb.attempts
        && PaidUp(after.ents[l], tier, r.periodEnd) && after.listings[l].currentTier == Some(tier)
        && after.ents[l].paymentRef == (if r.paymentRef == map[] then tb.ents[l].paymentRef else r.paymentRef)
      else OnlyReceipt(tb, d, after)
  {
    var r := d.report;
    if r.periodEnd.Some? && (r.tierKey == "" || r.tierKey in cfg.tiers) {
      var p := Params(tier := if r.tierKey == "" then None else Some(cfg.tiers[r.tierKey]),
                      periodEnd := r.periodEnd, paymentRef := r.paymentRef);
      assert Meaning(tb, l, r, cfg) == Ok((PaymentSucceeded, p, "payment_succeeded"));
      hide Reported, Meaning, OnlyReceipt, Moves, Fresh, About, AllColumns, PaidUp;
      AppliedReport(tb, d, cfg, l, PaymentSucceeded, p, "payment_succeeded");
      PaidRow(tb.ents[l], d.now, p, Reported(tb, d, cfg).ents[l]);
    } else {
      assert Meaning(tb, l, r, cfg).Err?;
      Unmeant(tb, d, cfg, l);
      hide Reported, Meaning;
    }
  }

  // --- starts ----------------------------------------------------------------------------------

  /** The attempt is spent, and keeps the provider's reference it had or takes the
      report's. */
  predicate Spends(was: Attempt, a: Attempt, r: Report)
  {
    && a.status == AttemptCompleted && a.tier == was.tier && a.listing == was.listing
    && a.externalRef ==
       (if was.externalRef != "" then was.externalRef
        else if "external_id" in r.paymentRef then Take(r.paymentRef["external_id"], 200) else "")
  }

  /** The row a start leaves. */
  predicate FreshRow(e: Ent, tier: Tier, trial: bool, d: Delivery)
  {
    && e.status == (if trial then Trialing else Active) && e.tier == tier
    && e.startedAt == Some(d.now) && e.billingMode == Recurring && e.paymentRef == d.report.paymentRef
    && e.trialEndsAt == (if trial then d.report.trialEndsAt else None)
    && e.currentPeriodEnd == (if trial then d.report.trialEndsAt else d.report.periodEnd)
    && e.compGrantedBy == None && e.dunningEndsAt == None && e.graceEndsAt == None && !e.cancelAtPeriodEnd
  }

  lemma StartedRow(was: Ent, trial: bool, d: Delivery, p: Params, r: Ent)
    requires AllColumns(was, if trial then StartTrial else Start, d.now, p, r)
    requires p.tier.Some? && p.paymentRef == d.report.paymentRef && p.billingMode == None
    requires if trial then p.trialEndsAt == d.report.trialEndsAt && p.periodEnd == None
             else p.periodEnd == d.report.periodEnd && p.periodEnd.Some?
    ensures FreshRow(r, p.tier.value, trial, d) && r.status == (if trial then Trialing else Active)
  {
  }

  /** What an applied start leaves of its listing and its attempt. */
  ghost predicate Begins(tb: Tables, d: Delivery, after: Tables, l: nat, a: nat, trial: bool, what: string)
  {
    && Moves(tb, d, after, l, what) && a in tb.attempts
    && after.attempts.Keys == tb.attempts.Keys && Spends(tb.attempts[a], after.attempts[a], d.report)
    && (forall k :: k in tb.attempts && k != a ==> after.attempts[k] == tb.attempts[k])
    && FreshRow(after.ents[l], tb.attempts[a].tier, trial, d)
    && after.listings[l].currentTier == Some(tb.attempts[a].tier)
  }

  lemma StartReport(tb: Tables, d: Delivery, cfg: Config, l: nat, a: nat, trial: bool, p: Params, what: string)
    requires Fresh(tb, d) && About(tb, d.report, l) && d.report.kind != UnknownKind && d.report.attempt == Some(a)
    requires p == (if trial then Params(tier := Some(tb.attempts[a].tier), trialEndsAt := d.report.trialEndsAt, paymentRef := d.report.paymentRef)
                   else Params(tier := Some(tb.attempts[a].tier), periodEnd := d.report.periodEnd, paymentRef := d.report.paymentRef))
    requires if trial then d.report.trialEndsAt.Some? else d.report.periodEnd.Some?
    requires Meaning(tb, l, d.report, cfg) == Ok((if trial then StartTrial else Start, p, what))
    requires StatusAt(tb, l) in (if trial then {NoStatus, Expired} else {NoStatus, Expired, Canceled, Comped})
    ensures Begins(tb, d, Reported(tb, d, cfg), l, a, trial, what)
  {
    hide AllColumns, FreshRow, Meaning, Fresh, Reported, EntitlementRuns.Try, EntitlementRuns.Step, ReceiptKey, LogKey;
    hide Completed;
    var t := if trial then StartTrial else Start;
    var w, m := Receipted(tb, d), MoveOf(l, t, d, p, cfg);
    MoveAdmitted(w, m);
    ReportIsMove(tb, d, cfg, l, t, p, what);
    hide Admits, Supplied;
    MoveShape(w, m);
    StepColumns(w, m);
    ShownTier(w, m);
    StartedRow(Was(w, m), trial, d, p, EntitlementRuns.Step(w, m).ents[l]);
    CompletedSpends(EntitlementRuns.Step(w, m), a, d.report);
  }

  lemma CompletedSpends(tb: Tables, a: nat, r: Report)
    requires a in tb.attempts
    ensures var after := Completed(tb, a, ExternalId(r));
      && after == tb.(attempts := after.attempts) && after.attempts.Keys == tb.attempts.Keys
      && Spends(tb.attempts[a], after.attempts[a], r)
      && forall k :: k in tb.attempts && k != a ==> after.attempts[k] == tb.attempts[k]
  {
  }

  /** A completed checkout starts the attempt's tier, on trial when the report gives a
      trial end, wherever a purchase may start. Where one is in force the attempt is
      only closed; a spent attempt or a missing date gets a receipt. */
  lemma CheckoutStarts(tb: Tables, d: Delivery, cfg: Config, l: nat, a: nat)
    requires Arrives(tb, d, CheckoutCompleted, l) && d.report.attempt == Some(a)
    ensures var after, r := Reported(tb, d, cfg), d.report; var trial := r.trialEndsAt.Some?;
      if tb.attempts[a].status != AttemptStarted || (r.periodEnd.None? && !trial) then OnlyReceipt(tb, d, after)
      else if StatusAt(tb, l) in (if trial then {NoStatus, Expired} else {NoStatus, Expired, Canceled, Comped}) then
        Begins(tb, d, after, l, a, trial, "subscription_started")
      else
        after == tb.(receipts := tb.receipts[ReceiptKey(d) := ReceiptIgnored],
                     attempts := tb.attempts[a := tb.attempts[a].(status := AttemptCompleted)])
  {
    var r := d.report;
    var trial := r.trialEndsAt.Some?;
    if tb.attempts[a].status != AttemptStarted || (r.periodEnd.None? && !trial) {
      assert Meaning(tb, l, r, cfg).Err?;
      Unmeant(tb, d, cfg, l);
      hide Reported, Meaning;
    } else {
      var tier := Some(tb.attempts[a].tier);
      var p := if trial then Params(tier := tier, trialEndsAt := r.trialEndsAt, paymentRef := r.paymentRef)
               else Params(tier := tier, periodEnd := r.periodEnd, paymentRef := r.paymentRef);
      var t := if trial then StartTrial else Start;
      assert Meaning(tb, l, r, cfg) == Ok((t, p, "subscription_started"));
      hide Reported, Meaning, Begins, Fresh;
      if StatusAt(tb, l) in (if trial then {NoStatus, Expired} else {NoStatus, Expired, Canceled, Comped}) {
        StartReport(tb, d, cfg, l, a, trial, p, "subscription_started");
      } else {
        StartRefused(tb, d, cfg, l, a, t, p);
      }
    }
  }

  lemma StartRefused(tb: Tables, d: Delivery, cfg: Config, l: nat, a: nat, t: Trigger, p: Params)
    requires Arrives(tb, d, CheckoutCompleted, l) && d.report.attempt == Some(a) && IsStart(t)
    requires tb.attempts[a].status == AttemptStarted && Meaning(tb, l, d.report, cfg) == Ok((t, p, "subscription_started"))
    requires !Admits(StatusAt(tb, l), t)
    ensures Reported(tb, d, cfg) ==
      tb.(receipts := tb.receipts[ReceiptKey(d) := ReceiptIgnored],
          attempts := tb.attempts[a := tb.attempts[a].(status := AttemptCompleted)])
  {
    var w, m := Receipted(tb, d), MoveOf(l, t, d, p, cfg);
    assert l in tb.ents;
    RowAdmitted(tb.ents[l], t, d.now, p);
    ReportIsMove(tb, d, cfg, l, t, p, "subscription_started");
    assert EntitlementRuns.Try(w, m) == Err(InvalidTransition);
    hide EntitlementRuns.Try, EntitlementRuns.Step, Meaning, Reported, ReceiptKey, LogKey, SeenBefore;
  }

  /** A first invoice may come before its checkout: on a listing that holds nothing it
      starts the open attempt's tier; without an open attempt it leaves a receipt. */
  lemma FirstInvoiceStarts(tb: Tables, d: Delivery, cfg: Config, l: nat)
    requires Arrives(tb, d, InvoicePaid, l) && StatusAt(tb, l) in {NoStatus, Expired}
    ensures var after, r := Reported(tb, d, cfg), d.report;
      if r.periodEnd.Some? && r.attempt.Some? && tb.attempts[r.attempt.value].status == AttemptStarted then
        Begins(tb, d, after, l, r.attempt.value, false, "payment_succeeded")
      else OnlyReceipt(tb, d, after)
  {
    var r := d.report;
    if r.periodEnd.Some? && r.attempt.Some? && tb.attempts[r.attempt.value].status == AttemptStarted {
      var p := Params(tier := Some(tb.attempts[r.attempt.value].tier), periodEnd := r.periodEnd, paymentRef := r.paymentRef);
      assert Meaning(tb, l, r, cfg) == Ok((Start, p, "payment_succeeded"));
      hide Reported, Meaning, Begins, Fresh;
      StartReport(tb, d, cfg, l, r.attempt.value, false, p, "payment_succeeded");
    } else {
      assert Meaning(tb, l, r, cfg).Err?;
      Unmeant(tb, d, cfg, l);
      hide Reported, Meaning;
    }
  }

  // --- reports about nothing -----------------------------------------------------------------

  /** A report of an unknown kind, of an attempt or a listing core does not know, or of
      an attempt on another listing than it names, moves nothing. */
  lemma StrayReportMovesNothing(tb: Tables, d: Delivery, cfg: Config)
    requires Fresh(tb, d)
    requires d.report.kind == UnknownKind || forall l :: l in tb.listings ==> !About(tb, d.report, l)
    requires forall a :: a in tb.attempts ==> tb.attempts[a].listing in tb.listings
    ensures OnlyReceipt(tb, d, Reported(tb, d, cfg))
  {
    ResolvedIsAbout(tb, d.report);
    hide Applied, Meaning, Resolve, About;
  }

  /** A new event whose shortened id has a receipt is taken for that event: it is logged
      as applied, under its own id, and moves nothing. */
  lemma TakenForAnother(tb: Tables, d: Delivery, cfg: Config)
    requires !SeenBefore(tb, d) && ReceiptKey(d) in tb.receipts && d.report.eventId != "" && d.report.kind != UnknownKind
    ensures Reported(tb, d, cfg) == tb.(appliedLog := tb.appliedLog + {(d.adapter, d.report.eventId)})
  {
    hide Applied, Meaning, Resolve, SeenBefore, ReceiptKey;
  }

  lemma ResolvedIsAbout(tb: Tables, r: Report)
    requires forall a :: a in tb.attempts ==> tb.attempts[a].listing in tb.listings
    ensures Resolve(tb, r).Ok? ==> About(tb, r, Resolve(tb, r).value)
  {
  }
}
