/** Exactly-once and order independence of payment reports. */
module ReportRuns {
  import opened Prelude
  import opened Machine
  import opened Entitlements
  import opened Billing
  import opened Reports
  import EntitlementRuns

  // --- duplicates in a sequential run -----------------------------------------

  /** A logged key always has its receipt, stored in at most 200 characters. */
  ghost predicate LogSound(tb: Tables)
  {
    && (forall k :: k in tb.appliedLog ==> (k.0, Take(k.1, 200)) in tb.receipts)
    && (forall k :: k in tb.receipts ==> |k.1| <= 200)
  }

  /** The same billing state: everything but the command log. */
  ghost predicate Same(a: Tables, b: Tables)
  {
    && a.ents == b.ents && a.listings == b.listings && a.events == b.events
    && a.attempts == b.attempts && a.receipts == b.receipts && a.ranks == b.ranks
  }

  lemma AppliedKeepsReceipts(tb: Tables, l: nat, t: Trigger, now: int, p: Params, rank0: Option<Tier>)
    ensures var r := Applied(tb, l, t, now, p, rank0);
            r.Ok? ==> r.value.receipts == tb.receipts && r.value.attempts == tb.attempts
                      && r.value.appliedLog == tb.appliedLog
  {
  }

  lemma CommittedShape(tb: Tables, d: Delivery, cfg: Config)
    requires ApplyReport(tb, d, cfg).Committed?
    ensures var after := ApplyReport(tb, d, cfg).tables;
            && ReceiptKey(d) !in tb.receipts
            && after.receipts == tb.receipts[ReceiptKey(d) := ReceiptApplied]
            && after.appliedLog == tb.appliedLog
  {
  }

  /** Whatever happens to a report, its receipt exists afterwards and no receipt
      is lost; if it already existed, nothing but the command log changes. */
  lemma ReportLeavesReceipt(tb: Tables, d: Delivery, cfg: Config)
    requires LogSound(tb)
    ensures var after := Reported(tb, d, cfg);
            && LogSound(after)
            && after.receipts.Keys == tb.receipts.Keys + {ReceiptKey(d)}
            && (ReceiptKey(d) in tb.receipts ==> Same(after, tb))
  {
    hide ApplyReport, LogSound, SeenBefore, ReceiptKey, LogKey, Ignored, Finished;
    var after := Reported(tb, d, cfg);
    if SeenBefore(tb, d) {
      if ReceiptKey(d) !in tb.receipts {
        FreshIsUnseen(tb, d);
      }
    } else {
      ReceiptRefuses(tb, d, cfg);
      match ApplyReport(tb, d, cfg)
      case Committed(_) => CommittedShape(tb, d, cfg);
      case Duplicate =>
      case NotApplied(why) => IgnoringShape(tb, d, why.attempt);
    }
    LogStaysSound(tb, after, d);
  }

  lemma IgnoringShape(tb: Tables, d: Delivery, attempt: Option<nat>)
    ensures var after := Finished(Ignored(tb, d), attempt);
            && after.receipts.Keys == tb.receipts.Keys + {ReceiptKey(d)} && after.appliedLog == tb.appliedLog
            && (ReceiptKey(d) in tb.receipts && attempt == None ==> Same(after, tb))
  {
    hide ReceiptKey;
    var k, ignored := ReceiptKey(d), Ignored(tb, d);
    assert ignored.receipts == if k in tb.receipts then tb.receipts else tb.receipts[k := ReceiptIgnored];
    hide Ignored;
  }

  lemma LogStaysSound(tb: Tables, after: Tables, d: Delivery)
    requires LogSound(tb) && after.receipts.Keys == tb.receipts.Keys + {ReceiptKey(d)}
    requires after.appliedLog <= tb.appliedLog + {LogKey(d)}
    ensures LogSound(after)
  {
  }

  lemma ReceiptRefuses(tb: Tables, d: Delivery, cfg: Config)
    ensures var r := ApplyReport(tb, d, cfg);
            && (r == Duplicate ==> ReceiptKey(d) in tb.receipts)
            && (ReceiptKey(d) in tb.receipts ==> r == Duplicate || (r.NotApplied? && r.refused.attempt == None))
  {
  }

  /** The command log only short-circuits what the receipt would refuse. */
  lemma LogIrrelevant(a: Tables, b: Tables, d: Delivery, cfg: Config)
    requires Same(a, b) && LogSound(a) && LogSound(b) && ReceiptKey(d) !in a.receipts
    ensures Same(Reported(a, d, cfg), Reported(b, d, cfg))
  {
    hide ApplyReport, LogSound, SeenBefore, Ignored, Finished;
    FreshIsUnseen(a, d);
    FreshIsUnseen(b, d);
    ApplyIgnoresLog(a, b, d, cfg);
    if ApplyReport(a, d, cfg).NotApplied? {
      IgnoringIgnoresLog(a, b, d, ApplyReport(a, d, cfg).refused.attempt);
    }
  }

  lemma IgnoringIgnoresLog(a: Tables, b: Tables, d: Delivery, attempt: Option<nat>)
    requires Same(a, b)
    ensures Same(Finished(Ignored(a, d), attempt), Finished(Ignored(b, d), attempt))
  {
  }

  lemma WrittenIgnoresLog(a: Tables, b: Tables, l: nat, prior: Status, t: Trigger, now: int, e: Ent, rank0: Option<Tier>)
    requires Same(a, b) && l in a.listings && RuleFor(prior, t).Some?
    ensures Same(Written(a, l, prior, t, now, e, rank0), Written(b, l, prior, t, now, e, rank0))
  {
  }

  lemma AppliedIgnoresLog(a: Tables, b: Tables, l: nat, t: Trigger, now: int, p: Params, rank0: Option<Tier>)
    requires Same(a, b)
    ensures var x, y := Applied(a, l, t, now, p, rank0), Applied(b, l, t, now, p, rank0);
            && (x.Ok? <==> y.Ok?)
            && (x.Ok? ==> Same(x.value, y.value))
            && (x.Err? ==> x == y)
  {
    hide Written, Mutated;
    if l in a.listings {
      var row := CurrentRow(a, l, t, p);
      assert row == CurrentRow(b, l, t, p);
      if row.Ok? && Moved(row.value, t, now, p).Ok? {
        WrittenIgnoresLog(a, b, l, row.value.status, t, now, Moved(row.value, t, now, p).value, rank0);
      }
    }
  }

  lemma ApplyIgnoresLog(a: Tables, b: Tables, d: Delivery, cfg: Config)
    requires Same(a, b)
    ensures var x, y := ApplyReport(a, d, cfg), ApplyReport(b, d, cfg);
            && (x.Committed? <==> y.Committed?)
            && (x.Committed? ==> Same(x.tables, y.tables))
            && (!x.Committed? ==> x == y)
  {
    hide Applied;
    var r := d.report;
    var listing := Resolve(a, r);
    assert listing == Resolve(b, r);
    if listing.Ok? {
      var meaning := Meaning(a, listing.value, r, cfg);
      assert meaning == Meaning(b, listing.value, r, cfg);
      if meaning.Ok? {
        var (t, p, money) := meaning.value;
        AppliedIgnoresLog(a.(receipts := a.receipts[ReceiptKey(d) := ReceiptApplied]),
                          b.(receipts := b.receipts[ReceiptKey(d) := ReceiptApplied]),
                          listing.value, t, d.now, p, cfg.rank0);
      }
    }
  }

  function ReportAll(tb: Tables, ds: seq<Delivery>, cfg: Config): Tables
    decreases |ds|
  {
    if ds == [] then tb else ReportAll(Reported(tb, ds[0], cfg), ds[1..], cfg)
  }

  /** The deliveries whose event, by its stored key, has not been seen earlier in the run. */
  function FirstDeliveries(ds: seq<Delivery>, seen: set<Key>): seq<Delivery>
    decreases |ds|
  {
    if ds == [] then []
    else if ReceiptKey(ds[0]) in seen then FirstDeliveries(ds[1..], seen)
    else [ds[0]] + FirstDeliveries(ds[1..], seen + {ReceiptKey(ds[0])})
  }

  lemma {:induction false} DuplicatesChangeNothing(a: Tables, b: Tables, ds: seq<Delivery>, seen: set<Key>, cfg: Config)
    requires Same(a, b) && LogSound(a) && LogSound(b) && seen <= a.receipts.Keys
    ensures Same(ReportAll(a, ds, cfg), ReportAll(b, FirstDeliveries(ds, seen), cfg))
    decreases |ds|
  {
    if ds != [] {
      var d := ds[0];
      ReportLeavesReceipt(a, d, cfg);
      if ReceiptKey(d) in seen {
        DuplicatesChangeNothing(Reported(a, d, cfg), b, ds[1..], seen, cfg);
      } else {
        ReportLeavesReceipt(b, d, cfg);
        if ReceiptKey(d) !in a.receipts {
          LogIrrelevant(a, b, d, cfg);
        }
        var rest := FirstDeliveries(ds[1..], seen + {ReceiptKey(d)});
        assert ([d] + rest)[1..] == rest;
        DuplicatesChangeNothing(Reported(a, d, cfg), Reported(b, d, cfg), ds[1..], seen + {ReceiptKey(d)}, cfg);
      }
    }
  }

  /** A run with any duplicates, in any places and at any times, ends in the same
      entitlements, tiers, events, attempts and receipts as the run that keeps
      only the first delivery of each event. */
  lemma {:induction false} DuplicatesAreInert(tb: Tables, ds: seq<Delivery>, cfg: Config)
    requires LogSound(tb)
    ensures Same(ReportAll(tb, ds, cfg), ReportAll(tb, FirstDeliveries(ds, {}), cfg))
  {
    DuplicatesChangeNothing(tb, tb, ds, {}, cfg);
  }

  ghost function ReceiptKeys(ds: seq<Delivery>): set<Key>
  {
    set i | 0 <= i < |ds| :: ReceiptKey(ds[i])
  }

  lemma {:induction false} ReportAllReceipts(tb: Tables, ds: seq<Delivery>, cfg: Config)
    requires LogSound(tb)
    ensures LogSound(ReportAll(tb, ds, cfg)) && ReportAll(tb, ds, cfg).receipts.Keys == tb.receipts.Keys + ReceiptKeys(ds)
    decreases |ds|
  {
    hide Reported, LogSound, ReceiptKey;
    if ds == [] {
      assert ReceiptKeys(ds) == {};
    } else {
      ReportLeavesReceipt(tb, ds[0], cfg);
      ReportAllReceipts(Reported(tb, ds[0], cfg), ds[1..], cfg);
      KeysOfRest(ds);
    }
  }

  lemma KeysOfRest(ds: seq<Delivery>)
    requires ds != []
    ensures ReceiptKeys(ds) == {ReceiptKey(ds[0])} + ReceiptKeys(ds[1..])
  {
    hide ReceiptKey;
    forall k | k in ReceiptKeys(ds) ensures k == ReceiptKey(ds[0]) || k in ReceiptKeys(ds[1..]) {
      var i :| 0 <= i < |ds| && k == ReceiptKey(ds[i]);
      assert i > 0 ==> ds[1..][i - 1] == ds[i];
    }
    forall k | k in ReceiptKeys(ds[1..]) ensures k in ReceiptKeys(ds) {
      var i :| 0 <= i < |ds[1..]| && k == ReceiptKey(ds[1..][i]);
      assert ds[i + 1] == ds[1..][i];
    }
  }

  /** The report is answered as a replay and moves nothing. */
  predicate Dropped(tb: Tables, d: Delivery, cfg: Config)
  {
    SeenBefore(tb, d) || ApplyReport(tb, d, cfg) == Duplicate
  }

  lemma DroppedIffReceipt(tb: Tables, d: Delivery, cfg: Config)
    requires LogSound(tb) && d.report.kind != UnknownKind && d.report.eventId != ""
    ensures Dropped(tb, d, cfg) <==> ReceiptKey(d) in tb.receipts
    ensures Dropped(tb, d, cfg) ==> Same(Reported(tb, d, cfg), tb)
  {
    ReportLeavesReceipt(tb, d, cfg);
    ReceiptRefuses(tb, d, cfg);
    if ReceiptKey(d) !in tb.receipts {
      FreshIsUnseen(tb, d);
    } else {
      assert ApplyReport(tb, d, cfg) == Duplicate;
    }
    hide Reported, LogSound, SeenBefore, ApplyReport;
  }

  /** Receipts store 200 characters of an event id. In any run from an empty history the
      first delivery of an event id is dropped exactly when an event delivered earlier by
      the same adapter shares its first 200 characters, and one of the two is longer. */
  lemma FirstDeliveryDropped(tb: Tables, ds: seq<Delivery>, d: Delivery, cfg: Config)
    requires LogSound(tb) && tb.receipts == map[] && d.report.kind != UnknownKind && d.report.eventId != ""
    requires forall i :: 0 <= i < |ds| ==> LogKey(ds[i]) != LogKey(d)
    ensures Dropped(ReportAll(tb, ds, cfg), d, cfg) <==>
              exists i :: 0 <= i < |ds| && Collide(ds[i], d)
    ensures Dropped(ReportAll(tb, ds, cfg), d, cfg) ==> Same(Reported(ReportAll(tb, ds, cfg), d, cfg), ReportAll(tb, ds, cfg))
  {
    var after := ReportAll(tb, ds, cfg);
    ReportAllReceipts(tb, ds, cfg);
    DroppedIffReceipt(after, d, cfg);
    hide Dropped, Reported, ReportAll, LogSound;
    forall i | 0 <= i < |ds| ensures Collide(ds[i], d) <==> ReceiptKey(ds[i]) == ReceiptKey(d) {
      CollideIffSameKey(ds[i], d);
    }
  }

  /** Two events of an adapter that its receipts cannot tell apart. */
  predicate Collide(a: Delivery, b: Delivery)
  {
    && a.adapter == b.adapter && a.report.eventId != b.report.eventId
    && Take(a.report.eventId, 200) == Take(b.report.eventId, 200)
    && (|a.report.eventId| > 200 || |b.report.eventId| > 200)
  }

  lemma CollideIffSameKey(a: Delivery, b: Delivery)
    requires LogKey(a) != LogKey(b)
    ensures Collide(a, b) <==> ReceiptKey(a) == ReceiptKey(b)
  {
  }

  // --- concurrent deliveries ------------------------------------------------------

  /** How far one delivery has come; each arrow is its own transaction. */
  datatype Pc =
    | Arrived | LogChecked | ReceiptChecked
    | ToConclude | ToIgnore(attempt: Option<nat>) | ToFinish(attempt: Option<nat>) | Done

  /** The tables, every delivery's progress, and the history: whose `_apply`
      committed, and which attempts started an entitlement. */
  datatype Net = Net(tb: Tables, pcs: seq<Pc>, committed: seq<Key>, starts: seq<nat>)

  /** What can happen next: a delivery takes its next step, someone else applies a
      trigger, a checkout attempt is opened, or one is marked failed. */
  datatype Action =
    | Deliver(i: nat)
    | Other(move: EntitlementRuns.Move)
    | OpenAttempt(id: nat, listing: nat, tier: Tier)
    | FailAttempt(id: nat)

  /** The attempt, if any, whose start this report would be. */
  function AttemptOf(tb: Tables, r: Report, cfg: Config): seq<nat>
  {
    var l := Resolve(tb, r);
    if l.Err? then [] else
    var m := Meaning(tb, l.value, r, cfg);
    if m.Ok? && StartsAttempt(r, m.value.0) then [r.attempt.value] else []
  }

  function DeliverStep(n: Net, d: Delivery, i: nat, cfg: Config): Net
    requires i < |n.pcs|
  {
    match n.pcs[i]
    case Arrived => n.(pcs := n.pcs[i := if LogKey(d) in n.tb.appliedLog then Done else LogChecked])
    case LogChecked => n.(pcs := n.pcs[i := if LogKey(d) in n.tb.receipts then Done else ReceiptChecked])
    case ReceiptChecked =>
      (match ApplyReport(n.tb, d, cfg)
       case Committed(after) =>
         Net(after, n.pcs[i := ToConclude], n.committed + [ReceiptKey(d)],
             n.starts + AttemptOf(n.tb, d.report, cfg))
       case Duplicate => n.(pcs := n.pcs[i := ToConclude])
       case NotApplied(why) => n.(pcs := n.pcs[i := ToIgnore(why.attempt)]))
    case ToConclude => n.(tb := Logged(n.tb, d), pcs := n.pcs[i := Done])
    case ToIgnore(a) => n.(tb := Ignored(n.tb, d), pcs := n.pcs[i := ToFinish(a)])
    case ToFinish(a) => n.(tb := Finished(n.tb, a), pcs := n.pcs[i := Done])
    case Done => n
  }

  function Act(n: Net, ds: seq<Delivery>, act: Action, cfg: Config): Net
    requires |ds| == |n.pcs|
  {
    match act
    case Deliver(i) => if i < |ds| then DeliverStep(n, ds[i], i, cfg) else n
    case Other(m) => n.(tb := EntitlementRuns.Step(n.tb, m))
    case OpenAttempt(id, l, tier) =>
      if id in n.tb.attempts then n
      else n.(tb := n.tb.(attempts := n.tb.attempts[id := Attempt(l, tier, AttemptStarted, "")]))
    case FailAttempt(id) =>
      if id !in n.tb.attempts then n
      else n.(tb := n.tb.(attempts := n.tb.attempts[id := n.tb.attempts[id].(status := AttemptFailed)]))
  }

  function ActAll(n: Net, ds: seq<Delivery>, acts: seq<Action>, cfg: Config): (r: Net)
    requires |ds| == |n.pcs|
    ensures |r.pcs| == |n.pcs|
    decreases |acts|
  {
    if acts == [] then n
    else Act(ActAll(n, ds, acts[..|acts| - 1], cfg), ds, acts[|acts| - 1], cfg)
  }

  ghost predicate Spent(tb: Tables, a: nat)
  {
    a in tb.attempts && tb.attempts[a].status != AttemptStarted
  }

  ghost predicate OnceOnly(n: Net)
  {
    && NoDuplicates(n.committed)
    && (forall i :: 0 <= i < |n.committed| ==> n.committed[i] in n.tb.receipts)
    && NoDuplicates(n.starts)
    && (forall i :: 0 <= i < |n.starts| ==> Spent(n.tb, n.starts[i]))
  }

  /** A committed start consumed an attempt that was open, and closed it. */
  lemma StartSpends(tb: Tables, d: Delivery, cfg: Config)
    requires ApplyReport(tb, d, cfg).Committed?
    ensures var after := ApplyReport(tb, d, cfg).tables;
            var a := AttemptOf(tb, d.report, cfg);
            && (a == [] || (|a| == 1 && Startable(tb, d.report) && a[0] == d.report.attempt.value && Spent(after, a[0])))
            && (forall x :: Spent(tb, x) ==> Spent(after, x))
  {
    hide Applied;
    var r := d.report;
    var l := Resolve(tb, r).value;
    var (t, p, money) := Meaning(tb, l, r, cfg).value;
    var withReceipt := tb.(receipts := tb.receipts[ReceiptKey(d) := ReceiptApplied]);
    AppliedKeepsReceipts(withReceipt, l, t, d.now, p, cfg.rank0);
  }

  lemma {:induction false} ApplyStepOnce(n: Net, d: Delivery, i: nat, cfg: Config)
    requires i < |n.pcs| && n.pcs[i] == ReceiptChecked && OnceOnly(n)
    ensures OnceOnly(DeliverStep(n, d, i, cfg))
  {
    if ApplyReport(n.tb, d, cfg).Committed? {
      CommittedShape(n.tb, d, cfg);
      StartSpends(n.tb, d, cfg);
      var after := DeliverStep(n, d, i, cfg);
      assert ReceiptKey(d) !in n.committed;
      var a := AttemptOf(n.tb, d.report, cfg);
      if a != [] {
        assert a == [a[0]];
        assert a[0] !in n.starts;
      } else {
        assert n.starts + a == n.starts;
      }
    }
  }

  lemma ActOnce(n: Net, ds: seq<Delivery>, act: Action, cfg: Config)
    requires |ds| == |n.pcs| && OnceOnly(n)
    ensures OnceOnly(Act(n, ds, act, cfg))
  {
    match act {
      case Deliver(i) =>
        if i < |ds| && n.pcs[i] == ReceiptChecked {
          ApplyStepOnce(n, ds[i], i, cfg);
        }
      case Other(m) =>
        AppliedKeepsReceipts(n.tb, m.listing, m.trigger, m.now, m.params, m.rank0);
      case OpenAttempt(_, _, _) =>
      case FailAttempt(_) =>
    }
  }

  /** For any deliveries interleaved in any way at the log check, the receipt
      check, the atomic apply and what follows it, with any other moves between
      them and deliveries abandoned at any point: no event commits twice and no
      checkout attempt starts an entitlement twice. */
  lemma {:induction false} ExactlyOnce(n: Net, ds: seq<Delivery>, acts: seq<Action>, cfg: Config)
    requires |ds| == |n.pcs| && n.committed == [] && n.starts == []
    ensures OnceOnly(ActAll(n, ds, acts, cfg))
    decreases |acts|
  {
    if acts != [] {
      var k := |acts| - 1;
      ExactlyOnce(n, ds, acts[..k], cfg);
      ActOnce(ActAll(n, ds, acts[..k], cfg), ds, acts[k], cfg);
    }
  }

  /** The only delivery step that can touch an entitlement, a tier or the event
      log is a commit, and it is recorded under the event's key. */
  lemma OnlyCommitsMove(n: Net, ds: seq<Delivery>, i: nat, cfg: Config)
    requires |ds| == |n.pcs| && i < |ds|
    ensures var after := Act(n, ds, Deliver(i), cfg);
            || (after.committed == n.committed
                && after.tb.ents == n.tb.ents && after.tb.listings == n.tb.listings && after.tb.events == n.tb.events)
            || after.committed == n.committed + [ReceiptKey(ds[i])]
  {
    hide ApplyReport, AttemptOf, EntitlementRuns.Step, ReceiptKey, LogKey;
    var after := DeliverStep(n, ds[i], i, cfg);
    if n.pcs[i] != ReceiptChecked {
      assert after.committed == n.committed;
    }
  }

  // --- the first payment, in either order ------------------------------------------

  /** A checkout core started, its completion, and the first invoice for it: two
      different events not seen yet, both about the attempt's own listing. */
  ghost predicate FirstPayment(tb: Tables, a: nat, c: Delivery, i: Delivery)
  {
    && LogSound(tb)
    && a in tb.attempts && tb.attempts[a].status == AttemptStarted && tb.attempts[a].listing in tb.listings
    && c.report.kind == CheckoutCompleted && i.report.kind == InvoicePaid
    && c.report.trialEndsAt.None? && c.report.periodEnd.Some? && i.report.periodEnd.Some?
    && (forall d :: d == c || d == i ==>
          && d.report.eventId != "" && ReceiptKey(d) !in tb.receipts
          && d.report.attempt == Some(a) && d.report.listing in {None, Some(tb.attempts[a].listing)})
    && ReceiptKey(c) != ReceiptKey(i)
  }

  /** What a purchase is about: the status, tier, period end and payment reference. */
  datatype Purchase = Purchase(status: Status, tier: Tier, periodEnd: Option<int>, ref: map<string, string>)

  function Held(tb: Tables, l: nat): Purchase
    requires l in tb.ents
  {
    Purchase(tb.ents[l].status, tb.ents[l].tier, tb.ents[l].currentPeriodEnd, tb.ents[l].paymentRef)
  }

  /** The listing holds the purchase, and the attempt on it has the status. */
  ghost predicate Stands(tb: Tables, l: nat, a: nat, bought: Purchase, attempt: AttemptStatus)
  {
    && l in tb.ents && Held(tb, l) == bought
    && a in tb.attempts && tb.attempts[a].status == attempt && tb.attempts[a].listing == l
    && l in tb.listings && LogSound(tb)
  }

  ghost predicate Holds(tb: Tables, l: nat, a: nat, bought: Purchase)
  {
    Stands(tb, l, a, bought, AttemptCompleted)
  }

  lemma FreshIsUnseen(tb: Tables, d: Delivery)
    requires LogSound(tb) && ReceiptKey(d) !in tb.receipts
    ensures !SeenBefore(tb, d)
  {
  }

  lemma PaymentMoves(e: Ent, now: int, p: Params)
    requires e.status !in {NoStatus, Expired} && p.periodEnd.Some?
    ensures var r := Moved(e, PaymentSucceeded, now, p);
            && r.Ok? && r.value.status == Active && r.value.currentPeriodEnd == p.periodEnd
            && r.value.tier == (if p.tier.Some? then p.tier.value else e.tier)
            && r.value.paymentRef == (if p.paymentRef != map[] then p.paymentRef else e.paymentRef)
  {
  }

  lemma StartWrites(tb: Tables, l: nat, now: int, p: Params, rank0: Option<Tier>)
    requires l in tb.listings && StatusOf(tb, l) in {NoStatus, Expired, Canceled, Comped}
    requires p.tier.Some? && p.periodEnd.Some?
    ensures var r := Applied(tb, l, Start, now, p, rank0);
            && r.Ok? && l in r.value.ents && l in r.value.listings
            && var e := r.value.ents[l];
               e.status == Active && e.tier == p.tier.value && e.currentPeriodEnd == p.periodEnd && e.paymentRef == p.paymentRef
  {
  }

  lemma PaymentWrites(tb: Tables, l: nat, now: int, p: Params, rank0: Option<Tier>)
    requires l in tb.listings && l in tb.ents && tb.ents[l].status !in {NoStatus, Expired}
    requires p.periodEnd.Some?
    ensures var r := Applied(tb, l, PaymentSucceeded, now, p, rank0);
            && r.Ok? && l in r.value.ents && l in r.value.listings
            && var old_, e := tb.ents[l], r.value.ents[l];
               && e.status == Active && e.currentPeriodEnd == p.periodEnd
               && e.tier == (if p.tier.Some? then p.tier.value else old_.tier)
               && e.paymentRef == (if p.paymentRef != map[] then p.paymentRef else old_.paymentRef)
  {
    hide Moved, Written;
    PaymentMoves(tb.ents[l], now, p);
    var m := EntitlementRuns.Move(l, PaymentSucceeded, now, p, rank0);
    var row, e := EntitlementRuns.StepRow(tb, m);
  }

  /** What the invoice leaves of a purchase already in force: an unknown tier key
      makes core ignore it. */
  function AfterInvoice(b: Purchase, r: Report, cfg: Config): Purchase
  {
    if r.tierKey != "" && r.tierKey !in cfg.tiers then b
    else Purchase(Active, if r.tierKey != "" then cfg.tiers[r.tierKey] else b.tier, r.periodEnd,
                  if r.paymentRef != map[] then r.paymentRef else b.ref)
  }

  function Bought(tb: Tables, a: nat, r: Report): Purchase
    requires a in tb.attempts
  {
    Purchase(Active, tb.attempts[a].tier, r.periodEnd, r.paymentRef)
  }

  /** Either report, arriving where it starts the entitlement. */
  lemma StartingReport(tb: Tables, a: nat, d: Delivery, cfg: Config)
    requires LogSound(tb) && a in tb.attempts && tb.attempts[a].status == AttemptStarted && tb.attempts[a].listing in tb.listings
    requires d.report.kind in {CheckoutCompleted, InvoicePaid} && d.report.periodEnd.Some?
    requires d.report.kind == CheckoutCompleted ==> d.report.trialEndsAt.None?
    requires d.report.eventId != "" && ReceiptKey(d) !in tb.receipts
    requires d.report.attempt == Some(a) && d.report.listing in {None, Some(tb.attempts[a].listing)}
    requires var s := StatusOf(tb, tb.attempts[a].listing);
             s in {NoStatus, Expired} || (d.report.kind == CheckoutCompleted && s in {Canceled, Comped})
    ensures var after := Reported(tb, d, cfg);
            && Holds(after, tb.attempts[a].listing, a, Bought(tb, a, d.report))
            && after.receipts.Keys == tb.receipts.Keys + {ReceiptKey(d)}
  {
    hide Applied;
    var l, r := tb.attempts[a].listing, d.report;
    FreshIsUnseen(tb, d);
    ReportLeavesReceipt(tb, d, cfg);
    assert Resolve(tb, r) == Ok(l);
    var p := Params(tier := Some(tb.attempts[a].tier), periodEnd := r.periodEnd, paymentRef := r.paymentRef);
    assert Meaning(tb, l, r, cfg).Ok? && Meaning(tb, l, r, cfg).value.0 == Start && Meaning(tb, l, r, cfg).value.1 == p;
    var withReceipt := tb.(receipts := tb.receipts[ReceiptKey(d) := ReceiptApplied]);
    StartWrites(withReceipt, l, d.now, p, cfg.rank0);
    AppliedKeepsReceipts(withReceipt, l, Start, d.now, p, cfg.rank0);
  }

  predicate UnknownTierKey(r: Report, cfg: Config)
  {
    r.tierKey != "" && r.tierKey !in cfg.tiers
  }

  /** An invoice on a listing that holds something pays for it, or changes nothing
      when it names a tier core does not know. */
  lemma InvoicePays(tb: Tables, l: nat, a: nat, held: Purchase, st: AttemptStatus, i: Delivery, cfg: Config)
    requires Stands(tb, l, a, held, st) && held.status !in {NoStatus, Expired}
    requires i.report.kind == InvoicePaid && i.report.periodEnd.Some? && i.report.eventId != ""
    requires ReceiptKey(i) !in tb.receipts && i.report.attempt == Some(a) && i.report.listing in {None, Some(l)}
    ensures Stands(Reported(tb, i, cfg), l, a, AfterInvoice(held, i.report, cfg), st)
    ensures Reported(tb, i, cfg).receipts.Keys == tb.receipts.Keys + {ReceiptKey(i)}
    ensures Reported(tb, i, cfg).attempts == tb.attempts
  {
    hide Applied;
    var r := i.report;
    FreshIsUnseen(tb, i);
    ReportLeavesReceipt(tb, i, cfg);
    assert Resolve(tb, r) == Ok(l);
    if !UnknownTierKey(r, cfg) {
      var p := Params(tier := if r.tierKey == "" then None else Some(cfg.tiers[r.tierKey]),
                      periodEnd := r.periodEnd, paymentRef := r.paymentRef);
      assert Meaning(tb, l, r, cfg).Ok? && Meaning(tb, l, r, cfg).value.0 == PaymentSucceeded
             && Meaning(tb, l, r, cfg).value.1 == p;
      var withReceipt := tb.(receipts := tb.receipts[ReceiptKey(i) := ReceiptApplied]);
      PaymentWrites(withReceipt, l, i.now, p, cfg.rank0);
      AppliedKeepsReceipts(withReceipt, l, PaymentSucceeded, i.now, p, cfg.rank0);
    }
  }

  /** A checkout on an attempt already spent, or on a listing that is being paid
      for, changes only the attempt. */
  lemma CheckoutRefused(tb: Tables, l: nat, a: nat, held: Purchase, st: AttemptStatus, c: Delivery, cfg: Config)
    requires Stands(tb, l, a, held, st)
    requires st == AttemptCompleted || (st == AttemptStarted && held.status !in {NoStatus, Expired, Canceled, Comped})
    requires c.report.kind == CheckoutCompleted && c.report.eventId != "" && ReceiptKey(c) !in tb.receipts
    requires c.report.attempt == Some(a) && c.report.listing in {None, Some(l)}
    requires c.report.trialEndsAt.None? && c.report.periodEnd.Some?
    ensures Holds(Reported(tb, c, cfg), l, a, held)
    ensures Reported(tb, c, cfg).receipts.Keys == tb.receipts.Keys + {ReceiptKey(c)}
  {
    FreshIsUnseen(tb, c);
    ReportLeavesReceipt(tb, c, cfg);
    assert Resolve(tb, c.report) == Ok(l);
    if st == AttemptStarted {
      assert Meaning(tb, l, c.report, cfg).Ok? && Meaning(tb, l, c.report, cfg).value.0 == Start;
      var withReceipt := tb.(receipts := tb.receipts[ReceiptKey(c) := ReceiptApplied]);
      assert Applied(withReceipt, l, Start, c.now, Meaning(tb, l, c.report, cfg).value.1, cfg.rank0) == Err(InvalidTransition);
      hide Applied, Meaning;
    }
  }

  /** What the listing holds after the checkout and then the invoice. */
  function CheckoutThenInvoice(tb: Tables, a: nat, c: Report, i: Report, cfg: Config): Purchase
    requires a in tb.attempts
  {
    var l := tb.attempts[a].listing;
    if StatusOf(tb, l) in {NoStatus, Expired, Canceled, Comped} then AfterInvoice(Bought(tb, a, c), i, cfg)
    else AfterInvoice(Held(tb, l), i, cfg)
  }

  /** What it holds after the invoice and then the checkout. */
  function InvoiceThenCheckout(tb: Tables, a: nat, c: Report, i: Report, cfg: Config): Purchase
    requires a in tb.attempts
  {
    var l := tb.attempts[a].listing;
    if StatusOf(tb, l) in {NoStatus, Expired} then Bought(tb, a, i)
    else if StatusOf(tb, l) in {Canceled, Comped} && UnknownTierKey(i, cfg) then Bought(tb, a, c)
    else AfterInvoice(Held(tb, l), i, cfg)
  }

  /** When the two orders agree, by the status the listing starts from. From none or
      expired the reports must say compatible things; from canceled or comped the
      invoice must settle, or the old row share, whatever the invoice leaves out;
      from any other status they always agree. */
  predicate OrdersAgree(tb: Tables, a: nat, c: Report, i: Report, cfg: Config)
    requires a in tb.attempts
  {
    var l, tier := tb.attempts[a].listing, tb.attempts[a].tier;
    if StatusOf(tb, l) in {NoStatus, Expired} then
      if UnknownTierKey(i, cfg) then c.periodEnd == i.periodEnd && c.paymentRef == i.paymentRef
      else (i.tierKey == "" || cfg.tiers[i.tierKey] == tier) && (i.paymentRef != map[] || c.paymentRef == map[])
    else if StatusOf(tb, l) in {Canceled, Comped} then
      || UnknownTierKey(i, cfg)
      || ((i.tierKey != "" || tb.ents[l].tier == tier) && (i.paymentRef != map[] || tb.ents[l].paymentRef == c.paymentRef))
    else true
  }

  lemma CheckoutFirst(tb: Tables, a: nat, c: Delivery, i: Delivery, cfg: Config)
    requires FirstPayment(tb, a, c, i)
    ensures Holds(Reported(Reported(tb, c, cfg), i, cfg), tb.attempts[a].listing, a,
                  CheckoutThenInvoice(tb, a, c.report, i.report, cfg))
  {
    hide Reported, LogSound;
    var l, mid := tb.attempts[a].listing, Reported(tb, c, cfg);
    if StatusOf(tb, l) in {NoStatus, Expired, Canceled, Comped} {
      StartingReport(tb, a, c, cfg);
      InvoicePays(mid, l, a, Bought(tb, a, c.report), AttemptCompleted, i, cfg);
    } else {
      CheckoutRefused(tb, l, a, Held(tb, l), AttemptStarted, c, cfg);
      InvoicePays(mid, l, a, Held(tb, l), AttemptCompleted, i, cfg);
    }
  }

  lemma InvoiceFirst(tb: Tables, a: nat, c: Delivery, i: Delivery, cfg: Config)
    requires FirstPayment(tb, a, c, i)
    ensures Holds(Reported(Reported(tb, i, cfg), c, cfg), tb.attempts[a].listing, a,
                  InvoiceThenCheckout(tb, a, c.report, i.report, cfg))
  {
    hide Reported, LogSound;
    var l, mid := tb.attempts[a].listing, Reported(tb, i, cfg);
    if StatusOf(tb, l) in {NoStatus, Expired} {
      StartingReport(tb, a, i, cfg);
      CheckoutRefused(mid, l, a, Bought(tb, a, i.report), AttemptCompleted, c, cfg);
    } else {
      InvoicePays(tb, l, a, Held(tb, l), AttemptStarted, i, cfg);
      if StatusOf(tb, l) in {Canceled, Comped} && UnknownTierKey(i.report, cfg) {
        StartingReport(mid, a, c, cfg);
      } else {
        CheckoutRefused(mid, l, a, AfterInvoice(Held(tb, l), i.report, cfg), AttemptStarted, c, cfg);
      }
    }
  }

  /** A non-trial checkout completion and the first invoice of a started attempt, in
      either order and from every status: the attempt ends completed, the listing
      holds what is said above, and the two orders agree exactly when `OrdersAgree`. */
  lemma FirstPaymentEitherOrder(tb: Tables, a: nat, c: Delivery, i: Delivery, cfg: Config)
    requires FirstPayment(tb, a, c, i)
    ensures var l := tb.attempts[a].listing;
            var one, two := CheckoutThenInvoice(tb, a, c.report, i.report, cfg), InvoiceThenCheckout(tb, a, c.report, i.report, cfg);
            && Holds(Reported(Reported(tb, c, cfg), i, cfg), l, a, one)
            && Holds(Reported(Reported(tb, i, cfg), c, cfg), l, a, two)
            && (one == two <==> OrdersAgree(tb, a, c.report, i.report, cfg))
  {
    CheckoutFirst(tb, a, c, i, cfg);
    InvoiceFirst(tb, a, c, i, cfg);
    AgreeExactly(tb, a, c.report, i.report, cfg);
    hide *;
  }

  lemma AgreeExactly(tb: Tables, a: nat, c: Report, i: Report, cfg: Config)
    requires a in tb.attempts && c.periodEnd.Some? && i.periodEnd.Some?
    ensures CheckoutThenInvoice(tb, a, c, i, cfg) == InvoiceThenCheckout(tb, a, c, i, cfg) <==> OrdersAgree(tb, a, c, i, cfg)
  {
  }
}
