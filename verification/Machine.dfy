/** The entitlement state machine as data (billing/machine.py). Times are whole
    seconds. `NoStatus` is the stored status `none`. */
module Machine {
  import opened Prelude

  datatype Status =
    NoStatus | Trialing | Active | PastDue | Grace | Expired | Canceled | Comped

  datatype BillingMode = Recurring | Term | Comp | NoMode

  datatype Trigger =
    | Start | StartTrial | PaymentSucceeded | PaymentFailed | Refund | SubscriptionEnded
    | Cancel
    | TermEnded | DunningElapsed | GraceElapsed | PeriodElapsed | CompExpired | TrialOverdue
    | Grant | Revoke | Override

  datatype EventName =
    | Started | TrialConverted | DunningStarted | Recovered | Downgraded
    | Restored | ExpiredEvent | CanceledEvent | Overridden

  /** Where a rule lands: a fixed status, or whatever the operator names (`"*"`). */
  datatype Target = To(status: Status) | AnyTarget

  datatype Rule = Rule(to: Target, events: seq<EventName>, expiredCause: string, tierCause: string)

  const DAY: int := 86400
  const DUNNING: int := 14 * DAY
  const GRACE: int := 30 * DAY
  const TRIAL_OVERDUE: int := 3 * DAY

  const PAID_STATUSES: seq<Status> := [Trialing, Active, PastDue, Grace, Canceled]

  const CLOCK_TRIGGERS: seq<Trigger> :=
    [DunningElapsed, GraceElapsed, PeriodElapsed, CompExpired, TermEnded, TrialOverdue]

  /** Statuses whose perks the public page shows in full. */
  predicate IsPerk(s: Status)
  {
    s in {Trialing, Active, PastDue, Canceled, Comped}
  }

  predicate IsClock(t: Trigger)
  {
    t in CLOCK_TRIGGERS
  }

  /** The table, row by row. */
  function RuleFor(s: Status, t: Trigger): (r: Option<Rule>)
  {
    match t
    case Start =>
      if s in {NoStatus, Expired, Comped, Canceled}
      then Some(Rule(To(Active), [Started], "", "purchase")) else None
    case StartTrial =>
      if s in {NoStatus, Expired}
      then Some(Rule(To(Trialing), [Started], "", "purchase")) else None
    case PaymentSucceeded =>
      (match s
       case Trialing => Some(Rule(To(Active), [TrialConverted], "", ""))
       case Active => Some(Rule(To(Active), [], "", "upgrade"))
       case PastDue => Some(Rule(To(Active), [Recovered], "", ""))
       case Grace => Some(Rule(To(Active), [Restored], "", "restore"))
       case Canceled => Some(Rule(To(Active), [Restored], "", ""))
       case Comped => Some(Rule(To(Active), [], "", "purchase"))
       case _ => None)
    case PaymentFailed =>
      (match s
       case Trialing => Some(Rule(To(PastDue), [DunningStarted], "", ""))
       case Active => Some(Rule(To(PastDue), [DunningStarted], "", ""))
       case PastDue => Some(Rule(To(PastDue), [], "", ""))
       case Grace => Some(Rule(To(Grace), [], "", ""))
       case _ => None)
    case Cancel =>
      (match s
       case Trialing => Some(Rule(To(Canceled), [CanceledEvent], "", ""))
       case Active => Some(Rule(To(Canceled), [CanceledEvent], "", ""))
       case PastDue => Some(Rule(To(Canceled), [CanceledEvent], "", ""))
       case Grace => Some(Rule(To(Expired), [CanceledEvent, ExpiredEvent], "canceled", "expiry"))
       case _ => None)
    case Refund =>
      if s in PAID_STATUSES then Some(Rule(To(Expired), [ExpiredEvent], "refund", "refund")) else None
    case SubscriptionEnded =>
      if s in PAID_STATUSES then Some(Rule(To(Expired), [ExpiredEvent], "canceled", "expiry")) else None
    case TermEnded =>
      if s == Active then Some(Rule(To(Expired), [ExpiredEvent], "term_ended", "expiry")) else None
    case DunningElapsed =>
      if s == PastDue then Some(Rule(To(Grace), [Downgraded], "", "grace")) else None
    case GraceElapsed =>
      if s == Grace then Some(Rule(To(Expired), [ExpiredEvent], "grace_elapsed", "expiry")) else None
    case PeriodElapsed =>
      if s == Canceled then Some(Rule(To(Expired), [ExpiredEvent], "period_ended", "expiry")) else None
    case CompExpired =>
      if s == Comped then Some(Rule(To(Expired), [ExpiredEvent], "comp_expired", "expiry")) else None
    case TrialOverdue =>
      if s == Trialing then Some(Rule(To(PastDue), [DunningStarted], "", "")) else None
    case Grant => Some(Rule(To(Comped), [Overridden], "", "comp"))
    case Revoke =>
      if s == Comped then Some(Rule(To(Expired), [Overridden, ExpiredEvent], "revoked", "revoke")) else None
    case Override => Some(Rule(AnyTarget, [Overridden], "", "override"))
  }

  /** The status a clock trigger moves a row out of. */
  function ClockSource(t: Trigger): (s: Status)
    requires IsClock(t)
    ensures forall r :: RuleFor(r, t).Some? <==> r == s
  {
    match t
    case DunningElapsed => PastDue
    case GraceElapsed => Grace
    case PeriodElapsed => Canceled
    case CompExpired => Comped
    case TermEnded => Active
    case TrialOverdue => Trialing
  }
}
