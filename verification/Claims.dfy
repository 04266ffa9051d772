/** Claim verification and review (directory/services.py:1393-1980,
    directory/claim_review.py). Each command is one transaction over the tables;
    claim and item ids are positions in their tables, as both only ever grow.
    Times are whole seconds. A (listing, claimant) pair without a guard row reads
    as `NEW_GUARD`, the row `lock_guard` would create. */
module Claims {
  import opened Prelude

  type Pair = (nat, nat)

  datatype ListingStatus = Unclaimed | Claimed | Suspended

  datatype ListingRow = ListingRow(status: ListingStatus, owner: Option<nat>)

  datatype ClaimStatus = Pending | Approved | Rejected | Abandoned | Disputed | Superseded

  datatype Method = Manual | DomainEmail | OtherMethod

  /** `code` stands for the live code whose keyed hash the row stores. */
  datatype Claim = Claim(
    listing: nat,
    claimant: nat,
    status: ClaimStatus,
    via: Method,
    attempts: nat,
    code: Option<string>,
    expiresAt: Option<int>,
    verifiedAt: Option<int>,
    decidedAt: Option<int>)

  datatype Guard = Guard(
    wrongEntries: nat,
    cooldowns: nat,
    cooldownUntil: Option<int>,
    lockedAt: Option<int>,
    rejections: nat,
    blockedAt: Option<int>,
    lastSentAt: Option<int>,
    windowStart: Option<int>,
    sentInWindow: nat)

  const NEW_GUARD: Guard := Guard(0, 0, None, None, 0, None, None, None, 0)

  datatype ItemType = DisputeItem | LockItem | BlockItem

  datatype Decision = Undecided | DecidedApproved | DecidedRejected | Unlocked | Unblocked | AlreadyCleared

  /** A moderation item; it is open while undecided. */
  datatype Item = Item(kind: ItemType, pair: Pair, claim: nat, decision: Decision)

  /** A `claim.verification_started` event and its mail: the code sent for the
      claim and when it expires. */
  datatype Send = Send(pair: Pair, at: int, claim: nat, code: string, until: int)

  datatype State = State(
    listings: map<nat, ListingRow>,
    claims: seq<Claim>,
    guards: map<Pair, Guard>,
    items: seq<Item>,
    sends: seq<Send>)

  const COOLDOWN_SECONDS: int := 15 * 60
  const MAX_WRONG_ENTRIES: nat := 5
  const MAX_COOLDOWNS: nat := 3
  const MIN_SECONDS_BETWEEN_SENDS: int := 60
  const MAX_SENDS_PER_WINDOW: nat := 5
  const SEND_WINDOW: int := 24 * 3600
  const REJECTION_BLOCK_THRESHOLD: nat := 3

  datatype Refusal =
    | Forbidden | BadSubmission | PairBlocked | WrongStatus | WrongMethod | AlreadyVerified | PairLocked
    | CoolingDown | NoActiveCode | CodeExpired | ListingSuspended | TransferUnconfirmed
    | ItemNotOpen | WrongItemType | NoSuchRow

  /** What eligibility for `domain_email` reads besides the lock. */
  datatype Site = Site(hasHost: bool, mailAvailable: bool, addressMatches: bool)

  function PairOf(c: Claim): Pair
  {
    (c.listing, c.claimant)
  }

  function GuardIn(guards: map<Pair, Guard>, p: Pair): Guard
  {
    if p in guards then guards[p] else NEW_GUARD
  }

  function GuardOf(s: State, p: Pair): Guard
  {
    GuardIn(s.guards, p)
  }

  /** `domain_email_ineligibility` is not `None`. */
  predicate Ineligible(site: Site, g: Guard)
  {
    !site.hasHost || g.lockedAt.Some? || !site.mailAvailable || !site.addressMatches
  }

  predicate IsOpenStatus(s: ClaimStatus)
  {
    s in {Pending, Disputed}
  }

  // --- moderation items ---------------------------------------------------------

  /** What an item is about; a dispute belongs to a claim, the others to a pair. */
  datatype Subject = DisputeOf(claim: nat) | LockOf(pair: Pair) | BlockOf(pair: Pair)

  predicate Open(i: Item, k: Subject)
  {
    i.decision == Undecided &&
    match k
    case DisputeOf(c) => i.kind == DisputeItem && i.claim == c
    case LockOf(p) => i.kind == LockItem && i.pair == p
    case BlockOf(p) => i.kind == BlockItem && i.pair == p
  }

  function FirstOpen(items: seq<Item>, k: Subject, from: nat): (r: nat)
    requires from <= |items|
    ensures from <= r <= |items|
    ensures r < |items| ==> Open(items[r], k)
    ensures forall j :: from <= j < r ==> !Open(items[j], k)
    decreases |items| - from
  {
    if from == |items| || Open(items[from], k) then from else FirstOpen(items, k, from + 1)
  }

  function NewItem(k: Subject, pair: Pair, claim: nat): Item
  {
    Item(match k case DisputeOf(_) => DisputeItem case LockOf(_) => LockItem case BlockOf(_) => BlockItem,
         pair, claim, Undecided)
  }

  /** `open_item`: the open item stays; otherwise one is added. */
  function WithOpen(items: seq<Item>, k: Subject, pair: Pair, claim: nat): seq<Item>
  {
    if FirstOpen(items, k, 0) < |items| then items else items + [NewItem(k, pair, claim)]
  }

  /** `_decide_claim_item`: closes the claim's open dispute, if there is one. */
  function DisputeClosed(items: seq<Item>, c: nat, d: Decision): seq<Item>
  {
    var i := FirstOpen(items, DisputeOf(c), 0);
    if i < |items| then items[i := items[i].(decision := d)] else items
  }

  // --- dispute and approval -----------------------------------------------------

  function DisputeRaised(s: State, c: nat): State
    requires c < |s.claims|
  {
    var row := s.claims[c];
    s.(claims := s.claims[c := row.(status := Disputed)],
       items := WithOpen(s.items, DisputeOf(c), PairOf(row), c))
  }

  function Retired(r: Claim, l: nat): Claim
  {
    if r.listing == l && r.status == Approved then r.(status := Superseded) else r
  }

  function Lost(r: Claim, l: nat, now: int): Claim
  {
    if r.listing == l && r.status == Pending
    then r.(status := Rejected, decidedAt := Some(now), code := None) else r
  }

  function Won(r: Claim, manual: bool, now: int): Claim
  {
    var a := r.(status := Approved, decidedAt := Some(now), code := None);
    if manual then a.(via := Manual, verifiedAt := Some(now)) else a
  }

  /** The claim rows after `c` is approved; claims another transaction holds
      (`skip_locked`) are left pending. */
  function ClaimsAfterApproval(claims: seq<Claim>, c: nat, manual: bool, now: int, skipped: set<nat>): (r: seq<Claim>)
    requires c < |claims|
    ensures |r| == |claims|
  {
    var l := claims[c].listing;
    seq(|claims|, k requires 0 <= k < |claims| =>
      if k == c then Won(claims[k], manual, now)
      else if k in skipped then Retired(claims[k], l)
      else Lost(Retired(claims[k], l), l, now))
  }

  /** `_approve_claim`: retire the old approval, approve, assign the owner, reject
      the losers, close the dispute when an operator decided. */
  function ApprovalGranted(s: State, c: nat, manual: bool, now: int, skipped: set<nat>): State
    requires c < |s.claims|
  {
    var row := s.claims[c];
    s.(claims := ClaimsAfterApproval(s.claims, c, manual, now, skipped),
       listings := s.listings[row.listing := ListingRow(Claimed, Some(row.claimant))],
       items := if manual then DisputeClosed(s.items, c, DecidedApproved) else s.items)
  }

  // --- codes ---------------------------------------------------------------------

  /** Whether `_apply_start_verification` sends now. */
  datatype SendCheck = MaySend(windowStart: int, sentInWindow: nat) | InCooldown | OverCap

  function CheckSend(g: Guard, now: int): SendCheck
  {
    if g.cooldownUntil.Some? && g.cooldownUntil.value > now then InCooldown
    else if g.lastSentAt.Some? && now - g.lastSentAt.value < MIN_SECONDS_BETWEEN_SENDS then OverCap
    else
      var stale := g.windowStart.None? || now - g.windowStart.value >= SEND_WINDOW;
      var start := if stale then now else g.windowStart.value;
      var sent := if stale then 0 else g.sentInWindow;
      if sent >= MAX_SENDS_PER_WINDOW then OverCap else MaySend(start, sent)
  }

  function CodeSent(s: State, c: nat, start: int, sent: nat, now: int, code: string, ttl: int): State
    requires c < |s.claims|
  {
    var row := s.claims[c];
    var p := PairOf(row);
    s.(claims := s.claims[c := row.(code := Some(code), expiresAt := Some(now + ttl))],
       guards := s.guards[p := GuardOf(s, p).(lastSentAt := Some(now), windowStart := Some(start), sentInWindow := sent + 1)],
       sends := s.sends + [Send(p, now, c, code, now + ttl)])
  }

  /** `_apply_start_verification`. A cooldown or an exhausted cap changes nothing. */
  function Started(s: State, c: nat, site: Site, now: int, code: string, ttl: int): Result<State, Refusal>
  {
    if c >= |s.claims| then Err(NoSuchRow) else
    var row := s.claims[c];
    if !IsOpenStatus(row.status) then Err(WrongStatus)
    else if row.via != DomainEmail then Err(WrongMethod)
    else if row.verifiedAt.Some? then Err(AlreadyVerified)
    else if Ineligible(site, GuardOf(s, PairOf(row))) then
      Ok(s.(claims := s.claims[c := row.(via := Manual, code := None)]))
    else
      match CheckSend(GuardOf(s, PairOf(row)), now)
      case MaySend(start, sent) => Ok(CodeSent(s, c, start, sent, now, code, ttl))
      case _ => Ok(s)
  }

  /** The guard after a wrong code. */
  function WrongGuard(g: Guard, now: int): Guard
  {
    if g.wrongEntries + 1 < MAX_WRONG_ENTRIES then g.(wrongEntries := g.wrongEntries + 1)
    else g.(wrongEntries := 0, cooldowns := g.cooldowns + 1, cooldownUntil := Some(now + COOLDOWN_SECONDS),
            lockedAt := if g.cooldowns + 1 >= MAX_COOLDOWNS then Some(now) else g.lockedAt)
  }

  predicate LocksNow(g: Guard)
  {
    g.wrongEntries + 1 >= MAX_WRONG_ENTRIES && g.cooldowns + 1 >= MAX_COOLDOWNS
  }

  function WrongClaim(r: Claim, g: Guard): Claim
  {
    var a := r.(attempts := r.attempts + 1, code := if g.wrongEntries + 1 >= MAX_WRONG_ENTRIES then None else r.code);
    if LocksNow(g) then a.(via := Manual) else a
  }

  function WrongCode(s: State, c: nat, now: int): State
    requires c < |s.claims|
  {
    var row := s.claims[c];
    var p := PairOf(row);
    var g := GuardOf(s, p);
    s.(claims := s.claims[c := WrongClaim(row, g)],
       guards := s.guards[p := WrongGuard(g, now)],
       items := if LocksNow(g) then WithOpen(s.items, LockOf(p), p, c) else s.items)
  }

  /** `resolve_verified_claim`. */
  function Resolved(s: State, c: nat, now: int, skipped: set<nat>): State
    requires c < |s.claims| && s.claims[c].listing in s.listings
  {
    match s.listings[s.claims[c].listing].status
    case Suspended => s
    case Claimed => DisputeRaised(s, c)
    case Unclaimed => ApprovalGranted(s, c, false, now, skipped)
  }

  function CorrectCode(s: State, c: nat, now: int, skipped: set<nat>): State
    requires c < |s.claims| && s.claims[c].listing in s.listings
  {
    var seen := s.(claims := s.claims[c := s.claims[c].(verifiedAt := Some(now), code := None)]);
    if s.claims[c].status == Disputed then seen else Resolved(seen, c, now, skipped)
  }

  /** Why a code entry is refused, in the source's order. */
  function EntryRefusal(row: Claim, g: Guard, now: int): Option<Refusal>
  {
    if !IsOpenStatus(row.status) then Some(WrongStatus)
    else if row.via != DomainEmail then Some(WrongMethod)
    else if row.verifiedAt.Some? then Some(AlreadyVerified)
    else if g.lockedAt.Some? then Some(PairLocked)
    else if g.cooldownUntil.Some? && g.cooldownUntil.value > now then Some(CoolingDown)
    else if row.code.None? then Some(NoActiveCode)
    else if row.expiresAt.Some? && row.expiresAt.value <= now then Some(CodeExpired)
    else None
  }

  /** `_apply_verify_claim_code`. */
  function Verified(s: State, c: nat, entered: string, now: int, skipped: set<nat>): Result<State, Refusal>
  {
    if c >= |s.claims| || s.claims[c].listing !in s.listings then Err(NoSuchRow) else
    var row := s.claims[c];
    var refused := EntryRefusal(row, GuardOf(s, PairOf(row)), now);
    if refused.Some? then Err(refused.value)
    else if row.code == Some(entered) then Ok(CorrectCode(s, c, now, skipped))
    else Ok(WrongCode(s, c, now))
  }

  // --- submit and the operator's commands ------------------------------------------

  /** `_apply_submit_claim`. `admissible`: the method is known and enabled and every
      consent channel is present. `seen` is the listing status the request read,
      which may be out of date. */
  function Submitted(s: State, l: nat, user: nat, requested: Method, admissible: bool, site: Site,
                     seen: ListingStatus, now: int, code: string, ttl: int): Result<State, Refusal>
  {
    if l !in s.listings then Err(NoSuchRow)
    else if !admissible then Err(BadSubmission)
    else if GuardOf(s, (l, user)).blockedAt.Some? then Err(PairBlocked)
    else
      var via := if requested == DomainEmail && Ineligible(site, GuardOf(s, (l, user))) then Manual else requested;
      var c := |s.claims|;
      var added := s.(claims := s.claims + [Claim(l, user, Pending, via, 0, None, None, None, None)]);
      var begun := if via == DomainEmail then Begun(added, c, site, now, code, ttl) else added;
      Ok(if seen == Claimed then DisputeRaised(begun, c) else begun)
  }

  /** The nested start: its guards always pass for the claim just created. */
  function Begun(s: State, c: nat, site: Site, now: int, code: string, ttl: int): (r: State)
    requires c < |s.claims|
    ensures |r.claims| == |s.claims|
  {
    var r := Started(s, c, site, now, code, ttl);
    if r.Ok? then r.value else s
  }

  /** `_apply_approve`. `allowed`: the role, the notes and the method used are in order. */
  function OperatorApproved(s: State, c: nat, allowed: bool, transfer: bool, now: int, skipped: set<nat>)
    : Result<State, Refusal>
  {
    if !allowed then Err(Forbidden)
    else if c >= |s.claims| || s.claims[c].listing !in s.listings then Err(NoSuchRow)
    else
      var row := s.claims[c];
      var status := s.listings[row.listing].status;
      if !IsOpenStatus(row.status) then Err(WrongStatus)
      else if status == Suspended then Err(ListingSuspended)
      else if row.status == Pending && status == Claimed then Ok(DisputeRaised(s, c))
      else if status == Claimed && !transfer then Err(TransferUnconfirmed)
      else Ok(ApprovalGranted(s, c, true, now, skipped))
  }

  function RejectedGuard(g: Guard, now: int): Guard
  {
    g.(rejections := g.rejections + 1,
       blockedAt := if g.rejections + 1 >= REJECTION_BLOCK_THRESHOLD && g.blockedAt.None? then Some(now) else g.blockedAt)
  }

  predicate BlocksNow(g: Guard)
  {
    g.rejections + 1 >= REJECTION_BLOCK_THRESHOLD && g.blockedAt.None?
  }

  /** `_apply_reject`. */
  function OperatorRejected(s: State, c: nat, allowed: bool, now: int): Result<State, Refusal>
  {
    if !allowed then Err(Forbidden)
    else if c >= |s.claims| then Err(NoSuchRow)
    else if !IsOpenStatus(s.claims[c].status) then Err(WrongStatus)
    else
      var row := s.claims[c];
      var p := PairOf(row);
      var g := GuardOf(s, p);
      var closed := DisputeClosed(s.items, c, DecidedRejected);
      Ok(s.(claims := s.claims[c := row.(status := Rejected, decidedAt := Some(now), code := None)],
            guards := s.guards[p := RejectedGuard(g, now)],
            items := if BlocksNow(g) then WithOpen(closed, BlockOf(p), p, c) else closed))
  }

  /** `_apply_queue_command`, for a lock item (`claim.unlock_verification`) or a
      block item (`claim.unblock`). */
  function QueueDecided(s: State, i: nat, kind: ItemType, allowed: bool): Result<State, Refusal>
  {
    if !allowed then Err(Forbidden)
    else if i >= |s.items| then Err(NoSuchRow)
    else if s.items[i].kind != kind || kind == DisputeItem then Err(WrongItemType)
    else if s.items[i].decision != Undecided then Err(ItemNotOpen)
    else
      var p := s.items[i].pair;
      var g := GuardOf(s, p);
      if kind == LockItem then
        if g.lockedAt.None? then Ok(s.(items := s.items[i := s.items[i].(decision := AlreadyCleared)]))
        else Ok(s.(items := s.items[i := s.items[i].(decision := Unlocked)],
                   guards := s.guards[p := g.(lockedAt := None, cooldowns := 0, wrongEntries := 0, cooldownUntil := None)]))
      else
        if g.blockedAt.None? then Ok(s.(items := s.items[i := s.items[i].(decision := AlreadyCleared)]))
        else Ok(s.(items := s.items[i := s.items[i].(decision := Unblocked)],
                   guards := s.guards[p := g.(blockedAt := None)]))
  }
}
