/** The claim commands as they run: each method updates the tables row by row, as
    the transaction does, and is proved to reach the state `Claims` specifies. */
module ClaimDesk {
  import opened Prelude
  import opened Claims

  /** A refused command leaves the tables alone; any other reaches its state. */
  predicate Outcome(expected: Result<State, Refusal>, before: State, refused: Option<Refusal>, after: State)
  {
    match expected
    case Ok(t) => refused == None && after == t
    case Err(e) => refused == Some(e) && after == before
  }

  class Desk {
    var listings: map<nat, ListingRow>
    var claims: seq<Claim>
    var guards: map<Pair, Guard>
    var items: seq<Item>
    var sends: seq<Send>

    ghost function View(): State
      reads this
    {
      State(listings, claims, guards, items, sends)
    }

    method SetClaim(c: nat, row: Claim)
      requires c < |claims|
      modifies this`claims
      ensures claims == old(claims)[c := row]
    {
      claims := claims[c := row];
    }

    /** The first open item about `k`. */
    method FindOpen(k: Subject) returns (i: nat)
      ensures i == FirstOpen(items, k, 0)
    {
      i := 0;
      while i < |items| && !Open(items[i], k)
        invariant i <= |items| && FirstOpen(items, k, 0) == FirstOpen(items, k, i)
      {
        i := i + 1;
      }
    }

    method OpenItem(k: Subject, pair: Pair, claim: nat)
      modifies this`items
      ensures items == WithOpen(old(items), k, pair, claim)
    {
      var i := FindOpen(k);
      if i == |items| {
        items := items + [NewItem(k, pair, claim)];
      }
    }

    method DecideClaimItem(c: nat, d: Decision)
      modifies this`items
      ensures items == DisputeClosed(old(items), c, d)
    {
      var i := FindOpen(DisputeOf(c));
      if i < |items| {
        items := items[i := items[i].(decision := d)];
      }
    }

    method Dispute(c: nat)
      requires c < |claims|
      modifies this`claims, this`items
      ensures View() == DisputeRaised(old(View()), c)
    {
      var pair := PairOf(claims[c]);
      SetClaim(c, claims[c].(status := Disputed));
      OpenItem(DisputeOf(c), pair, c);
    }

    /** A transfer retires the old approval first. */
    method RetireApproved(l: nat, winner: nat)
      modifies this`claims
      ensures |claims| == |old(claims)|
      ensures forall k :: 0 <= k < |claims| ==>
        claims[k] == if k == winner then old(claims)[k] else Retired(old(claims)[k], l)
    {
      for i := 0 to |claims|
        invariant |claims| == |old(claims)|
        invariant forall k :: 0 <= k < i ==>
          claims[k] == if k == winner then old(claims)[k] else Retired(old(claims)[k], l)
        invariant forall k :: i <= k < |claims| ==> claims[k] == old(claims)[k]
      {
        if i != winner && claims[i].listing == l && claims[i].status == Approved {
          SetClaim(i, claims[i].(status := Superseded));
        }
      }
    }

    /** The other pending claims on the listing lose, except those another
        transaction holds. */
    method RejectLosers(l: nat, winner: nat, now: int, skipped: set<nat>)
      modifies this`claims
      ensures |claims| == |old(claims)|
      ensures forall k :: 0 <= k < |claims| ==>
        claims[k] == if k == winner || k in skipped then old(claims)[k] else Lost(old(claims)[k], l, now)
    {
      for i := 0 to |claims|
        invariant |claims| == |old(claims)|
        invariant forall k :: 0 <= k < i ==>
          claims[k] == if k == winner || k in skipped then old(claims)[k] else Lost(old(claims)[k], l, now)
        invariant forall k :: i <= k < |claims| ==> claims[k] == old(claims)[k]
      {
        if i != winner && i !in skipped && claims[i].listing == l && claims[i].status == Pending {
          SetClaim(i, claims[i].(status := Rejected, decidedAt := Some(now), code := None));
        }
      }
    }

    method ApproveClaim(c: nat, manual: bool, now: int, skipped: set<nat>)
      requires c < |claims|
      modifies this`claims, this`listings, this`items
      ensures View() == ApprovalGranted(old(View()), c, manual, now, skipped)
    {
      var row := claims[c];
      RetireApproved(row.listing, c);
      var won := row.(status := Approved, decidedAt := Some(now), code := None);
      if manual {
        won := won.(via := Manual, verifiedAt := Some(now));
      }
      SetClaim(c, won);
      listings := listings[row.listing := ListingRow(Claimed, Some(row.claimant))];
      RejectLosers(row.listing, c, now, skipped);
      assert claims == ClaimsAfterApproval(old(claims), c, manual, now, skipped);
      if manual {
        DecideClaimItem(c, DecidedApproved);
      }
    }

    method ResolveVerified(c: nat, now: int, skipped: set<nat>)
      requires c < |claims| && claims[c].listing in listings
      modifies this
      ensures View() == Resolved(old(View()), c, now, skipped)
    {
      var status := listings[claims[c].listing].status;
      if status == Claimed {
        Dispute(c);
      } else if status == Unclaimed {
        ApproveClaim(c, false, now, skipped);
      }
    }

    method StartVerification(c: nat, site: Site, now: int, code: string, ttl: int) returns (refused: Option<Refusal>)
      modifies this
      ensures Outcome(Started(old(View()), c, site, now, code, ttl), old(View()), refused, View())
    {
      if c >= |claims| { return Some(NoSuchRow); }
      var row := claims[c];
      var p := PairOf(row);
      var guard := GuardIn(guards, p);
      if !IsOpenStatus(row.status) { return Some(WrongStatus); }
      if row.via != DomainEmail { return Some(WrongMethod); }
      if row.verifiedAt.Some? { return Some(AlreadyVerified); }
      if Ineligible(site, guard) {
        SetClaim(c, row.(via := Manual, code := None));
        return None;
      }
      if guard.cooldownUntil.Some? && guard.cooldownUntil.value > now { return None; }
      if guard.lastSentAt.Some? && now - guard.lastSentAt.value < MIN_SECONDS_BETWEEN_SENDS { return None; }
      var start, sent := now, 0;
      if guard.windowStart.Some? && now - guard.windowStart.value < SEND_WINDOW {
        start, sent := guard.windowStart.value, guard.sentInWindow;
      }
      if sent >= MAX_SENDS_PER_WINDOW { return None; }
      SetClaim(c, row.(code := Some(code), expiresAt := Some(now + ttl)));
      guards := guards[p := guard.(lastSentAt := Some(now), windowStart := Some(start), sentInWindow := sent + 1)];
      sends := sends + [Send(p, now, c, code, now + ttl)];
      return None;
    }

    method EnterWrongCode(c: nat, now: int)
      requires c < |claims|
      modifies this
      ensures View() == WrongCode(old(View()), c, now)
    {
      var row := claims[c];
      var p := PairOf(row);
      var guard := GuardIn(guards, p);
      var locked := false;
      row := row.(attempts := row.attempts + 1);
      guard := guard.(wrongEntries := guard.wrongEntries + 1);
      if guard.wrongEntries >= MAX_WRONG_ENTRIES {
        row := row.(code := None);
        guard := guard.(cooldownUntil := Some(now + COOLDOWN_SECONDS), cooldowns := guard.cooldowns + 1, wrongEntries := 0);
        if guard.cooldowns >= MAX_COOLDOWNS {
          guard := guard.(lockedAt := Some(now));
          row := row.(via := Manual);
          locked := true;
        }
      }
      SetClaim(c, row);
      guards := guards[p := guard];
      if locked {
        OpenItem(LockOf(p), p, c);
      }
    }

    method VerifyCode(c: nat, entered: string, now: int, skipped: set<nat>) returns (refused: Option<Refusal>)
      modifies this
      ensures Outcome(Verified(old(View()), c, entered, now, skipped), old(View()), refused, View())
    {
      if c >= |claims| || claims[c].listing !in listings { return Some(NoSuchRow); }
      var row := claims[c];
      var guard := GuardIn(guards, PairOf(row));
      if !IsOpenStatus(row.status) { return Some(WrongStatus); }
      if row.via != DomainEmail { return Some(WrongMethod); }
      if row.verifiedAt.Some? { return Some(AlreadyVerified); }
      if guard.lockedAt.Some? { return Some(PairLocked); }
      if guard.cooldownUntil.Some? && guard.cooldownUntil.value > now { return Some(CoolingDown); }
      if row.code.None? { return Some(NoActiveCode); }
      if row.expiresAt.Some? && row.expiresAt.value <= now { return Some(CodeExpired); }
      if row.code.value == entered {
        SetClaim(c, row.(verifiedAt := Some(now), code := None));
        if row.status != Disputed {
          ResolveVerified(c, now, skipped);
        }
      } else {
        EnterWrongCode(c, now);
      }
      return None;
    }

    method SubmitClaim(l: nat, user: nat, requested: Method, admissible: bool, site: Site, seen: ListingStatus,
                       now: int, code: string, ttl: int) returns (refused: Option<Refusal>)
      modifies this
      ensures Outcome(Submitted(old(View()), l, user, requested, admissible, site, seen, now, code, ttl),
                      old(View()), refused, View())
    {
      if l !in listings { return Some(NoSuchRow); }
      if !admissible { return Some(BadSubmission); }
      var guard := GuardIn(guards, (l, user));
      if guard.blockedAt.Some? { return Some(PairBlocked); }
      var via := if requested == DomainEmail && Ineligible(site, guard) then Manual else requested;
      var c := |claims|;
      claims := claims + [Claim(l, user, Pending, via, 0, None, None, None, None)];
      if via == DomainEmail {
        var ignored := StartVerification(c, site, now, code, ttl);
      }
      if seen == Claimed {
        Dispute(c);
      }
      return None;
    }

    method Approve(c: nat, allowed: bool, transfer: bool, now: int, skipped: set<nat>) returns (refused: Option<Refusal>)
      modifies this
      ensures Outcome(OperatorApproved(old(View()), c, allowed, transfer, now, skipped), old(View()), refused, View())
    {
      if !allowed { return Some(Forbidden); }
      if c >= |claims| || claims[c].listing !in listings { return Some(NoSuchRow); }
      var row := claims[c];
      if !IsOpenStatus(row.status) { return Some(WrongStatus); }
      var status := listings[row.listing].status;
      if status == Suspended { return Some(ListingSuspended); }
      var owned := status == Claimed;
      if row.status == Pending && owned {
        Dispute(c);
        return None;
      }
      if owned && !transfer { return Some(TransferUnconfirmed); }
      ApproveClaim(c, true, now, skipped);
      return None;
    }

    method Reject(c: nat, allowed: bool, now: int) returns (refused: Option<Refusal>)
      modifies this
      ensures Outcome(OperatorRejected(old(View()), c, allowed, now), old(View()), refused, View())
    {
      if !allowed { return Some(Forbidden); }
      if c >= |claims| { return Some(NoSuchRow); }
      var row := claims[c];
      if !IsOpenStatus(row.status) { return Some(WrongStatus); }
      var p := PairOf(row);
      var guard := GuardIn(guards, p);
      SetClaim(c, row.(status := Rejected, decidedAt := Some(now), code := None));
      guard := guard.(rejections := guard.rejections + 1);
      var blocked := false;
      if guard.rejections >= REJECTION_BLOCK_THRESHOLD && guard.blockedAt.None? {
        guard := guard.(blockedAt := Some(now));
        blocked := true;
      }
      guards := guards[p := guard];
      DecideClaimItem(c, DecidedRejected);
      if blocked {
        OpenItem(BlockOf(p), p, c);
      }
      return None;
    }

    method QueueCommand(i: nat, kind: ItemType, allowed: bool) returns (refused: Option<Refusal>)
      modifies this
      ensures Outcome(QueueDecided(old(View()), i, kind, allowed), old(View()), refused, View())
    {
      if !allowed { return Some(Forbidden); }
      if i >= |items| { return Some(NoSuchRow); }
      if items[i].kind != kind || kind == DisputeItem { return Some(WrongItemType); }
      if items[i].decision != Undecided { return Some(ItemNotOpen); }
      var p := items[i].pair;
      var guard := GuardIn(guards, p);
      var decision := if kind == LockItem then Unlocked else Unblocked;
      if kind == LockItem {
        if guard.lockedAt.None? {
          decision := AlreadyCleared;
        } else {
          guards := guards[p := guard.(lockedAt := None, cooldowns := 0, wrongEntries := 0, cooldownUntil := None)];
        }
      } else if guard.blockedAt.None? {
        decision := AlreadyCleared;
      } else {
        guards := guards[p := guard.(blockedAt := None)];
      }
      items := items[i := items[i].(decision := decision)];
      return None;
    }
  }
}
