/** What every run of claim commands keeps. */
module ClaimRuns {
  import opened Prelude
  import opened Claims

  datatype Command =
    | Submit(listing: nat, user: nat, requested: Method, admissible: bool, site: Site, seen: ListingStatus,
             now: int, code: string, ttl: int)
    | StartVerification(claim: nat, site: Site, now: int, code: string, ttl: int)
    | Verify(claim: nat, entered: string, now: int, skipped: set<nat>)
    | Approve(claim: nat, allowed: bool, transfer: bool, now: int, skipped: set<nat>)
    | Reject(claim: nat, allowed: bool, now: int)
    | DecideItem(item: nat, kind: ItemType, allowed: bool)

  function Try(s: State, cmd: Command): Result<State, Refusal>
  {
    match cmd
    case Submit(l, u, m, ok, site, seen, now, code, ttl) => Submitted(s, l, u, m, ok, site, seen, now, code, ttl)
    case StartVerification(c, site, now, code, ttl) => Started(s, c, site, now, code, ttl)
    case Verify(c, entered, now, skipped) => Verified(s, c, entered, now, skipped)
    case Approve(c, allowed, transfer, now, skipped) => OperatorApproved(s, c, allowed, transfer, now, skipped)
    case Reject(c, allowed, now) => OperatorRejected(s, c, allowed, now)
    case DecideItem(i, kind, allowed) => QueueDecided(s, i, kind, allowed)
  }

  /** A refused command changes nothing. */
  function Exec(s: State, cmd: Command): State
  {
    var r := Try(s, cmd);
    if r.Ok? then r.value else s
  }

  function Run(s: State, cmds: seq<Command>): State
    decreases |cmds|
  {
    if cmds == [] then s else Exec(Run(s, cmds[..|cmds| - 1]), cmds[|cmds| - 1])
  }

  /** Before the first claim: every listing is unclaimed and unowned, or suspended. */
  ghost predicate Initial(s: State)
  {
    && s.claims == [] && s.guards == map[] && s.items == [] && s.sends == []
    && forall l :: l in s.listings ==> s.listings[l].status == Suspended || s.listings[l] == ListingRow(Unclaimed, None)
  }

  // --- the queue mirrors the state --------------------------------------------------

  function OpenWeight(k: Subject): Item -> int
  {
    i => if Open(i, k) then 1 else 0
  }

  function OpenCount(items: seq<Item>, k: Subject): int
  {
    Sum(items, OpenWeight(k))
  }

  lemma {:induction false} NoneOpen(items: seq<Item>, k: Subject)
    ensures OpenCount(items, k) >= 0
    ensures OpenCount(items, k) == 0 <==> FirstOpen(items, k, 0) == |items|
  {
    SumNonNegative(items, OpenWeight(k));
    var i := FirstOpen(items, k, 0);
    if i < |items| {
      SumBounds(items, OpenWeight(k), i);
    } else {
      AllClosed(items, k);
    }
  }

  lemma {:induction false} AllClosed(items: seq<Item>, k: Subject)
    requires forall j :: 0 <= j < |items| ==> !Open(items[j], k)
    ensures OpenCount(items, k) == 0
  {
    if items != [] {
      AllClosed(items[..|items| - 1], k);
    }
  }

  /** An item is open under one subject only. */
  lemma OpenUnique(i: Item, j: Subject, k: Subject)
    requires Open(i, j) && Open(i, k)
    ensures j == k
  {
  }

  predicate About(k: Subject, pair: Pair, claim: nat)
  {
    match k case DisputeOf(c) => c == claim case LockOf(p) => p == pair case BlockOf(p) => p == pair
  }

  lemma {:induction false} OpeningCounts(items: seq<Item>, k: Subject, pair: Pair, claim: nat, j: Subject)
    requires About(k, pair, claim) && OpenCount(items, k) == 0
    ensures OpenCount(WithOpen(items, k, pair, claim), j) == OpenCount(items, j) + if j == k then 1 else 0
  {
    NoneOpen(items, k);
    var x := NewItem(k, pair, claim);
    assert Open(x, k);
    SumAppend(items, x, OpenWeight(j));
    if j != k && Open(x, j) {
      OpenUnique(x, j, k);
    }
  }

  /** Deciding an open item takes one from its subject's count and no other's. */
  lemma {:induction false} DecidingCounts(items: seq<Item>, i: nat, d: Decision, k: Subject, j: Subject)
    requires i < |items| && Open(items[i], k) && d != Undecided
    ensures OpenCount(items[i := items[i].(decision := d)], j) == OpenCount(items, j) - if j == k then 1 else 0
  {
    SumUpdate(items, i, items[i].(decision := d), OpenWeight(j));
    if j != k && Open(items[i], j) {
      OpenUnique(items[i], j, k);
    }
  }

  lemma {:induction false} ClosingCounts(items: seq<Item>, c: nat, d: Decision, j: Subject)
    requires d != Undecided && OpenCount(items, DisputeOf(c)) <= 1
    ensures OpenCount(DisputeClosed(items, c, d), j) == if j == DisputeOf(c) then 0 else OpenCount(items, j)
  {
    NoneOpen(items, DisputeOf(c));
    var i := FirstOpen(items, DisputeOf(c), 0);
    if i < |items| {
      DecidingCounts(items, i, d, DisputeOf(c), j);
    }
  }

  function Flag(b: bool): int
  {
    if b then 1 else 0
  }

  /** One open item for each disputed claim, each locked pair and each blocked
      pair, and none besides. */
  function Expected(claims: seq<Claim>, guards: map<Pair, Guard>, k: Subject): int
  {
    match k
    case DisputeOf(c) => Flag(c < |claims| && claims[c].status == Disputed)
    case LockOf(p) => Flag(GuardIn(guards, p).lockedAt.Some?)
    case BlockOf(p) => Flag(GuardIn(guards, p).blockedAt.Some?)
  }

  ghost predicate Mirrored(s: State)
  {
    forall k :: OpenCount(s.items, k) == Expected(s.claims, s.guards, k)
  }

  lemma DisputeMirrors(s: State, c: nat)
    requires c < |s.claims| && s.claims[c].status != Disputed && Mirrored(s)
    ensures Mirrored(DisputeRaised(s, c))
  {
    var after := DisputeRaised(s, c);
    assert OpenCount(s.items, DisputeOf(c)) == Expected(s.claims, s.guards, DisputeOf(c));
    forall k ensures OpenCount(after.items, k) == Expected(after.claims, after.guards, k) {
      OpeningCounts(s.items, DisputeOf(c), PairOf(s.claims[c]), c, k);
    }
  }

  lemma ApprovalMirrors(s: State, c: nat, manual: bool, now: int, skipped: set<nat>)
    requires c < |s.claims| && Mirrored(s) && (manual || s.claims[c].status != Disputed)
    ensures Mirrored(ApprovalGranted(s, c, manual, now, skipped))
  {
    var after := ApprovalGranted(s, c, manual, now, skipped);
    assert OpenCount(s.items, DisputeOf(c)) == Expected(s.claims, s.guards, DisputeOf(c));
    forall k ensures OpenCount(after.items, k) == Expected(after.claims, after.guards, k) {
      if manual {
        ClosingCounts(s.items, c, DecidedApproved, k);
      }
      assert OpenCount(s.items, k) == Expected(s.claims, s.guards, k);
    }
  }

  lemma WrongCodeMirrors(s: State, c: nat, now: int)
    requires c < |s.claims| && Mirrored(s) && GuardOf(s, PairOf(s.claims[c])).lockedAt.None?
    ensures Mirrored(WrongCode(s, c, now))
  {
    var after := WrongCode(s, c, now);
    var p := PairOf(s.claims[c]);
    assert OpenCount(s.items, LockOf(p)) == Expected(s.claims, s.guards, LockOf(p));
    forall k ensures OpenCount(after.items, k) == Expected(after.claims, after.guards, k) {
      if LocksNow(GuardOf(s, p)) {
        OpeningCounts(s.items, LockOf(p), p, c, k);
      }
      assert OpenCount(s.items, k) == Expected(s.claims, s.guards, k);
    }
  }

  lemma StartedMirrors(s: State, c: nat, site: Site, now: int, code: string, ttl: int)
    requires Mirrored(s)
    ensures var r := Started(s, c, site, now, code, ttl); r.Ok? ==> Mirrored(r.value)
  {
  }

  lemma RejectMirrors(s: State, c: nat, now: int)
    requires Mirrored(s)
    ensures var r := OperatorRejected(s, c, true, now); r.Ok? ==> Mirrored(r.value)
  {
    var r := OperatorRejected(s, c, true, now);
    if r.Ok? {
      var after := r.value;
      var p := PairOf(s.claims[c]);
      var closed := DisputeClosed(s.items, c, DecidedRejected);
      assert OpenCount(s.items, DisputeOf(c)) == Expected(s.claims, s.guards, DisputeOf(c));
      assert OpenCount(s.items, BlockOf(p)) == Expected(s.claims, s.guards, BlockOf(p));
      ClosingCounts(s.items, c, DecidedRejected, BlockOf(p));
      forall k ensures OpenCount(after.items, k) == Expected(after.claims, after.guards, k) {
        ClosingCounts(s.items, c, DecidedRejected, k);
        if BlocksNow(GuardOf(s, p)) {
          OpeningCounts(closed, BlockOf(p), p, c, k);
        }
        assert OpenCount(s.items, k) == Expected(s.claims, s.guards, k);
      }
    }
  }

  /** The queue commands find their item's state still in force, so they never
      decide `already_cleared`. */
  lemma QueueMirrors(s: State, i: nat, kind: ItemType)
    requires Mirrored(s) && QueueDecided(s, i, kind, true).Ok?
    ensures Mirrored(QueueDecided(s, i, kind, true).value)
    ensures QueueDecided(s, i, kind, true).value.items[i].decision in {Unlocked, Unblocked}
  {
    var p := s.items[i].pair;
    var k := if kind == LockItem then LockOf(p) else BlockOf(p);
    assert Open(s.items[i], k);
    assert OpenCount(s.items, k) == Expected(s.claims, s.guards, k);
    SumBounds(s.items, OpenWeight(k), i);
    var after := QueueDecided(s, i, kind, true).value;
    forall j ensures OpenCount(after.items, j) == Expected(after.claims, after.guards, j) {
      DecidingCounts(s.items, i, after.items[i].decision, k, j);
      assert OpenCount(s.items, j) == Expected(s.claims, s.guards, j);
    }
  }

  // --- commands as sequences of smaller writes ----------------------------------------

  function Added(s: State, l: nat, user: nat, via: Method): State
  {
    s.(claims := s.claims + [Claim(l, user, Pending, via, 0, None, None, None, None)])
  }

  /** Submit: add a pending claim, perhaps start its verification, perhaps dispute it. */
  lemma SubmitShape(s: State, cmd: Command) returns (added: State, begun: State)
    requires cmd.Submit? && Try(s, cmd).Ok?
    ensures cmd.listing in s.listings
    ensures exists via :: added == Added(s, cmd.listing, cmd.user, via)
    ensures begun == added || Started(added, |s.claims|, cmd.site, cmd.now, cmd.code, cmd.ttl) == Ok(begun)
    ensures |begun.claims| == |s.claims| + 1 && begun.claims[|s.claims|].status == Pending
    ensures Exec(s, cmd) == begun || Exec(s, cmd) == DisputeRaised(begun, |s.claims|)
  {
    var g := GuardOf(s, (cmd.listing, cmd.user));
    var via := if cmd.requested == DomainEmail && Ineligible(cmd.site, g) then Manual else cmd.requested;
    added := Added(s, cmd.listing, cmd.user, via);
    begun := if via == DomainEmail then Begun(added, |s.claims|, cmd.site, cmd.now, cmd.code, cmd.ttl) else added;
  }

  function Proven(s: State, c: nat, now: int): State
    requires c < |s.claims|
  {
    s.(claims := s.claims[c := s.claims[c].(verifiedAt := Some(now), code := None)])
  }

  /** Verify: a wrong code, or a proven claim that may then be disputed or, on an
      unclaimed listing, approved. */
  lemma VerifyShape(s: State, cmd: Command)
    requires cmd.Verify? && Try(s, cmd).Ok?
    ensures cmd.claim < |s.claims| && IsOpenStatus(s.claims[cmd.claim].status)
    ensures GuardOf(s, PairOf(s.claims[cmd.claim])).lockedAt.None? && s.claims[cmd.claim].listing in s.listings
    ensures var proven := Proven(s, cmd.claim, cmd.now);
      || Exec(s, cmd) == WrongCode(s, cmd.claim, cmd.now)
      || Exec(s, cmd) == proven
      || (s.claims[cmd.claim].status == Pending && Exec(s, cmd) == DisputeRaised(proven, cmd.claim))
      || (s.claims[cmd.claim].status == Pending && s.listings[s.claims[cmd.claim].listing].status == Unclaimed
          && Exec(s, cmd) == ApprovalGranted(proven, cmd.claim, false, cmd.now, cmd.skipped))
  {
  }

  lemma ApproveShape(s: State, cmd: Command)
    requires cmd.Approve? && Try(s, cmd).Ok?
    ensures cmd.allowed && cmd.claim < |s.claims| && s.claims[cmd.claim].listing in s.listings
    ensures var row := s.claims[cmd.claim]; var status := s.listings[row.listing].status;
      || (row.status == Pending && status == Claimed && Exec(s, cmd) == DisputeRaised(s, cmd.claim))
      || (&& IsOpenStatus(row.status)
          && (status == Unclaimed || (status == Claimed && row.status == Disputed && cmd.transfer))
          && Exec(s, cmd) == ApprovalGranted(s, cmd.claim, true, cmd.now, cmd.skipped))
  {
  }

  // --- the queue over whole runs -------------------------------------------------------

  /** Writes that keep items, guards and statuses keep the mirror. */
  lemma SameStatusMirrors(s: State, t: State)
    requires Mirrored(s) && t.items == s.items && t.guards == s.guards && |s.claims| <= |t.claims|
    requires forall c :: 0 <= c < |t.claims| ==>
      t.claims[c].status == if c < |s.claims| then s.claims[c].status else Pending
    ensures Mirrored(t)
  {
  }

  lemma SubmitMirrors(s: State, cmd: Command)
    requires Mirrored(s) && cmd.Submit? && Try(s, cmd).Ok?
    ensures Mirrored(Exec(s, cmd))
  {
    var added, begun := SubmitShape(s, cmd);
    hide Mirrored, Try, Exec, Started;
    SameStatusMirrors(s, added);
    StartedMirrors(added, |s.claims|, cmd.site, cmd.now, cmd.code, cmd.ttl);
    DisputeMirrors(begun, |s.claims|);
  }

  lemma VerifyMirrors(s: State, cmd: Command)
    requires Mirrored(s) && cmd.Verify? && Try(s, cmd).Ok?
    ensures Mirrored(Exec(s, cmd))
  {
    VerifyShape(s, cmd);
    hide Mirrored, Try, Exec, DisputeRaised, ApprovalGranted;
    var c := cmd.claim;
    var proven := Proven(s, c, cmd.now);
    WrongCodeMirrors(s, c, cmd.now);
    SameStatusMirrors(s, proven);
    if s.claims[c].status == Pending {
      DisputeMirrors(proven, c);
      ApprovalMirrors(proven, c, false, cmd.now, cmd.skipped);
    }
  }

  lemma ApproveMirrors(s: State, cmd: Command)
    requires Mirrored(s) && cmd.Approve? && Try(s, cmd).Ok?
    ensures Mirrored(Exec(s, cmd))
  {
    ApproveShape(s, cmd);
    hide Mirrored, Try, Exec, DisputeRaised, ApprovalGranted;
    if s.claims[cmd.claim].status == Pending {
      DisputeMirrors(s, cmd.claim);
    }
    ApprovalMirrors(s, cmd.claim, true, cmd.now, cmd.skipped);
  }

  lemma ExecMirrors(s: State, cmd: Command)
    requires Mirrored(s)
    ensures Mirrored(Exec(s, cmd))
  {
    if Try(s, cmd).Ok? {
      match cmd
      case Submit(_, _, _, _, _, _, _, _, _) => SubmitMirrors(s, cmd);
      case StartVerification(c, site, now, code, ttl) => StartedMirrors(s, c, site, now, code, ttl);
      case Verify(_, _, _, _) => VerifyMirrors(s, cmd);
      case Approve(_, _, _, _, _) => ApproveMirrors(s, cmd);
      case Reject(c, _, now) => RejectMirrors(s, c, now);
      case DecideItem(i, kind, _) => QueueMirrors(s, i, kind);
    }
  }

  /** In every run a claim is disputed iff it has exactly one open dispute item, a
      pair is locked iff it has exactly one open lock item and blocked iff it has
      exactly one open block item; there is never a second one. */
  lemma {:induction false} QueueMirrorsState(s: State, cmds: seq<Command>)
    requires Initial(s)
    ensures Mirrored(Run(s, cmds))
    decreases |cmds|
  {
    if cmds != [] {
      QueueMirrorsState(s, cmds[..|cmds| - 1]);
      ExecMirrors(Run(s, cmds[..|cmds| - 1]), cmds[|cmds| - 1]);
    }
  }

  ghost predicate NeverAlreadyCleared(s: State)
  {
    forall i :: 0 <= i < |s.items| ==> s.items[i].decision != AlreadyCleared
  }

  lemma ClosingNeverClears(items: seq<Item>, c: nat, d: Decision)
    requires d != AlreadyCleared && forall i :: 0 <= i < |items| ==> items[i].decision != AlreadyCleared
    ensures forall i :: 0 <= i < |DisputeClosed(items, c, d)| ==> DisputeClosed(items, c, d)[i].decision != AlreadyCleared
  {
  }

  lemma VisitorNeverClears(s: State, cmd: Command)
    requires NeverAlreadyCleared(s) && Try(s, cmd).Ok? && (cmd.Submit? || cmd.StartVerification? || cmd.Verify?)
    ensures NeverAlreadyCleared(Exec(s, cmd))
  {
  }

  lemma ExecNeverClears(s: State, cmd: Command)
    requires Mirrored(s) && NeverAlreadyCleared(s)
    ensures NeverAlreadyCleared(Exec(s, cmd))
  {
    if Try(s, cmd).Ok? {
      match cmd
      case Approve(c, _, _, _, _) =>
        ApproveShape(s, cmd);
        hide Mirrored, Try, Exec, ClaimsAfterApproval;
        ClosingNeverClears(s.items, c, DecidedApproved);
      case Reject(c, _, now) =>
        hide Mirrored;
        ClosingNeverClears(s.items, c, DecidedRejected);
      case DecideItem(i, kind, _) =>
        QueueMirrors(s, i, kind);
      case _ =>
        VisitorNeverClears(s, cmd);
    }
  }

  /** The `already_cleared` branch of the queue commands is never taken. */
  lemma {:induction false} AlreadyClearedIsUnreachable(s: State, cmds: seq<Command>)
    requires Initial(s)
    ensures NeverAlreadyCleared(Run(s, cmds))
    decreases |cmds|
  {
    if cmds != [] {
      var before := cmds[..|cmds| - 1];
      AlreadyClearedIsUnreachable(s, before);
      QueueMirrorsState(s, before);
      ExecNeverClears(Run(s, before), cmds[|cmds| - 1]);
    }
  }
}
