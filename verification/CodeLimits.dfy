/** The brute-force limits of a (listing, claimant) pair, over every run and any
    number of claims of the pair (directory/services.py:1563-1568, 1715-1784,
    1883-1946; directory/claim_review.py:958-971). */
module CodeLimits {
  import opened Prelude
  import opened Claims
  import opened ClaimRuns

  // --- wrong codes are conserved --------------------------------------------------

  function AttemptWeight(p: Pair): Claim -> int
  {
    r => if PairOf(r) == p then r.attempts else 0
  }

  /** Every wrong code ever entered for the pair. */
  function Attempts(s: State, p: Pair): int
  {
    Sum(s.claims, AttemptWeight(p))
  }

  function UnlockWeight(p: Pair): Item -> int
  {
    (i: Item) => if i.kind == LockItem && i.pair == p && i.decision == Unlocked then 1 else 0
  }

  /** The times an operator lifted a lock of the pair. */
  function Unlocks(s: State, p: Pair): int
  {
    Sum(s.items, UnlockWeight(p))
  }

  const CODES_PER_LOCK: int := MAX_COOLDOWNS * MAX_WRONG_ENTRIES

  ghost predicate Tallied(g: Guard, attempts: int, unlocks: int)
  {
    && attempts == CODES_PER_LOCK * unlocks + MAX_WRONG_ENTRIES * g.cooldowns + g.wrongEntries
    && g.wrongEntries < MAX_WRONG_ENTRIES && g.cooldowns <= MAX_COOLDOWNS
    && (g.lockedAt.Some? <==> g.cooldowns == MAX_COOLDOWNS)
    && (g.lockedAt.Some? ==> g.wrongEntries == 0)
  }

  ghost predicate Conserved(s: State)
  {
    forall p :: Tallied(GuardOf(s, p), Attempts(s, p), Unlocks(s, p))
  }

  /** The fields the tally reads. */
  predicate SameCounters(g: Guard, h: Guard)
  {
    g.wrongEntries == h.wrongEntries && g.cooldowns == h.cooldowns && g.lockedAt == h.lockedAt
  }

  /** A write that leaves attempts, unlocks and counters alone keeps the tally. */
  lemma UncountedConserves(s: State, t: State)
    requires Conserved(s)
    requires forall p :: SameCounters(GuardOf(t, p), GuardOf(s, p))
    requires forall p :: Attempts(t, p) == Attempts(s, p) && Unlocks(t, p) == Unlocks(s, p)
    ensures Conserved(t)
  {
  }

  lemma WrongGuardTallies(g: Guard, attempts: int, unlocks: int, now: int)
    requires Tallied(g, attempts, unlocks) && g.lockedAt.None?
    ensures Tallied(WrongGuard(g, now), attempts + 1, unlocks)
  {
  }

  lemma WrongCodeCounts(s: State, c: nat, now: int, p: Pair)
    requires c < |s.claims|
    ensures var t := WrongCode(s, c, now);
      && Attempts(t, p) == Attempts(s, p) + (if p == PairOf(s.claims[c]) then 1 else 0)
      && Unlocks(t, p) == Unlocks(s, p)
  {
    var row := s.claims[c];
    var q := PairOf(row);
    SumUpdate(s.claims, c, WrongClaim(row, GuardOf(s, q)), AttemptWeight(p));
    OpeningUnlocksNothing(s.items, LockOf(q), q, c, p);
  }

  lemma WrongCodeConserves(s: State, c: nat, now: int)
    requires c < |s.claims| && Conserved(s) && GuardOf(s, PairOf(s.claims[c])).lockedAt.None?
    ensures Conserved(WrongCode(s, c, now))
  {
    var t := WrongCode(s, c, now);
    var q := PairOf(s.claims[c]);
    hide Attempts, Unlocks, WrongGuard, Tallied;
    forall p ensures Tallied(GuardOf(t, p), Attempts(t, p), Unlocks(t, p)) {
      assert Tallied(GuardOf(s, p), Attempts(s, p), Unlocks(s, p));
      WrongCodeCounts(s, c, now, p);
      if p == q {
        WrongGuardTallies(GuardOf(s, q), Attempts(s, q), Unlocks(s, q), now);
      }
    }
  }

  /** Only statuses, methods, codes and dates of claims change. */
  lemma SameAttempts(s: State, t: State, p: Pair)
    requires |t.claims| == |s.claims|
    requires forall c :: 0 <= c < |s.claims| ==>
      PairOf(t.claims[c]) == PairOf(s.claims[c]) && t.claims[c].attempts == s.claims[c].attempts
    ensures Attempts(t, p) == Attempts(s, p)
  {
    SumCongruent(t.claims, s.claims, AttemptWeight(p));
  }

  lemma AddedAttempts(s: State, l: nat, user: nat, via: Method, p: Pair)
    ensures Attempts(Added(s, l, user, via), p) == Attempts(s, p)
  {
  }

  lemma OpeningUnlocksNothing(items: seq<Item>, k: Subject, pair: Pair, claim: nat, p: Pair)
    ensures Sum(WithOpen(items, k, pair, claim), UnlockWeight(p)) == Sum(items, UnlockWeight(p))
  {
  }

  lemma ClosingUnlocksNothing(items: seq<Item>, c: nat, d: Decision, p: Pair)
    ensures Sum(DisputeClosed(items, c, d), UnlockWeight(p)) == Sum(items, UnlockWeight(p))
  {
    var i := FirstOpen(items, DisputeOf(c), 0);
    if i < |items| {
      SumUpdate(items, i, items[i].(decision := d), UnlockWeight(p));
    }
  }

  lemma StartedConserves(s: State, c: nat, site: Site, now: int, code: string, ttl: int)
    requires Conserved(s)
    ensures var r := Started(s, c, site, now, code, ttl); r.Ok? ==> Conserved(r.value)
  {
    var r := Started(s, c, site, now, code, ttl);
    if r.Ok? {
      var t := r.value;
      forall p ensures Attempts(t, p) == Attempts(s, p) && Unlocks(t, p) == Unlocks(s, p) {
        SameAttempts(s, t, p);
      }
      hide Conserved, Started;
      UncountedConserves(s, t);
    }
  }

  lemma DisputeConserves(s: State, c: nat)
    requires Conserved(s) && c < |s.claims|
    ensures Conserved(DisputeRaised(s, c))
  {
    var t := DisputeRaised(s, c);
    forall p ensures Attempts(t, p) == Attempts(s, p) && Unlocks(t, p) == Unlocks(s, p) {
      SameAttempts(s, t, p);
      OpeningUnlocksNothing(s.items, DisputeOf(c), PairOf(s.claims[c]), c, p);
    }
    hide Conserved;
    UncountedConserves(s, t);
  }

  lemma ApprovalRow(claims: seq<Claim>, c: nat, manual: bool, now: int, skipped: set<nat>, k: nat)
    requires c < |claims| && k < |claims|
    ensures var r := ClaimsAfterApproval(claims, c, manual, now, skipped)[k];
      PairOf(r) == PairOf(claims[k]) && r.attempts == claims[k].attempts
  {
  }

  lemma ApprovalConserves(s: State, c: nat, manual: bool, now: int, skipped: set<nat>)
    requires Conserved(s) && c < |s.claims|
    ensures Conserved(ApprovalGranted(s, c, manual, now, skipped))
  {
    hide Conserved, DisputeClosed, ClaimsAfterApproval, Attempts;
    var t := ApprovalGranted(s, c, manual, now, skipped);
    forall k | 0 <= k < |s.claims|
      ensures PairOf(t.claims[k]) == PairOf(s.claims[k]) && t.claims[k].attempts == s.claims[k].attempts
    {
      ApprovalRow(s.claims, c, manual, now, skipped, k);
    }
    forall p ensures Attempts(t, p) == Attempts(s, p) && Unlocks(t, p) == Unlocks(s, p) {
      SameAttempts(s, t, p);
      ClosingUnlocksNothing(s.items, c, DecidedApproved, p);
    }
    UncountedConserves(s, t);
  }

  lemma RejectConserves(s: State, c: nat, now: int)
    requires Conserved(s)
    ensures var r := OperatorRejected(s, c, true, now); r.Ok? ==> Conserved(r.value)
  {
    var r := OperatorRejected(s, c, true, now);
    if r.Ok? {
      var t := r.value;
      var q := PairOf(s.claims[c]);
      forall p ensures Attempts(t, p) == Attempts(s, p) && Unlocks(t, p) == Unlocks(s, p) {
        SameAttempts(s, t, p);
        ClosingUnlocksNothing(s.items, c, DecidedRejected, p);
        OpeningUnlocksNothing(DisputeClosed(s.items, c, DecidedRejected), BlockOf(q), q, c, p);
      }
      hide Conserved;
      UncountedConserves(s, t);
    }
  }

  lemma QueueCounts(s: State, i: nat, kind: ItemType, p: Pair)
    requires QueueDecided(s, i, kind, true).Ok?
    ensures var t := QueueDecided(s, i, kind, true).value;
      && Attempts(t, p) == Attempts(s, p)
      && Unlocks(t, p) == Unlocks(s, p) + if t.items[i].decision == Unlocked && s.items[i].pair == p then 1 else 0
  {
    var t := QueueDecided(s, i, kind, true).value;
    SumUpdate(s.items, i, t.items[i], UnlockWeight(p));
  }

  /** An unlock moves the pair's fifteen entries from the counters to the unlocks. */
  lemma QueueConserves(s: State, i: nat, kind: ItemType)
    requires Conserved(s) && QueueDecided(s, i, kind, true).Ok?
    ensures Conserved(QueueDecided(s, i, kind, true).value)
  {
    var t := QueueDecided(s, i, kind, true).value;
    hide Attempts, Unlocks;
    forall p ensures Tallied(GuardOf(t, p), Attempts(t, p), Unlocks(t, p)) {
      assert Tallied(GuardOf(s, p), Attempts(s, p), Unlocks(s, p));
      QueueCounts(s, i, kind, p);
    }
  }

  lemma SubmitConserves(s: State, cmd: Command)
    requires Conserved(s) && cmd.Submit? && Try(s, cmd).Ok?
    ensures Conserved(Exec(s, cmd))
  {
    var added, begun := SubmitShape(s, cmd);
    var via :| added == Added(s, cmd.listing, cmd.user, via);
    hide Conserved, Try, Exec, Started;
    forall p ensures Attempts(added, p) == Attempts(s, p) && Unlocks(added, p) == Unlocks(s, p) {
      AddedAttempts(s, cmd.listing, cmd.user, via, p);
    }
    UncountedConserves(s, added);
    StartedConserves(added, |s.claims|, cmd.site, cmd.now, cmd.code, cmd.ttl);
    DisputeConserves(begun, |s.claims|);
  }

  lemma VerifyConserves(s: State, cmd: Command)
    requires Conserved(s) && cmd.Verify? && Try(s, cmd).Ok?
    ensures Conserved(Exec(s, cmd))
  {
    VerifyShape(s, cmd);
    hide Conserved, Try, Exec, ApprovalGranted, DisputeRaised, WrongCode;
    var c, proven := cmd.claim, Proven(s, cmd.claim, cmd.now);
    WrongCodeConserves(s, c, cmd.now);
    forall p ensures Attempts(proven, p) == Attempts(s, p) && Unlocks(proven, p) == Unlocks(s, p) {
      SameAttempts(s, proven, p);
    }
    UncountedConserves(s, proven);
    DisputeConserves(proven, c);
    ApprovalConserves(proven, c, false, cmd.now, cmd.skipped);
  }

  lemma ApproveConserves(s: State, cmd: Command)
    requires Conserved(s) && cmd.Approve? && Try(s, cmd).Ok?
    ensures Conserved(Exec(s, cmd))
  {
    ApproveShape(s, cmd);
    hide Conserved, Try, Exec, ApprovalGranted, DisputeRaised;
    DisputeConserves(s, cmd.claim);
    ApprovalConserves(s, cmd.claim, true, cmd.now, cmd.skipped);
  }

  lemma ExecConserves(s: State, cmd: Command)
    requires Conserved(s)
    ensures Conserved(Exec(s, cmd))
  {
    if Try(s, cmd).Ok? {
      match cmd
      case Submit(_, _, _, _, _, _, _, _, _) => SubmitConserves(s, cmd);
      case StartVerification(c, site, now, code, ttl) => StartedConserves(s, c, site, now, code, ttl);
      case Verify(_, _, _, _) => VerifyConserves(s, cmd);
      case Approve(_, _, _, _, _) => ApproveConserves(s, cmd);
      case Reject(c, _, now) => RejectConserves(s, c, now);
      case DecideItem(i, kind, _) => QueueConserves(s, i, kind);
    }
  }

  /** In every run the wrong codes of a pair are its counters plus fifteen for each
      unlock, and the pair is locked exactly when the counters are full. */
  lemma {:induction false} WrongCodesConserved(s: State, cmds: seq<Command>)
    requires Initial(s)
    ensures Conserved(Run(s, cmds))
    decreases |cmds|
  {
    if cmds != [] {
      WrongCodesConserved(s, cmds[..|cmds| - 1]);
      ExecConserves(Run(s, cmds[..|cmds| - 1]), cmds[|cmds| - 1]);
    }
  }

  /** Between two unlocks at most fifteen wrong codes can be entered for a pair,
      however many claims and resends it uses. */
  lemma FifteenBetweenUnlocks(s: State, early: seq<Command>, late: seq<Command>, p: Pair)
    requires Initial(s)
    requires Unlocks(Run(s, early), p) == Unlocks(Run(s, late), p)
    ensures Attempts(Run(s, late), p) - Attempts(Run(s, early), p) <= CODES_PER_LOCK
  {
    WrongCodesConserved(s, early);
    WrongCodesConserved(s, late);
    var x, y := Run(s, early), Run(s, late);
    assert Tallied(GuardOf(x, p), Attempts(x, p), Unlocks(x, p));
    assert Tallied(GuardOf(y, p), Attempts(y, p), Unlocks(y, p));
  }

  // --- sends -----------------------------------------------------------------------

  /** When codes were sent for the pair, in order. */
  function SendTimes(sends: seq<Send>, p: Pair): seq<int>
  {
    if sends == [] then []
    else
      var before := SendTimes(sends[..|sends| - 1], p);
      var last := sends[|sends| - 1];
      if last.pair == p then before + [last.at] else before
  }

  predicate Spaced(t: seq<int>)
  {
    forall i :: 0 < i < |t| ==> t[i] - t[i - 1] >= MIN_SECONDS_BETWEEN_SENDS
  }

  /** Ten sends later at least a whole window has passed. */
  predicate TenPerWindow(t: seq<int>)
  {
    forall j :: 2 * MAX_SENDS_PER_WINDOW <= j < |t| ==> t[j] - t[j - 2 * MAX_SENDS_PER_WINDOW] >= SEND_WINDOW
  }

  /** The guard's window holds the last `sentInWindow` sends, and the window before
      it began a full window earlier. */
  predicate Paced(g: Guard, t: seq<int>)
  {
    && Spaced(t) && TenPerWindow(t)
    && g.sentInWindow <= MAX_SENDS_PER_WINDOW
    && if t == [] then g.lastSentAt == None && g.windowStart == None && g.sentInWindow == 0
       else
         var open := |t| - g.sentInWindow;
         && 0 <= open < |t| && g.windowStart == Some(t[open]) && g.lastSentAt == Some(t[|t| - 1])
         && (open >= MAX_SENDS_PER_WINDOW ==> t[open - MAX_SENDS_PER_WINDOW] + SEND_WINDOW <= t[open])
  }

  lemma {:induction false} SpacedAscends(t: seq<int>, i: int, j: int)
    requires Spaced(t) && 0 <= i <= j < |t|
    ensures t[i] <= t[j]
    decreases j - i
  {
    if i < j {
      SpacedAscends(t, i, j - 1);
    }
  }

  /** What an allowed send knows about the pair's last window. */
  lemma SendIsLate(g: Guard, t: seq<int>, now: int)
    requires Paced(g, t) && CheckSend(g, now).MaySend? && t != []
    ensures var c := CheckSend(g, now); var n := |t|; var open := n - g.sentInWindow;
      && now - t[n - 1] >= MIN_SECONDS_BETWEEN_SENDS && 0 <= open < n
      && ((c == MaySend(now, 0) && t[open] + SEND_WINDOW <= now)
          || (c == MaySend(t[open], n - open) && n - open < MAX_SENDS_PER_WINDOW))
  {
  }

  /** Ten sends back is at least a window ago. */
  lemma TenBack(g: Guard, t: seq<int>, now: int)
    requires Paced(g, t) && CheckSend(g, now).MaySend? && |t| >= 2 * MAX_SENDS_PER_WINDOW
    ensures now - t[|t| - 2 * MAX_SENDS_PER_WINDOW] >= SEND_WINDOW
  {
    SendIsLate(g, t, now);
    var n, open := |t|, |t| - g.sentInWindow;
    hide CheckSend, Spaced, TenPerWindow;
    SpacedAscends(t, open, n - 1);
    if t[open] + SEND_WINDOW <= now {
      SpacedAscends(t, n - 2 * MAX_SENDS_PER_WINDOW, open);
    } else {
      SpacedAscends(t, n - 2 * MAX_SENDS_PER_WINDOW, open - MAX_SENDS_PER_WINDOW);
    }
  }

  lemma SendKeepsTen(g: Guard, t: seq<int>, now: int)
    requires Paced(g, t) && CheckSend(g, now).MaySend?
    ensures Spaced(t + [now]) && TenPerWindow(t + [now])
  {
    if t != [] {
      SendIsLate(g, t, now);
    }
    if |t| >= 2 * MAX_SENDS_PER_WINDOW {
      TenBack(g, t, now);
    }
    hide CheckSend;
  }

  /** Sending when the check allows keeps the pace. */
  lemma SendKeepsPace(g: Guard, t: seq<int>, now: int)
    requires Paced(g, t) && CheckSend(g, now).MaySend?
    ensures var c := CheckSend(g, now);
      Paced(g.(lastSentAt := Some(now), windowStart := Some(c.windowStart), sentInWindow := c.sentInWindow + 1), t + [now])
  {
    SendKeepsTen(g, t, now);
    if t != [] {
      SendIsLate(g, t, now);
      hide CheckSend, TenPerWindow;
      var n, open := |t|, |t| - g.sentInWindow;
      if t[open] + SEND_WINDOW <= now && n >= MAX_SENDS_PER_WINDOW {
        SpacedAscends(t, n - MAX_SENDS_PER_WINDOW, open);
      }
    }
  }

  ghost predicate AllPaced(s: State)
  {
    forall p :: Paced(GuardOf(s, p), SendTimes(s.sends, p))
  }

  predicate SamePace(g: Guard, h: Guard)
  {
    g.lastSentAt == h.lastSentAt && g.windowStart == h.windowStart && g.sentInWindow == h.sentInWindow
  }

  lemma UnsentKeepsPace(s: State, t: State)
    requires AllPaced(s) && t.sends == s.sends
    requires forall p :: SamePace(GuardOf(t, p), GuardOf(s, p))
    ensures AllPaced(t)
  {
  }

  lemma CodeSentKeepsPace(s: State, c: nat, now: int, code: string, ttl: int)
    requires AllPaced(s) && c < |s.claims| && CheckSend(GuardOf(s, PairOf(s.claims[c])), now).MaySend?
    ensures var m := CheckSend(GuardOf(s, PairOf(s.claims[c])), now);
      AllPaced(CodeSent(s, c, m.windowStart, m.sentInWindow, now, code, ttl))
  {
    var q := PairOf(s.claims[c]);
    var m := CheckSend(GuardOf(s, q), now);
    var t := CodeSent(s, c, m.windowStart, m.sentInWindow, now, code, ttl);
    assert t.sends[..|t.sends| - 1] == s.sends;
    hide Paced, CheckSend;
    forall p ensures Paced(GuardOf(t, p), SendTimes(t.sends, p)) {
      assert Paced(GuardOf(s, p), SendTimes(s.sends, p));
      if p == q {
        SendKeepsPace(GuardOf(s, q), SendTimes(s.sends, q), now);
      }
    }
  }

  lemma StartedKeepsPace(s: State, c: nat, site: Site, now: int, code: string, ttl: int)
    requires AllPaced(s)
    ensures var r := Started(s, c, site, now, code, ttl); r.Ok? ==> AllPaced(r.value)
  {
    hide AllPaced, CodeSent, CheckSend;
    var r := Started(s, c, site, now, code, ttl);
    if r.Ok? {
      if CheckSend(GuardOf(s, PairOf(s.claims[c])), now).MaySend? {
        CodeSentKeepsPace(s, c, now, code, ttl);
      }
      if r.value.sends == s.sends && r.value.guards == s.guards {
        UnsentKeepsPace(s, r.value);
      }
    }
  }

  lemma SubmitKeepsPace(s: State, cmd: Command)
    requires AllPaced(s) && cmd.Submit? && Try(s, cmd).Ok?
    ensures AllPaced(Exec(s, cmd))
  {
    var added, begun := SubmitShape(s, cmd);
    hide AllPaced, Try, Exec, Started;
    UnsentKeepsPace(s, added);
    StartedKeepsPace(added, |s.claims|, cmd.site, cmd.now, cmd.code, cmd.ttl);
    UnsentKeepsPace(begun, DisputeRaised(begun, |s.claims|));
  }

  lemma ExecKeepsPace(s: State, cmd: Command)
    requires AllPaced(s)
    ensures AllPaced(Exec(s, cmd))
  {
    if Try(s, cmd).Ok? {
      match cmd
      case Submit(_, _, _, _, _, _, _, _, _) =>
        SubmitKeepsPace(s, cmd);
      case StartVerification(c, site, now, code, ttl) =>
        hide AllPaced, Started;
        StartedKeepsPace(s, c, site, now, code, ttl);
      case Verify(_, _, _, _) =>
        VerifyShape(s, cmd);
        hide AllPaced, Try, Exec, ClaimsAfterApproval;
        UnsentKeepsPace(s, Exec(s, cmd));
      case Approve(_, _, _, _, _) =>
        ApproveShape(s, cmd);
        hide AllPaced, Try, Exec, ClaimsAfterApproval;
        UnsentKeepsPace(s, Exec(s, cmd));
      case Reject(_, _, _) =>
        hide AllPaced;
        UnsentKeepsPace(s, Exec(s, cmd));
      case DecideItem(_, _, _) =>
        hide AllPaced;
        UnsentKeepsPace(s, Exec(s, cmd));
    }
  }

  /** In every run, under any clock, the sends of a pair are spaced and paced. */
  lemma {:induction false} SendsArePaced(s: State, cmds: seq<Command>)
    requires Initial(s)
    ensures AllPaced(Run(s, cmds))
    decreases |cmds|
  {
    if cmds != [] {
      SendsArePaced(s, cmds[..|cmds| - 1]);
      ExecKeepsPace(Run(s, cmds[..|cmds| - 1]), cmds[|cmds| - 1]);
    }
  }

  lemma {:induction false} NarrowSetIsSmall(s: set<nat>, lo: nat, n: nat)
    requires forall x :: x in s ==> lo <= x < lo + n
    ensures |s| <= n
  {
    if n == 0 {
      assert s == {};
    } else {
      NarrowSetIsSmall(s - {lo + n - 1}, lo, n - 1);
    }
  }

  /** Any 24-hour interval holds at most ten sends for a pair, over all its claims. */
  lemma TenSendsADay(s: State, cmds: seq<Command>, p: Pair, from: int)
    requires Initial(s)
    ensures var t := SendTimes(Run(s, cmds).sends, p);
      |set i: nat | i < |t| && from <= t[i] < from + SEND_WINDOW| <= 2 * MAX_SENDS_PER_WINDOW
  {
    SendsArePaced(s, cmds);
    var t := SendTimes(Run(s, cmds).sends, p);
    assert Paced(GuardOf(Run(s, cmds), p), t) && TenPerWindow(t) && Spaced(t);
    hide Paced, AllPaced, Run;
    var inside := set i: nat | i < |t| && from <= t[i] < from + SEND_WINDOW;
    if inside != {} {
      forall i | i in inside ensures Least(inside) <= i < Least(inside) + 2 * MAX_SENDS_PER_WINDOW {
        if i >= Least(inside) + 2 * MAX_SENDS_PER_WINDOW {
          SpacedAscends(t, Least(inside), i - 2 * MAX_SENDS_PER_WINDOW);
        }
      }
      NarrowSetIsSmall(inside, Least(inside), 2 * MAX_SENDS_PER_WINDOW);
    }
  }
}
