/** The life of a code: which claims may hold one, and what a cooldown stops
    (directory/services.py:1617-1628, 1715-1728, 1888-1946). */
module CodeLife {
  import opened Prelude
  import opened Claims
  import opened ClaimRuns
  import opened CodeLimits

  // --- live codes ---------------------------------------------------------------------

  /** Only an open, unproven claim verified by domain email holds a code. */
  predicate LiveRow(r: Claim)
  {
    r.code.Some? ==> IsOpenStatus(r.status) && r.via == DomainEmail && r.verifiedAt.None?
  }

  ghost predicate AllLive(s: State)
  {
    forall c :: 0 <= c < |s.claims| ==> LiveRow(s.claims[c])
  }

  lemma ApprovalLive(claims: seq<Claim>, c: nat, manual: bool, now: int, skipped: set<nat>, k: nat)
    requires c < |claims| && k < |claims| && LiveRow(claims[k])
    ensures LiveRow(ClaimsAfterApproval(claims, c, manual, now, skipped)[k])
  {
  }

  lemma ApprovalKeepsLive(s: State, c: nat, manual: bool, now: int, skipped: set<nat>)
    requires AllLive(s) && c < |s.claims|
    ensures AllLive(ApprovalGranted(s, c, manual, now, skipped))
  {
    hide ClaimsAfterApproval, LiveRow;
    forall k | 0 <= k < |s.claims| ensures LiveRow(ApprovalGranted(s, c, manual, now, skipped).claims[k]) {
      ApprovalLive(s.claims, c, manual, now, skipped, k);
    }
  }

  lemma SubmitKeepsLive(s: State, cmd: Command)
    requires AllLive(s) && cmd.Submit? && Try(s, cmd).Ok?
    ensures AllLive(Exec(s, cmd))
  {
    var added, begun := SubmitShape(s, cmd);
    assert AllLive(begun);
    hide Try, Exec;
  }

  lemma ExecKeepsLive(s: State, cmd: Command)
    requires AllLive(s)
    ensures AllLive(Exec(s, cmd))
  {
    if Try(s, cmd).Ok? {
      match cmd
      case Submit(_, _, _, _, _, _, _, _, _) => SubmitKeepsLive(s, cmd);
      case Verify(c, _, now, skipped) =>
        VerifyShape(s, cmd);
        hide Try, Exec;
        ApprovalKeepsLive(Proven(s, c, now), c, false, now, skipped);
      case Approve(c, _, _, now, skipped) =>
        ApproveShape(s, cmd);
        hide Try, Exec;
        ApprovalKeepsLive(s, c, true, now, skipped);
      case _ =>
    }
  }

  /** In every run a decided, proven or manual claim holds no code that could still
      be entered. */
  lemma {:induction false} CodesDieWithTheirClaim(s: State, cmds: seq<Command>)
    requires Initial(s)
    ensures AllLive(Run(s, cmds))
    decreases |cmds|
  {
    hide Exec;
    if cmds != [] {
      CodesDieWithTheirClaim(s, cmds[..|cmds| - 1]);
      ExecKeepsLive(Run(s, cmds[..|cmds| - 1]), cmds[|cmds| - 1]);
    }
  }

  // --- cooldowns ----------------------------------------------------------------------

  /** The command runs before `until`, where it reads the clock to enter or send. */
  predicate Before(cmd: Command, until: int)
  {
    match cmd
    case Submit(_, _, _, _, _, _, now, _, _) => now < until
    case StartVerification(_, _, now, _, _) => now < until
    case Verify(_, _, now, _) => now < until
    case _ => true
  }

  /** An operator lifts the pair's lock, and its cooldown with it. */
  predicate Lifts(s: State, cmd: Command, p: Pair)
  {
    cmd.DecideItem? && cmd.kind == LockItem && cmd.item < |s.items| && s.items[cmd.item].pair == p
  }

  /** The pair cools until `until`, with these entries and sends so far. */
  ghost predicate Cooling(s: State, p: Pair, until: int, attempts: int, sent: seq<int>)
  {
    GuardOf(s, p).cooldownUntil == Some(until) && Attempts(s, p) == attempts && SendTimes(s.sends, p) == sent
  }

  lemma StartedCools(s: State, c: nat, site: Site, now: int, code: string, ttl: int, p: Pair, until: int, n: int, sent: seq<int>)
    requires Cooling(s, p, until, n, sent) && now < until
    ensures var r := Started(s, c, site, now, code, ttl); r.Ok? ==> Cooling(r.value, p, until, n, sent)
  {
    var r := Started(s, c, site, now, code, ttl);
    if r.Ok? {
      SameAttempts(s, r.value, p);
      assert r.value.sends == s.sends || r.value.sends[..|r.value.sends| - 1] == s.sends;
    }
  }

  lemma DisputeCools(s: State, c: nat, p: Pair, until: int, n: int, sent: seq<int>)
    requires Cooling(s, p, until, n, sent) && c < |s.claims|
    ensures Cooling(DisputeRaised(s, c), p, until, n, sent)
  {
    SameAttempts(s, DisputeRaised(s, c), p);
  }

  lemma ApprovalCools(s: State, c: nat, manual: bool, now: int, skipped: set<nat>, p: Pair, until: int, n: int, sent: seq<int>)
    requires Cooling(s, p, until, n, sent) && c < |s.claims|
    ensures Cooling(ApprovalGranted(s, c, manual, now, skipped), p, until, n, sent)
  {
    var t := ApprovalGranted(s, c, manual, now, skipped);
    hide ClaimsAfterApproval, Attempts, SendTimes;
    forall k | 0 <= k < |s.claims|
      ensures PairOf(t.claims[k]) == PairOf(s.claims[k]) && t.claims[k].attempts == s.claims[k].attempts
    {
      ApprovalRow(s.claims, c, manual, now, skipped, k);
    }
    SameAttempts(s, t, p);
  }

  lemma VerifyCools(s: State, cmd: Command, p: Pair, until: int, n: int, sent: seq<int>)
    requires Cooling(s, p, until, n, sent) && cmd.Verify? && Try(s, cmd).Ok? && cmd.now < until
    ensures Cooling(Exec(s, cmd), p, until, n, sent)
  {
    VerifyShape(s, cmd);
    var c, proven := cmd.claim, Proven(s, cmd.claim, cmd.now);
    assert PairOf(s.claims[c]) != p;
    hide Try, Exec, ApprovalGranted, DisputeRaised, Attempts, SendTimes;
    WrongCodeCounts(s, c, cmd.now, p);
    SameAttempts(s, proven, p);
    DisputeCools(proven, c, p, until, n, sent);
    ApprovalCools(proven, c, false, cmd.now, cmd.skipped, p, until, n, sent);
  }

  lemma SubmitCools(s: State, cmd: Command, p: Pair, until: int, n: int, sent: seq<int>)
    requires Cooling(s, p, until, n, sent) && cmd.Submit? && Try(s, cmd).Ok? && cmd.now < until
    ensures Cooling(Exec(s, cmd), p, until, n, sent)
  {
    var added, begun := SubmitShape(s, cmd);
    var via :| added == Added(s, cmd.listing, cmd.user, via);
    hide Try, Exec, Started, DisputeRaised, Attempts, SendTimes;
    AddedAttempts(s, cmd.listing, cmd.user, via, p);
    StartedCools(added, |s.claims|, cmd.site, cmd.now, cmd.code, cmd.ttl, p, until, n, sent);
    DisputeCools(begun, |s.claims|, p, until, n, sent);
  }

  lemma ExecCools(s: State, cmd: Command, p: Pair, until: int, n: int, sent: seq<int>)
    requires Cooling(s, p, until, n, sent) && Before(cmd, until) && !Lifts(s, cmd, p)
    ensures Cooling(Exec(s, cmd), p, until, n, sent)
  {
    if Try(s, cmd).Ok? {
      match cmd
      case Submit(_, _, _, _, _, _, _, _, _) => SubmitCools(s, cmd, p, until, n, sent);
      case StartVerification(c, site, now, code, ttl) => StartedCools(s, c, site, now, code, ttl, p, until, n, sent);
      case Verify(_, _, _, _) => VerifyCools(s, cmd, p, until, n, sent);
      case Approve(c, _, _, now, skipped) =>
        ApproveShape(s, cmd);
        hide Try, Exec, ApprovalGranted, DisputeRaised, Cooling;
        DisputeCools(s, c, p, until, n, sent);
        ApprovalCools(s, c, true, now, skipped, p, until, n, sent);
      case Reject(_, _, _) =>
        SameAttempts(s, Exec(s, cmd), p);
      case DecideItem(_, _, _) =>
        assert Exec(s, cmd).claims == s.claims;
    }
  }

  /** The command does not get a code of the pair looked at: it is refused whether
      the code is right or wrong. */
  predicate RefusesCode(s: State, cmd: Command, p: Pair)
  {
    cmd.Verify? && cmd.claim < |s.claims| && PairOf(s.claims[cmd.claim]) == p ==> Try(s, cmd).Err?
  }

  lemma CoolingRefuses(s: State, cmd: Command, p: Pair, until: int)
    requires GuardOf(s, p).cooldownUntil == Some(until) && Before(cmd, until)
    ensures RefusesCode(s, cmd, p)
  {
  }

  /** While a pair cools, in every run of commands that does not lift its lock, every
      code entered on any of its claims is refused, none is counted and none is sent. */
  lemma {:induction false} CooldownHolds(s: State, cmds: seq<Command>, p: Pair, until: int)
    requires GuardOf(s, p).cooldownUntil == Some(until)
    requires forall i :: 0 <= i < |cmds| ==> Before(cmds[i], until) && !Lifts(Run(s, cmds[..i]), cmds[i], p)
    ensures Cooling(Run(s, cmds), p, until, Attempts(s, p), SendTimes(s.sends, p))
    ensures forall i :: 0 <= i < |cmds| ==> RefusesCode(Run(s, cmds[..i]), cmds[i], p)
    decreases |cmds|
  {
    hide Exec, Attempts, SendTimes, Before, Lifts, RefusesCode;
    if cmds != [] {
      var m := |cmds| - 1;
      forall i | 0 <= i < m ensures Before(cmds[..m][i], until) && !Lifts(Run(s, cmds[..m][..i]), cmds[..m][i], p) {
        assert cmds[..m][..i] == cmds[..i];
      }
      CooldownHolds(s, cmds[..m], p, until);
      forall i | 0 <= i < |cmds| ensures RefusesCode(Run(s, cmds[..i]), cmds[i], p) {
        if i < m {
          assert cmds[..m][..i] == cmds[..i] && cmds[..m][i] == cmds[i];
        } else {
          CoolingRefuses(Run(s, cmds[..m]), cmds[m], p, until);
        }
      }
      ExecCools(Run(s, cmds[..m]), cmds[m], p, until, Attempts(s, p), SendTimes(s.sends, p));
    }
  }

  /** The fifth wrong code of a pair, on any of its claims, kills that code and stops
      the pair for the next fifteen minutes of any run that does not lift its lock. */
  lemma FifthWrongCodeStops(s: State, c: nat, now: int, cmds: seq<Command>)
    requires c < |s.claims| && GuardOf(s, PairOf(s.claims[c])).wrongEntries == MAX_WRONG_ENTRIES - 1
    requires var t, p := WrongCode(s, c, now), PairOf(s.claims[c]);
      forall i :: 0 <= i < |cmds| ==> Before(cmds[i], now + 15 * 60) && !Lifts(Run(t, cmds[..i]), cmds[i], p)
    ensures var t, p := WrongCode(s, c, now), PairOf(s.claims[c]);
      && t.claims[c].code == None
      && Attempts(Run(t, cmds), p) == Attempts(s, p) + 1 && SendTimes(Run(t, cmds).sends, p) == SendTimes(s.sends, p)
      && forall i :: 0 <= i < |cmds| ==> RefusesCode(Run(t, cmds[..i]), cmds[i], p)
  {
    var t, p := WrongCode(s, c, now), PairOf(s.claims[c]);
    WrongCodeCounts(s, c, now, p);
    CooldownHolds(t, cmds, p, now + 15 * 60);
  }
}
