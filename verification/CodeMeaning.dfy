/** What an entered code means: which text counts as right, what a right and a wrong
    entry do, and which code a claim accepts over a whole run
    (directory/services.py:1563-1628, 1697-1784, 1883-1946). */
module CodeMeaning {
  import opened Prelude
  import opened Claims
  import opened ClaimRuns
  import opened CodeLimits

  // --- one entry ----------------------------------------------------------------------

  /** The entry is looked at: the claim is open, unproven and verified by email, its
      pair is neither locked nor cooling, and it holds a code that has not expired. */
  predicate Answerable(s: State, c: nat, now: int)
  {
    && c < |s.claims| && s.claims[c].listing in s.listings
    && var row := s.claims[c]; var g := GuardOf(s, PairOf(row));
    && row.status in {Pending, Disputed} && row.via == DomainEmail && row.verifiedAt == None
    && g.lockedAt == None && (g.cooldownUntil.Some? ==> g.cooldownUntil.value <= now)
    && row.code.Some? && (row.expiresAt.Some? ==> now < row.expiresAt.value)
  }

  /** No other claim, no listing and no item moves. */
  predicate OnlyClaim(s: State, t: State, c: nat)
  {
    && t.listings == s.listings && |t.claims| == |s.claims|
    && forall k :: 0 <= k < |s.claims| && k != c ==> t.claims[k] == s.claims[k]
  }

  lemma RefusedUnlessAnswerable(s: State, c: nat, entered: string, now: int, skipped: set<nat>)
    ensures Try(s, Verify(c, entered, now, skipped)).Ok? <==> Answerable(s, c, now)
    ensures !Answerable(s, c, now) ==> Exec(s, Verify(c, entered, now, skipped)) == s
  {
  }

  /** A wrong entry only counts: it proves nothing, decides nothing and gives no one
      the listing. */
  lemma WrongEntryCounts(s: State, c: nat, entered: string, now: int, skipped: set<nat>)
    requires Answerable(s, c, now) && s.claims[c].code != Some(entered)
    ensures var t := Exec(s, Verify(c, entered, now, skipped));
      && OnlyClaim(s, t, c)
      && t.claims[c].attempts == s.claims[c].attempts + 1
      && t.claims[c].verifiedAt == None && t.claims[c].status == s.claims[c].status
      && (t.claims[c].code == None || t.claims[c].code == s.claims[c].code)
      && t.sends == s.sends
  {
  }

  /** The right entry proves the claim and uses up the code; what follows depends on
      the dispute and on the listing. */
  lemma RightEntryProves(s: State, c: nat, entered: string, now: int, skipped: set<nat>)
    requires Answerable(s, c, now) && s.claims[c].code == Some(entered)
    ensures var t, row := Exec(s, Verify(c, entered, now, skipped)), s.claims[c]; var was := s.listings[row.listing].status;
      && |t.claims| == |s.claims| && t.guards == s.guards && t.sends == s.sends
      && t.claims[c].attempts == row.attempts && t.claims[c].via == row.via
      && t.claims[c].verifiedAt == Some(now) && t.claims[c].code == None
      && t.claims[c].status ==
         (if row.status == Disputed || was == Claimed then Disputed else if was == Unclaimed then Approved else Pending)
      && t.listings ==
         (if row.status == Pending && was == Unclaimed
          then s.listings[row.listing := ListingRow(Claimed, Some(row.claimant))] else s.listings)
  {
  }

  /** An entry is right exactly when it equals the code the claim holds: that alone
      decides between proving the claim and counting a wrong attempt. */
  lemma EntryDecides(s: State, c: nat, entered: string, now: int, skipped: set<nat>)
    requires Try(s, Verify(c, entered, now, skipped)).Ok?
    ensures c < |s.claims| && |Exec(s, Verify(c, entered, now, skipped)).claims| == |s.claims|
    ensures var row, after := s.claims[c], Exec(s, Verify(c, entered, now, skipped)).claims[c];
      && (after.verifiedAt.Some? <==> row.code == Some(entered))
      && (after.status != row.status ==> row.code == Some(entered))
      && (after.attempts == row.attempts + 1 <==> row.code != Some(entered))
      && (after.attempts == row.attempts <==> row.code == Some(entered))
  {
    RefusedUnlessAnswerable(s, c, entered, now, skipped);
    hide Try, Exec;
    if s.claims[c].code == Some(entered) {
      RightEntryProves(s, c, entered, now, skipped);
    } else {
      WrongEntryCounts(s, c, entered, now, skipped);
    }
  }

  // --- the code a claim holds is the one last sent for it ---------------------------------

  /** The last send for a claim. */
  function LastSend(sends: seq<Send>, c: nat): Option<Send>
  {
    if sends == [] then None
    else if sends[|sends| - 1].claim == c then Some(sends[|sends| - 1])
    else LastSend(sends[..|sends| - 1], c)
  }

  /** A held code is the last one sent for the claim, with that send's deadline. */
  predicate HoldsLast(r: Claim, c: nat, sends: seq<Send>)
  {
    r.code.Some? ==>
      var x := LastSend(sends, c);
      x.Some? && x.value.code == r.code.value && r.expiresAt == Some(x.value.until) && x.value.pair == PairOf(r)
  }

  ghost predicate AllHoldLast(s: State)
  {
    forall c :: 0 <= c < |s.claims| ==> HoldsLast(s.claims[c], c, s.sends)
  }

  /** A row that keeps its pair, its code and its deadline, or has lost its code. */
  predicate NoNewCode(before: Claim, after: Claim)
  {
    after.code == None || (after.code == before.code && after.expiresAt == before.expiresAt && PairOf(after) == PairOf(before))
  }

  ghost predicate OnlyOldCodes(s: State, t: State)
  {
    && t.sends == s.sends && |s.claims| <= |t.claims|
    && (forall c :: 0 <= c < |s.claims| ==> NoNewCode(s.claims[c], t.claims[c]))
    && (forall c :: |s.claims| <= c < |t.claims| ==> t.claims[c].code == None)
  }

  lemma OldCodesHold(s: State, t: State)
    requires AllHoldLast(s) && OnlyOldCodes(s, t)
    ensures AllHoldLast(t)
  {
    forall c | 0 <= c < |t.claims| ensures HoldsLast(t.claims[c], c, t.sends) {
      if c < |s.claims| {
        assert HoldsLast(s.claims[c], c, s.sends);
      }
    }
  }

  lemma CodeSentHolds(s: State, c: nat, start: int, sent: nat, now: int, code: string, ttl: int)
    requires AllHoldLast(s) && c < |s.claims|
    ensures AllHoldLast(CodeSent(s, c, start, sent, now, code, ttl))
  {
    var t := CodeSent(s, c, start, sent, now, code, ttl);
    assert t.sends[..|t.sends| - 1] == s.sends;
    forall k | 0 <= k < |t.claims| ensures HoldsLast(t.claims[k], k, t.sends) {
      assert HoldsLast(s.claims[k], k, s.sends);
    }
  }

  lemma StartedHolds(s: State, c: nat, site: Site, now: int, code: string, ttl: int)
    requires AllHoldLast(s)
    ensures var r := Started(s, c, site, now, code, ttl); r.Ok? ==> AllHoldLast(r.value)
  {
    var r := Started(s, c, site, now, code, ttl);
    if r.Ok? {
      var send := CheckSend(GuardOf(s, PairOf(s.claims[c])), now);
      if send.MaySend? {
        CodeSentHolds(s, c, send.windowStart, send.sentInWindow, now, code, ttl);
      }
      if r.value.sends == s.sends {
        OldCodesHold(s, r.value);
      }
    }
  }

  lemma ApprovalNoNewCode(claims: seq<Claim>, c: nat, manual: bool, now: int, skipped: set<nat>, k: nat)
    requires c < |claims| && k < |claims|
    ensures NoNewCode(claims[k], ClaimsAfterApproval(claims, c, manual, now, skipped)[k])
  {
  }

  lemma ApprovalOldCodes(s: State, c: nat, manual: bool, now: int, skipped: set<nat>)
    requires c < |s.claims|
    ensures OnlyOldCodes(s, ApprovalGranted(s, c, manual, now, skipped))
  {
    hide ClaimsAfterApproval, NoNewCode;
    forall k | 0 <= k < |s.claims|
      ensures NoNewCode(s.claims[k], ApprovalGranted(s, c, manual, now, skipped).claims[k])
    {
      ApprovalNoNewCode(s.claims, c, manual, now, skipped, k);
    }
  }

  lemma VerifyOldCodes(s: State, cmd: Command)
    requires cmd.Verify? && Try(s, cmd).Ok?
    ensures OnlyOldCodes(s, Exec(s, cmd))
  {
    VerifyShape(s, cmd);
    var proven := Proven(s, cmd.claim, cmd.now);
    hide Try, Exec, ClaimsAfterApproval;
    ApprovalOldCodes(proven, cmd.claim, false, cmd.now, cmd.skipped);
  }

  lemma SubmitHolds(s: State, cmd: Command)
    requires AllHoldLast(s) && cmd.Submit? && Try(s, cmd).Ok?
    ensures AllHoldLast(Exec(s, cmd))
  {
    var added, begun := SubmitShape(s, cmd);
    hide Try, Exec, Started, AllHoldLast;
    OldCodesHold(s, added);
    StartedHolds(added, |s.claims|, cmd.site, cmd.now, cmd.code, cmd.ttl);
    OldCodesHold(begun, DisputeRaised(begun, |s.claims|));
  }

  lemma ExecHoldsLast(s: State, cmd: Command)
    requires AllHoldLast(s)
    ensures AllHoldLast(Exec(s, cmd))
  {
    if Try(s, cmd).Ok? {
      match cmd
      case Submit(_, _, _, _, _, _, _, _, _) => SubmitHolds(s, cmd);
      case StartVerification(c, site, now, code, ttl) => StartedHolds(s, c, site, now, code, ttl);
      case Verify(_, _, _, _) =>
        VerifyOldCodes(s, cmd);
        OldCodesHold(s, Exec(s, cmd));
      case Approve(c, _, _, now, skipped) =>
        ApproveShape(s, cmd);
        hide Try, Exec, AllHoldLast, ClaimsAfterApproval;
        ApprovalOldCodes(s, c, true, now, skipped);
        OldCodesHold(s, Exec(s, cmd));
      case _ =>
        hide AllHoldLast;
        OldCodesHold(s, Exec(s, cmd));
    }
  }

  /** In every run the code a claim holds is the last one sent for it. */
  lemma {:induction false} HeldCodeIsLastSent(s: State, cmds: seq<Command>)
    requires Initial(s)
    ensures AllHoldLast(Run(s, cmds))
    decreases |cmds|
  {
    hide Exec;
    if cmds != [] {
      HeldCodeIsLastSent(s, cmds[..|cmds| - 1]);
      ExecHoldsLast(Run(s, cmds[..|cmds| - 1]), cmds[|cmds| - 1]);
    }
  }

  /** Over every run, an entry that proves a claim, and with it any listing that gets
      an owner, is the text of the last send for that claim, entered before that send
      expires, and the owner is the claimant it was sent for. */
  lemma OwnersProveTheLastCode(s: State, cmds: seq<Command>, c: nat, entered: string, now: int, skipped: set<nat>)
    requires Initial(s)
    ensures var t := Run(s, cmds); var u := Exec(t, Verify(c, entered, now, skipped)); var x := LastSend(t.sends, c);
      u.listings != t.listings ==>
        && x.Some? && entered == x.value.code && now < x.value.until
        && u.listings == t.listings[x.value.pair.0 := ListingRow(Claimed, Some(x.value.pair.1))]
    ensures var t := Run(s, cmds); var x := LastSend(t.sends, c);
      Answerable(t, c, now) ==>
        && x.Some? && now < x.value.until
        && |Exec(t, Verify(c, entered, now, skipped)).claims| == |t.claims|
        && (Exec(t, Verify(c, entered, now, skipped)).claims[c].verifiedAt.Some? <==> entered == x.value.code)
  {
    var t := Run(s, cmds);
    HeldCodeIsLastSent(s, cmds);
    RefusedUnlessAnswerable(t, c, entered, now, skipped);
    hide Run, Try, Exec, LastSend;
    if Answerable(t, c, now) {
      assert HoldsLast(t.claims[c], c, t.sends);
      if t.claims[c].code == Some(entered) {
        RightEntryProves(t, c, entered, now, skipped);
      } else {
        WrongEntryCounts(t, c, entered, now, skipped);
      }
    }
  }

  // --- which commands send, and when ------------------------------------------------------

  /** A send carries its command's code, claim and deadline; no other command sends. */
  lemma SendsComeFromCommands(s: State, cmd: Command)
    ensures var t := Exec(s, cmd);
      || t.sends == s.sends
      || (&& cmd.StartVerification? && cmd.claim < |s.claims|
          && t.sends == s.sends + [Send(PairOf(s.claims[cmd.claim]), cmd.now, cmd.claim, cmd.code, cmd.now + cmd.ttl)])
      || (&& cmd.Submit?
          && t.sends == s.sends + [Send((cmd.listing, cmd.user), cmd.now, |s.claims|, cmd.code, cmd.now + cmd.ttl)])
  {
    if Try(s, cmd).Ok? {
      if cmd.Submit? {
        var added, begun := SubmitShape(s, cmd);
        hide Try, Exec;
      } else if cmd.Verify? {
        VerifyOldCodes(s, cmd);
      } else if cmd.Approve? {
        ApproveShape(s, cmd);
        hide Try, Exec, ClaimsAfterApproval;
      }
    }
  }

  /** A start may send: the claim waits for a code and the site can take one. */
  predicate WaitsForCode(s: State, c: nat, site: Site)
  {
    && c < |s.claims| && s.claims[c].status in {Pending, Disputed} && s.claims[c].via == DomainEmail
    && s.claims[c].verifiedAt == None
    && site.hasHost && site.mailAvailable && site.addressMatches
  }

  /** Nothing paces the pair down: it does not cool, its last send is a minute old,
      and of its last five sends the first is a day old. */
  predicate Rested(g: Guard, sent: seq<int>, now: int)
  {
    && g.lockedAt == None && (g.cooldownUntil.Some? ==> g.cooldownUntil.value <= now)
    && (sent != [] ==> now - sent[|sent| - 1] >= 60)
    && (|sent| >= 5 ==> now - sent[|sent| - 5] >= 24 * 3600)
  }

  lemma RestedMaySend(g: Guard, sent: seq<int>, now: int)
    requires Paced(g, sent) && Rested(g, sent, now)
    ensures CheckSend(g, now).MaySend?
  {
    if sent != [] && g.sentInWindow == 5 {
      assert g.windowStart == Some(sent[|sent| - 5]);
    }
  }

  /** The limits refuse no one else: in every run a rested pair that starts
      verification is sent the code, and the claim holds it. */
  lemma RestedPairIsSent(s: State, cmds: seq<Command>, c: nat, site: Site, now: int, code: string, ttl: int)
    requires Initial(s)
    ensures var t := Run(s, cmds); var u := Exec(t, StartVerification(c, site, now, code, ttl));
      WaitsForCode(t, c, site)
      && Rested(GuardOf(t, PairOf(t.claims[c])), SendTimes(t.sends, PairOf(t.claims[c])), now) ==>
        && u.sends == t.sends + [Send(PairOf(t.claims[c]), now, c, code, now + ttl)]
        && |u.claims| == |t.claims| && u.claims[c].code == Some(code) && u.claims[c].expiresAt == Some(now + ttl)
  {
    var t := Run(s, cmds);
    SendsArePaced(s, cmds);
    hide Run;
    if c < |t.claims| {
      var p := PairOf(t.claims[c]);
      assert Paced(GuardOf(t, p), SendTimes(t.sends, p));
      hide Paced, AllPaced, SendTimes;
      if Rested(GuardOf(t, p), SendTimes(t.sends, p), now) {
        RestedMaySend(GuardOf(t, p), SendTimes(t.sends, p), now);
      }
      hide CheckSend, Rested;
    }
  }

  /** The submission's new claim is sent the command's code. */
  predicate SendsAtOnce(t: State, cmd: Command, u: State)
    requires cmd.Submit?
  {
    var p, c := (cmd.listing, cmd.user), |t.claims|;
    && u.sends == t.sends + [Send(p, cmd.now, c, cmd.code, cmd.now + cmd.ttl)]
    && |u.claims| == c + 1 && u.claims[c].code == Some(cmd.code) && u.claims[c].expiresAt == Some(cmd.now + cmd.ttl)
  }

  lemma SubmissionSends(t: State, cmd: Command)
    requires cmd.Submit? && Try(t, cmd).Ok? && cmd.requested == DomainEmail
    requires cmd.site.hasHost && cmd.site.mailAvailable && cmd.site.addressMatches
    requires var g := GuardOf(t, (cmd.listing, cmd.user)); g.lockedAt == None && CheckSend(g, cmd.now).MaySend?
    ensures SendsAtOnce(t, cmd, Exec(t, cmd))
  {
    hide CheckSend, WithOpen;
    var added := Added(t, cmd.listing, cmd.user, DomainEmail);
    assert GuardOf(added, (cmd.listing, cmd.user)) == GuardOf(t, (cmd.listing, cmd.user));
    var begun := Begun(added, |t.claims|, cmd.site, cmd.now, cmd.code, cmd.ttl);
    assert SendsAtOnce(t, cmd, begun);
    assert Exec(t, cmd) == begun || Exec(t, cmd) == DisputeRaised(begun, |t.claims|);
    hide Exec, Try, Begun;
  }

  /** The same at the submission itself: a rested pair that asks for a code is sent it
      for the claim it has just made. */
  lemma RestedSubmissionIsSent(s: State, cmds: seq<Command>, cmd: Command)
    requires Initial(s) && cmd.Submit? && cmd.requested == DomainEmail
    requires cmd.site.hasHost && cmd.site.mailAvailable && cmd.site.addressMatches
    ensures var t, p := Run(s, cmds), (cmd.listing, cmd.user);
      Try(t, cmd).Ok? && Rested(GuardOf(t, p), SendTimes(t.sends, p), cmd.now) ==> SendsAtOnce(t, cmd, Exec(t, cmd))
  {
    hide Run, Paced, SendTimes, Try, Exec, SendsAtOnce, CheckSend;
    var t, p := Run(s, cmds), (cmd.listing, cmd.user);
    SendsArePaced(s, cmds);
    assert Paced(GuardOf(t, p), SendTimes(t.sends, p));
    if Try(t, cmd).Ok? && Rested(GuardOf(t, p), SendTimes(t.sends, p), cmd.now) {
      RestedMaySend(GuardOf(t, p), SendTimes(t.sends, p), cmd.now);
      SubmissionSends(t, cmd);
    }
  }

  /** A start is let through for an open, unproven claim by email. Where the site cannot
      take a code, or the pair is locked, the claim falls back to manual review; a pair
      that is paced down changes nothing. */
  lemma StartOtherwise(s: State, cmd: Command)
    requires cmd.StartVerification?
    ensures Try(s, cmd).Ok? <==>
      && cmd.claim < |s.claims| && s.claims[cmd.claim].status in {Pending, Disputed}
      && s.claims[cmd.claim].via == DomainEmail && s.claims[cmd.claim].verifiedAt == None
    ensures Try(s, cmd).Ok? ==>
      var row, site := s.claims[cmd.claim], cmd.site;
      var eligible := site.hasHost && site.mailAvailable && site.addressMatches && GuardOf(s, PairOf(row)).lockedAt == None;
      if eligible then Exec(s, cmd).sends == s.sends ==> Exec(s, cmd) == s
      else Exec(s, cmd) == s.(claims := s.claims[cmd.claim := row.(via := Manual, code := None)])
  {
    hide CheckSend;
  }

  /** The code of every send in a run was given by one of its commands, at that time. */
  ghost predicate GivenBy(x: Send, cmds: seq<Command>)
  {
    exists i :: 0 <= i < |cmds| && Gives(cmds[i], x)
  }

  predicate Gives(cmd: Command, x: Send)
  {
    match cmd
    case StartVerification(c, _, now, code, ttl) => x.claim == c && x.at == now && x.code == code && x.until == now + ttl
    case Submit(l, u, _, _, _, _, now, code, ttl) => x.pair == (l, u) && x.at == now && x.code == code && x.until == now + ttl
    case _ => false
  }

  lemma {:induction false} EverySendWasCommanded(s: State, cmds: seq<Command>, i: nat)
    requires Initial(s) && i < |Run(s, cmds).sends|
    ensures GivenBy(Run(s, cmds).sends[i], cmds)
    decreases |cmds|
  {
    hide Exec, Gives;
    if cmds != [] {
      var m := |cmds| - 1;
      var t := Run(s, cmds[..m]);
      SendsComeFromCommands(t, cmds[m]);
      if i < |t.sends| {
        EverySendWasCommanded(s, cmds[..m], i);
        var j :| 0 <= j < m && Gives(cmds[..m][j], t.sends[i]);
        assert Gives(cmds[j], Run(s, cmds).sends[i]);
      } else {
        GivenNow(t, cmds[m], Run(s, cmds).sends[i]);
      }
    }
  }

  lemma GivenNow(s: State, cmd: Command, x: Send)
    requires |Exec(s, cmd).sends| > |s.sends| && x == Exec(s, cmd).sends[|s.sends|]
    ensures Gives(cmd, x)
  {
    SendsComeFromCommands(s, cmd);
    hide Exec;
  }
}
