/** What each claim command moves, column by column, and what a block stops over a
    whole run (directory/services.py:1393-1560, directory/claim_review.py:560-971). */
module ClaimMoves {
  import opened Prelude
  import opened Claims
  import opened ClaimRuns
  import opened CodeMeaning

  // --- when a command is let through -------------------------------------------------------

  lemma SubmitAdmitted(s: State, cmd: Command)
    requires cmd.Submit?
    ensures Try(s, cmd).Ok? <==>
      cmd.listing in s.listings && cmd.admissible && GuardOf(s, (cmd.listing, cmd.user)).blockedAt == None
  {
  }

  lemma DecisionAdmitted(s: State, cmd: Command)
    requires cmd.Approve? || cmd.Reject? || cmd.DecideItem?
    ensures cmd.Reject? ==> (Try(s, cmd).Ok? <==>
      cmd.allowed && cmd.claim < |s.claims| && s.claims[cmd.claim].status in {Pending, Disputed})
    ensures cmd.DecideItem? ==> (Try(s, cmd).Ok? <==>
      && cmd.allowed && cmd.item < |s.items| && s.items[cmd.item].decision == Undecided
      && s.items[cmd.item].kind == cmd.kind && cmd.kind in {LockItem, BlockItem})
    ensures cmd.Approve? ==> (Try(s, cmd).Ok? <==>
      && cmd.allowed && cmd.claim < |s.claims| && s.claims[cmd.claim].listing in s.listings
      && s.claims[cmd.claim].status in {Pending, Disputed}
      && var held := s.listings[s.claims[cmd.claim].listing].status;
         held == Unclaimed || (held == Claimed && (s.claims[cmd.claim].status == Pending || cmd.transfer)))
  {
  }

  // --- the guard, by column --------------------------------------------------------------

  predicate Rejects(s: State, cmd: Command, p: Pair)
  {
    cmd.Reject? && Try(s, cmd).Ok? && cmd.claim < |s.claims| && PairOf(s.claims[cmd.claim]) == p
  }

  predicate Lifts(s: State, cmd: Command, kind: ItemType, p: Pair)
  {
    cmd.DecideItem? && Try(s, cmd).Ok? && cmd.kind == kind && cmd.item < |s.items| && s.items[cmd.item].pair == p
  }

  /** A code of the pair that differs from the one its claim holds. */
  predicate Misses(s: State, cmd: Command, p: Pair)
  {
    && cmd.Verify? && Try(s, cmd).Ok? && cmd.claim < |s.claims| && PairOf(s.claims[cmd.claim]) == p
    && s.claims[cmd.claim].code != Some(cmd.entered)
  }

  /** The pair is blocked at its third rejection, and again at every later one after
      an unblock; nothing else counts a rejection or lifts a block. */
  lemma BlockColumns(s: State, cmd: Command, p: Pair)
    ensures var g, h := GuardOf(s, p), GuardOf(Exec(s, cmd), p);
      && h.rejections == g.rejections + (if Rejects(s, cmd, p) then 1 else 0)
      && h.blockedAt ==
         (if Lifts(s, cmd, BlockItem, p) then None
          else if Rejects(s, cmd, p) && g.rejections >= 2 && g.blockedAt == None then Some(cmd.now) else g.blockedAt)
  {
    if Try(s, cmd).Ok? {
      if cmd.Verify? {
        VerifyShape(s, cmd);
        hide Try, Exec, ClaimsAfterApproval, WithOpen;
      } else if cmd.Approve? {
        ApproveShape(s, cmd);
        hide Try, Exec, ClaimsAfterApproval;
      } else if cmd.Submit? {
        var added, begun := SubmitShape(s, cmd);
        hide Try, Exec, WithOpen;
      }
    }
  }

  /** An entry writes its own pair's guard, and only when it is wrong. */
  lemma EntryGuards(s: State, cmd: Command)
    requires cmd.Verify? && Try(s, cmd).Ok?
    ensures cmd.claim < |s.claims|
    ensures var p := PairOf(s.claims[cmd.claim]);
      Exec(s, cmd).guards ==
        if s.claims[cmd.claim].code == Some(cmd.entered) then s.guards else s.guards[p := WrongGuard(GuardOf(s, p), cmd.now)]
  {
    hide ClaimsAfterApproval, WithOpen, WrongGuard;
  }

  lemma LockUntouched(s: State, cmd: Command, p: Pair)
    requires !cmd.Verify? && !cmd.DecideItem? && Try(s, cmd).Ok?
    ensures var g, h := GuardOf(s, p), GuardOf(Exec(s, cmd), p);
      && h.wrongEntries == g.wrongEntries && h.cooldowns == g.cooldowns
      && h.cooldownUntil == g.cooldownUntil && h.lockedAt == g.lockedAt
  {
    if cmd.Approve? {
      ApproveShape(s, cmd);
      hide Try, Exec, ClaimsAfterApproval;
    } else if cmd.Submit? {
      var added, begun := SubmitShape(s, cmd);
      hide Try, Exec, WithOpen;
    }
  }

  /** Five wrong codes start a fifteen-minute cooldown, the third cooldown locks the
      pair, and only the operator's unlock clears them, all four together. */
  lemma LockColumns(s: State, cmd: Command, p: Pair)
    requires Mirrored(s)
    ensures var g, h := GuardOf(s, p), GuardOf(Exec(s, cmd), p);
      var fifth := Misses(s, cmd, p) && g.wrongEntries >= 4; var lifted := Lifts(s, cmd, LockItem, p);
      && h.wrongEntries ==
         (if fifth || lifted then 0 else if Misses(s, cmd, p) then g.wrongEntries + 1 else g.wrongEntries)
      && h.cooldowns == (if lifted then 0 else if fifth then g.cooldowns + 1 else g.cooldowns)
      && h.cooldownUntil == (if lifted then None else if fifth then Some(cmd.now + 900) else g.cooldownUntil)
      && h.lockedAt == (if lifted then None else if fifth && g.cooldowns >= 2 then Some(cmd.now) else g.lockedAt)
  {
    if Try(s, cmd).Ok? {
      if cmd.DecideItem? {
        QueueMirrors(s, cmd.item, cmd.kind);
      }
      hide Mirrored;
      if cmd.Verify? {
        EntryGuards(s, cmd);
        hide Try, Exec;
      } else if !cmd.DecideItem? {
        LockUntouched(s, cmd, p);
        hide Try, Exec;
      }
    }
  }

  // --- claims, by row ---------------------------------------------------------------------

  /** Submit adds one claim, of the submitting pair and unproven, and touches no other
      claim and no listing; a listing seen as claimed makes it a dispute at once. */
  lemma SubmitAdds(s: State, cmd: Command)
    requires cmd.Submit? && Try(s, cmd).Ok?
    ensures var t, g := Exec(s, cmd), GuardOf(s, (cmd.listing, cmd.user));
      && t.listings == s.listings && |t.claims| == |s.claims| + 1 && t.claims[..|s.claims|] == s.claims
      && var row := t.claims[|s.claims|];
      && row.listing == cmd.listing && row.claimant == cmd.user && row.attempts == 0
      && row.verifiedAt == None && row.decidedAt == None
      && row.status == (if cmd.seen == Claimed then Disputed else Pending)
      && row.via ==
         (if cmd.requested == DomainEmail
             && !(cmd.site.hasHost && cmd.site.mailAvailable && cmd.site.addressMatches && g.lockedAt == None)
          then Manual else cmd.requested)
  {
    var t := Exec(s, cmd);
    hide WithOpen;
    assert |t.claims| == |s.claims| + 1;
    assert forall k :: 0 <= k < |s.claims| ==> t.claims[k] == s.claims[k];
  }

  /** The operator's approval: a pending claim on a claimed listing becomes a dispute;
      otherwise the claim wins, the sitting approval is superseded, the other pending
      claims of the listing lose unless another transaction holds them, and the rest
      stay. */
  lemma ApproveMoves(s: State, cmd: Command, k: nat)
    requires cmd.Approve? && Try(s, cmd).Ok? && k < |s.claims|
    ensures cmd.claim < |s.claims| && s.claims[cmd.claim].listing in s.listings && |Exec(s, cmd).claims| == |s.claims|
    ensures var won, t := s.claims[cmd.claim], Exec(s, cmd);
      var disputed := won.status == Pending && s.listings[won.listing].status == Claimed; var was := s.claims[k].status;
      && t.listings == (if disputed then s.listings else s.listings[won.listing := ListingRow(Claimed, Some(won.claimant))])
      && t.claims[k].status ==
         (if k == cmd.claim then (if disputed then Disputed else Approved)
          else if disputed || s.claims[k].listing != won.listing then was
          else if was == Approved then Superseded
          else if was == Pending && k !in cmd.skipped then Rejected
          else was)
      && t.claims[k].verifiedAt == (if k == cmd.claim && !disputed then Some(cmd.now) else s.claims[k].verifiedAt)
      && t.claims[k].via == (if k == cmd.claim && !disputed then Manual else s.claims[k].via)
      && t.guards == s.guards && t.sends == s.sends
  {
    ApproveShape(s, cmd);
    hide Try, Exec, DisputeClosed, WithOpen;
  }

  lemma RejectMoves(s: State, cmd: Command, k: nat)
    requires cmd.Reject? && Try(s, cmd).Ok? && k < |s.claims|
    ensures var t := Exec(s, cmd);
      && t.listings == s.listings && |t.claims| == |s.claims|
      && t.claims[k] == (if k == cmd.claim then s.claims[k].(status := Rejected, decidedAt := Some(cmd.now), code := None)
                         else s.claims[k])
  {
  }

  /** A right code on an unclaimed listing rejects the other pending claims too. */
  lemma ProofMoves(s: State, cmd: Command, k: nat)
    requires cmd.Verify? && Try(s, cmd).Ok? && k < |s.claims| && k != cmd.claim
    ensures cmd.claim < |s.claims| && s.claims[cmd.claim].listing in s.listings && |Exec(s, cmd).claims| == |s.claims|
    ensures var won, t := s.claims[cmd.claim], Exec(s, cmd);
      var wins := won.code == Some(cmd.entered) && won.status == Pending && s.listings[won.listing].status == Unclaimed;
      t.claims[k].status ==
        (if !wins || s.claims[k].listing != won.listing then s.claims[k].status
         else if s.claims[k].status == Approved then Superseded
         else if s.claims[k].status == Pending && k !in cmd.skipped then Rejected
         else s.claims[k].status)
  {
    hide WithOpen;
  }

  // --- the queue, item by item --------------------------------------------------------------

  lemma {:induction false} SumOfTwo<T>(s: seq<T>, w: T -> int, i: nat, j: nat)
    requires (forall x :: w(x) >= 0) && i < j < |s|
    ensures Sum(s, w) >= w(s[i]) + w(s[j])
  {
    var n := |s| - 1;
    if j == n {
      SumBounds(s[..n], w, i);
    } else {
      SumOfTwo(s[..n], w, i, j);
    }
  }

  /** In a mirrored queue a subject has one open item at most. */
  lemma OneOpen(items: seq<Item>, k: Subject, i: nat, j: nat)
    requires OpenCount(items, k) <= 1 && i < |items| && j < |items| && Open(items[i], k) && Open(items[j], k)
    ensures i == j
  {
    if i < j {
      SumOfTwo(items, OpenWeight(k), i, j);
    } else if j < i {
      SumOfTwo(items, OpenWeight(k), j, i);
    }
  }

  /** The item is an open dispute of the claim. */
  predicate Disputes(i: Item, c: nat)
  {
    i.decision == Undecided && i.kind == DisputeItem && i.claim == c
  }

  lemma ClosingDecides(items: seq<Item>, c: nat, d: Decision, i: nat)
    requires OpenCount(items, DisputeOf(c)) <= 1 && i < |items|
    ensures |DisputeClosed(items, c, d)| == |items|
    ensures DisputeClosed(items, c, d)[i] == if Disputes(items[i], c) then items[i].(decision := d) else items[i]
  {
    var f := FirstOpen(items, DisputeOf(c), 0);
    if f < |items| && Disputes(items[i], c) {
      OneOpen(items, DisputeOf(c), f, i);
    }
  }

  /** What the operator's command decides on an open item, if anything. */
  function Decides(s: State, cmd: Command, i: nat): Decision
    requires i < |s.items|
  {
    if Try(s, cmd).Err? then Undecided
    else
      match cmd
      case Approve(c, _, _, _, _) => if Disputes(s.items[i], c) then DecidedApproved else Undecided
      case Reject(c, _, _) => if Disputes(s.items[i], c) then DecidedRejected else Undecided
      case DecideItem(j, kind, _) => if j == i then (if kind == LockItem then Unlocked else Unblocked) else Undecided
      case _ => Undecided
  }

  lemma MirroredDisputes(s: State, c: nat)
    requires Mirrored(s)
    ensures OpenCount(s.items, DisputeOf(c)) <= 1
    ensures c < |s.claims| && s.claims[c].status != Disputed ==> forall i :: 0 <= i < |s.items| ==> !Disputes(s.items[i], c)
  {
    assert OpenCount(s.items, DisputeOf(c)) == Expected(s.claims, s.guards, DisputeOf(c));
    if c < |s.claims| && s.claims[c].status != Disputed {
      NoneOpen(s.items, DisputeOf(c));
      assert forall i :: 0 <= i < |s.items| ==> !Open(s.items[i], DisputeOf(c));
    }
  }

  /** In a mirrored queue a command decides an approved or rejected claim's dispute and
      the item it names, each as itself, and touches no other item. */
  lemma ItemsKept(s: State, cmd: Command, i: nat)
    requires Mirrored(s) && i < |s.items|
    ensures i < |Exec(s, cmd).items|
    ensures Exec(s, cmd).items[i] ==
      if Decides(s, cmd, i) == Undecided then s.items[i] else s.items[i].(decision := Decides(s, cmd, i))
  {
    if Try(s, cmd).Ok? {
      if cmd.Approve? {
        ApproveShape(s, cmd);
        MirroredDisputes(s, cmd.claim);
        hide Mirrored, Try, OpenCount, FirstOpen, ClaimsAfterApproval, DisputeClosed;
        ClosingDecides(s.items, cmd.claim, DecidedApproved, i);
      } else if cmd.Reject? {
        MirroredDisputes(s, cmd.claim);
        hide Mirrored, OpenCount, FirstOpen, DisputeClosed;
        ClosingDecides(s.items, cmd.claim, DecidedRejected, i);
      } else if cmd.DecideItem? {
        QueueMirrors(s, cmd.item, cmd.kind);
        hide Mirrored;
      } else {
        hide Mirrored;
        VisitorKeepsItems(s, cmd, i);
      }
    }
  }

  lemma VisitorKeepsItems(s: State, cmd: Command, i: nat)
    requires i < |s.items| && Try(s, cmd).Ok? && (cmd.Submit? || cmd.StartVerification? || cmd.Verify?)
    ensures i < |Exec(s, cmd).items| && Exec(s, cmd).items[i] == s.items[i]
  {
    hide FirstOpen, ClaimsAfterApproval;
    if cmd.Verify? {
      VerifyShape(s, cmd);
      hide Try, Exec;
    } else if cmd.Submit? {
      var added, begun := SubmitShape(s, cmd);
      hide Try, Exec;
    }
  }

  /** The claim a command is about. */
  function Concerned(s: State, cmd: Command): nat
  {
    if cmd.Submit? then |s.claims| else if cmd.DecideItem? then 0 else cmd.claim
  }

  /** A new item is about the claim of the command and its pair: a dispute of a claim
      submitted, verified or approved, the lock of a wrong code, the block of a
      rejection. */
  lemma NewItemsConcern(s: State, cmd: Command)
    requires |Exec(s, cmd).items| > |s.items|
    ensures var t, c := Exec(s, cmd), Concerned(s, cmd);
      && |t.items| == |s.items| + 1 && c < |t.claims|
      && var x := t.items[|s.items|];
      && x.decision == Undecided && x.claim == c && x.pair == PairOf(t.claims[c])
      && x.kind == (if cmd.Reject? then BlockItem
                    else if cmd.Verify? && c < |s.claims| && s.claims[c].code != Some(cmd.entered) then LockItem
                    else DisputeItem)
  {
    hide FirstOpen;
    if cmd.Approve? {
      ApproveShape(s, cmd);
      hide Try, Exec, ClaimsAfterApproval;
    } else if cmd.Submit? {
      var added, begun := SubmitShape(s, cmd);
      SubmitAdds(s, cmd);
      hide Try, Exec;
    } else if cmd.Verify? {
      hide ClaimsAfterApproval;
    }
  }

  // --- what a block stops -----------------------------------------------------------------

  lemma VerifyKeepsPairs(s: State, cmd: Command)
    requires cmd.Verify? && Try(s, cmd).Ok?
    ensures |Exec(s, cmd).claims| == |s.claims|
    ensures forall k :: 0 <= k < |s.claims| ==> PairOf(Exec(s, cmd).claims[k]) == PairOf(s.claims[k])
  {
    VerifyShape(s, cmd);
    hide Try, Exec, WithOpen;
  }

  /** Old claims keep their pair; only an admitted submission adds one, of its own pair. */
  lemma PairsKept(s: State, cmd: Command)
    ensures var t := Exec(s, cmd);
      && |s.claims| <= |t.claims| <= |s.claims| + 1
      && (forall k :: 0 <= k < |s.claims| ==> PairOf(t.claims[k]) == PairOf(s.claims[k]))
      && (|t.claims| > |s.claims| ==>
            cmd.Submit? && Try(s, cmd).Ok? && PairOf(t.claims[|s.claims|]) == (cmd.listing, cmd.user))
  {
    if Try(s, cmd).Ok? {
      if cmd.Submit? {
        SubmitAdds(s, cmd);
      } else if cmd.Approve? {
        ApproveShape(s, cmd);
        hide Try, Exec, DisputeClosed, WithOpen;
      } else if cmd.Verify? {
        VerifyKeepsPairs(s, cmd);
        hide Try, Exec;
      } else {
        assert |Exec(s, cmd).claims| == |s.claims|;
      }
    }
  }

  /** How many claims the pair has. */
  function ClaimsOf(claims: seq<Claim>, p: Pair): int
  {
    Sum(claims, PairWeight(p))
  }

  function PairWeight(p: Pair): Claim -> int
  {
    r => if PairOf(r) == p then 1 else 0
  }

  lemma ExecClaims(s: State, cmd: Command, p: Pair)
    ensures ClaimsOf(Exec(s, cmd).claims, p) == ClaimsOf(s.claims, p)
      + if cmd.Submit? && Try(s, cmd).Ok? && p == (cmd.listing, cmd.user) then 1 else 0
  {
    PairsKept(s, cmd);
    var t, n := Exec(s, cmd), |s.claims|;
    SumCongruent(s.claims, t.claims[..n], PairWeight(p));
    if |t.claims| > n {
      assert t.claims == t.claims[..n] + [t.claims[n]];
      SumAppend(t.claims[..n], t.claims[n], PairWeight(p));
    } else {
      assert t.claims == t.claims[..n];
      if cmd.Submit? && Try(s, cmd).Ok? {
        SubmitAdds(s, cmd);
      }
    }
  }

  predicate RefusesSubmission(s: State, cmd: Command, p: Pair)
  {
    cmd.Submit? && p == (cmd.listing, cmd.user) ==> Try(s, cmd).Err?
  }

  /** In every run a blocked pair submits nothing until an operator unblocks it: each
      try is refused and the pair's claims stay as many as they were. */
  lemma {:induction false} BlockHolds(s: State, cmds: seq<Command>, p: Pair)
    requires GuardOf(s, p).blockedAt.Some?
    requires forall i :: 0 <= i < |cmds| ==> !Lifts(Run(s, cmds[..i]), cmds[i], BlockItem, p)
    ensures GuardOf(Run(s, cmds), p).blockedAt == GuardOf(s, p).blockedAt
    ensures ClaimsOf(Run(s, cmds).claims, p) == ClaimsOf(s.claims, p)
    ensures forall i :: 0 <= i < |cmds| ==> RefusesSubmission(Run(s, cmds[..i]), cmds[i], p)
    decreases |cmds|
  {
    hide Exec, Try, ClaimsOf, Lifts, RefusesSubmission;
    if cmds != [] {
      var m := |cmds| - 1;
      forall i | 0 <= i < m ensures !Lifts(Run(s, cmds[..m][..i]), cmds[..m][i], BlockItem, p) {
        assert cmds[..m][..i] == cmds[..i];
      }
      BlockHolds(s, cmds[..m], p);
      var t := Run(s, cmds[..m]);
      BlockedRefuses(t, cmds[m], p);
      BlockColumns(t, cmds[m], p);
      forall i | 0 <= i < |cmds| ensures RefusesSubmission(Run(s, cmds[..i]), cmds[i], p) {
        if i < m {
          assert cmds[..m][..i] == cmds[..i] && cmds[..m][i] == cmds[i];
        }
      }
    }
  }

  lemma BlockedRefuses(s: State, cmd: Command, p: Pair)
    requires GuardOf(s, p).blockedAt.Some?
    ensures RefusesSubmission(s, cmd, p) && ClaimsOf(Exec(s, cmd).claims, p) == ClaimsOf(s.claims, p)
  {
    ExecClaims(s, cmd, p);
    if cmd.Submit? {
      SubmitAdmitted(s, cmd);
    }
    hide Exec, Try;
  }

  /** How often an operator rejected a claim of the pair in a run. */
  function Rejections(s: State, cmds: seq<Command>, p: Pair): nat
    decreases |cmds|
  {
    if cmds == [] then 0
    else
      var m := |cmds| - 1;
      Rejections(s, cmds[..m], p) + if Rejects(Run(s, cmds[..m]), cmds[m], p) then 1 else 0
  }

  /** Claims lost to a winner do not count against the claimant: the guard counts the
      operator's rejections of the pair, and a blocked pair has at least three. */
  lemma {:induction false} RejectionsCounted(s: State, cmds: seq<Command>, p: Pair)
    requires Initial(s)
    ensures GuardOf(Run(s, cmds), p).rejections == Rejections(s, cmds, p)
    ensures GuardOf(Run(s, cmds), p).blockedAt.Some? ==> Rejections(s, cmds, p) >= 3
    decreases |cmds|
  {
    hide Exec, Rejects, Lifts;
    if cmds != [] {
      RejectionsCounted(s, cmds[..|cmds| - 1], p);
      BlockColumns(Run(s, cmds[..|cmds| - 1]), cmds[|cmds| - 1], p);
    }
  }
}
