/** Who owns a listing, over every run of claim commands
    (directory/claim_review.py:254-259, 481-663, 731-767). */
module Ownership {
  import opened Prelude
  import opened Claims
  import opened ClaimRuns

  predicate Approves(claims: seq<Claim>, l: nat, c: int)
  {
    0 <= c < |claims| && claims[c].listing == l && claims[c].status == Approved
  }

  /** `c` is the one approved claim on `l`. */
  ghost predicate SoleApproval(claims: seq<Claim>, l: nat, c: int)
  {
    Approves(claims, l, c) && forall d :: Approves(claims, l, d) ==> d == c
  }

  ghost predicate NoApproval(claims: seq<Claim>, l: nat)
  {
    forall c :: !Approves(claims, l, c)
  }

  /** An unsuspended listing is claimed iff it has an owner iff exactly one claim
      on it is approved, and that claim is the owner's. */
  ghost predicate OwnerSettled(row: ListingRow, claims: seq<Claim>, l: nat)
  {
    match row.status
    case Suspended => NoApproval(claims, l)
    case Unclaimed => row.owner == None && NoApproval(claims, l)
    case Claimed => exists c :: SoleApproval(claims, l, c) && row.owner == Some(claims[c].claimant)
  }

  ghost predicate Settled(s: State)
  {
    && (forall l :: l in s.listings ==> OwnerSettled(s.listings[l], s.claims, l))
    && (forall c :: 0 <= c < |s.claims| ==> s.claims[c].listing in s.listings)
  }

  /** The same approvals stand on `l`. */
  ghost predicate SameApprovals(before: seq<Claim>, after: seq<Claim>, l: nat)
  {
    && (forall c :: Approves(after, l, c) <==> Approves(before, l, c))
    && (forall c :: Approves(before, l, c) && Approves(after, l, c) ==> after[c].claimant == before[c].claimant)
  }

  lemma SameApprovalsSettle(row: ListingRow, before: seq<Claim>, after: seq<Claim>, l: nat)
    requires OwnerSettled(row, before, l) && SameApprovals(before, after, l)
    ensures OwnerSettled(row, after, l)
  {
  }

  /** A write that approves and retires nothing, and keeps every claim's pair. */
  ghost predicate Quiet(s: State, t: State)
  {
    && t.listings == s.listings && |s.claims| <= |t.claims|
    && (forall c :: 0 <= c < |t.claims| ==> t.claims[c].listing in s.listings)
    && (forall c :: 0 <= c < |s.claims| ==> PairOf(t.claims[c]) == PairOf(s.claims[c]))
    && (forall c :: 0 <= c < |t.claims| ==>
          (t.claims[c].status == Approved <==> c < |s.claims| && s.claims[c].status == Approved))
  }

  lemma QuietSettles(s: State, t: State)
    requires Settled(s) && Quiet(s, t)
    ensures Settled(t)
  {
    forall l | l in t.listings ensures OwnerSettled(t.listings[l], t.claims, l) {
      assert SameApprovals(s.claims, t.claims, l);
      SameApprovalsSettle(s.listings[l], s.claims, t.claims, l);
    }
  }

  lemma StartedIsQuiet(s: State, c: nat, site: Site, now: int, code: string, ttl: int)
    requires Settled(s)
    ensures var r := Started(s, c, site, now, code, ttl); r.Ok? ==> Quiet(s, r.value)
  {
  }

  lemma DisputeIsQuiet(s: State, c: nat)
    requires Settled(s) && c < |s.claims| && s.claims[c].status != Approved
    ensures Quiet(s, DisputeRaised(s, c))
  {
  }

  lemma WrongCodeIsQuiet(s: State, c: nat, now: int)
    requires Settled(s) && c < |s.claims|
    ensures Quiet(s, WrongCode(s, c, now))
  {
  }

  lemma ProvenIsQuiet(s: State, c: nat, now: int)
    requires Settled(s) && c < |s.claims|
    ensures Quiet(s, Proven(s, c, now))
  {
  }

  /** After the approval only the winner is approved on its listing; no other
      listing's approvals move. */
  lemma ApprovedRows(claims: seq<Claim>, c: nat, manual: bool, now: int, skipped: set<nat>, l: nat)
    requires c < |claims|
    ensures var r := ClaimsAfterApproval(claims, c, manual, now, skipped);
      && (forall k :: 0 <= k < |r| ==> PairOf(r[k]) == PairOf(claims[k]))
      && if l == claims[c].listing then SoleApproval(r, l, c) else SameApprovals(claims, r, l)
  {
  }

  /** Whatever losers another transaction holds, an approval leaves exactly the
      winner approved on its listing and every other listing as it was. */
  lemma ApprovalSettles(s: State, c: nat, manual: bool, now: int, skipped: set<nat>)
    requires Settled(s) && c < |s.claims|
    ensures Settled(ApprovalGranted(s, c, manual, now, skipped))
  {
    var t := ApprovalGranted(s, c, manual, now, skipped);
    hide ClaimsAfterApproval, DisputeClosed;
    forall l | l in t.listings ensures OwnerSettled(t.listings[l], t.claims, l) {
      ApprovedRows(s.claims, c, manual, now, skipped, l);
      if l != s.claims[c].listing {
        SameApprovalsSettle(s.listings[l], s.claims, t.claims, l);
      }
    }
    ApprovedRows(s.claims, c, manual, now, skipped, s.claims[c].listing);
  }

  /** A sitting owner changes only by an operator's approval, with the transfer
      confirmed, of a disputed claim; the new owner is that claim's claimant. */
  ghost predicate LawfulTransfer(s: State, cmd: Command, l: nat, owner: Option<nat>)
  {
    && cmd.Approve? && cmd.allowed && cmd.transfer && cmd.claim < |s.claims|
    && s.claims[cmd.claim].status == Disputed && s.claims[cmd.claim].listing == l
    && owner == Some(s.claims[cmd.claim].claimant)
  }

  ghost predicate OwnersMoveLawfully(s: State, cmd: Command, t: State)
  {
    && t.listings.Keys == s.listings.Keys
    && forall l :: l in s.listings && s.listings[l].owner.Some? && t.listings[l].owner != s.listings[l].owner ==>
         LawfulTransfer(s, cmd, l, t.listings[l].owner)
  }

  lemma AddedIsQuiet(s: State, l: nat, user: nat, via: Method)
    requires Settled(s) && l in s.listings
    ensures Quiet(s, Added(s, l, user, via))
  {
  }

  lemma SubmitSettles(s: State, cmd: Command)
    requires Settled(s) && cmd.Submit? && Try(s, cmd).Ok?
    ensures Settled(Exec(s, cmd)) && OwnersMoveLawfully(s, cmd, Exec(s, cmd))
  {
    var added, begun := SubmitShape(s, cmd);
    var via :| added == Added(s, cmd.listing, cmd.user, via);
    hide Settled, Try, Exec, Started, Added;
    AddedIsQuiet(s, cmd.listing, cmd.user, via);
    QuietSettles(s, added);
    if begun != added {
      StartedIsQuiet(added, |s.claims|, cmd.site, cmd.now, cmd.code, cmd.ttl);
      QuietSettles(added, begun);
    }
    DisputeIsQuiet(begun, |s.claims|);
    QuietSettles(begun, DisputeRaised(begun, |s.claims|));
  }

  lemma UnclaimedHasNoOwner(s: State, l: nat)
    requires Settled(s) && l in s.listings && s.listings[l].status == Unclaimed
    ensures s.listings[l].owner.None?
  {
  }

  lemma VerifySettles(s: State, cmd: Command)
    requires Settled(s) && cmd.Verify? && Try(s, cmd).Ok?
    ensures Settled(Exec(s, cmd)) && OwnersMoveLawfully(s, cmd, Exec(s, cmd))
  {
    VerifyShape(s, cmd);
    hide Settled, Try, Exec, WrongCode, ClaimsAfterApproval;
    var c, proven := cmd.claim, Proven(s, cmd.claim, cmd.now);
    if Exec(s, cmd) == WrongCode(s, c, cmd.now) {
      WrongCodeIsQuiet(s, c, cmd.now);
      QuietSettles(s, Exec(s, cmd));
    } else {
      ProvenIsQuiet(s, c, cmd.now);
      QuietSettles(s, proven);
      if Exec(s, cmd) == DisputeRaised(proven, c) {
        DisputeIsQuiet(proven, c);
        QuietSettles(proven, Exec(s, cmd));
      } else if Exec(s, cmd) != proven {
        UnclaimedHasNoOwner(s, s.claims[c].listing);
        ApprovalSettles(proven, c, false, cmd.now, cmd.skipped);
      }
    }
  }

  lemma ApproveSettles(s: State, cmd: Command)
    requires Settled(s) && cmd.Approve? && Try(s, cmd).Ok?
    ensures Settled(Exec(s, cmd)) && OwnersMoveLawfully(s, cmd, Exec(s, cmd))
  {
    ApproveShape(s, cmd);
    hide Settled, Try, Exec, ClaimsAfterApproval;
    var c := cmd.claim;
    if Exec(s, cmd) == DisputeRaised(s, c) && s.claims[c].status == Pending {
      DisputeIsQuiet(s, c);
      QuietSettles(s, Exec(s, cmd));
    } else {
      if s.listings[s.claims[c].listing].status == Unclaimed {
        UnclaimedHasNoOwner(s, s.claims[c].listing);
      }
      ApprovalSettles(s, c, true, cmd.now, cmd.skipped);
    }
  }

  lemma ExecSettles(s: State, cmd: Command)
    requires Settled(s)
    ensures Settled(Exec(s, cmd))
    ensures OwnersMoveLawfully(s, cmd, Exec(s, cmd))
  {
    if Try(s, cmd).Ok? {
      match cmd
      case Submit(_, _, _, _, _, _, _, _, _) => SubmitSettles(s, cmd);
      case StartVerification(c, site, now, code, ttl) => StartedIsQuiet(s, c, site, now, code, ttl); QuietSettles(s, Exec(s, cmd));
      case Verify(_, _, _, _) => VerifySettles(s, cmd);
      case Approve(_, _, _, _, _) => ApproveSettles(s, cmd);
      case Reject(c, _, now) => assert Quiet(s, Exec(s, cmd)); QuietSettles(s, Exec(s, cmd));
      case DecideItem(i, kind, _) => assert Quiet(s, Exec(s, cmd)); QuietSettles(s, Exec(s, cmd));
    }
  }

  /** Ownership in every reachable state. */
  lemma {:induction false} OwnershipInvariant(s: State, cmds: seq<Command>)
    requires Initial(s)
    ensures Settled(Run(s, cmds))
    decreases |cmds|
  {
    if cmds != [] {
      OwnershipInvariant(s, cmds[..|cmds| - 1]);
      ExecSettles(Run(s, cmds[..|cmds| - 1]), cmds[|cmds| - 1]);
    }
  }

  /** At every step of every run, an owner leaves only by a lawful transfer. */
  lemma {:induction false} OwnersChangeOnlyByTransfer(s: State, cmds: seq<Command>, cmd: Command)
    requires Initial(s)
    ensures OwnersMoveLawfully(Run(s, cmds), cmd, Run(s, cmds + [cmd]))
  {
    OwnershipInvariant(s, cmds);
    assert (cmds + [cmd])[..|cmds|] == cmds;
    ExecSettles(Run(s, cmds), cmd);
  }
}
