/** The tenant's billing tables and `apply_trigger`, the one transaction that
    moves an entitlement (billing/entitlements.py:314-399). */
module Billing {
  import opened Prelude
  import opened Machine
  import opened Entitlements

  datatype Visibility = Draft | Published | Hidden

  /** The listing columns billing reads and writes. */
  datatype ListingRow = ListingRow(currentTier: Option<Tier>, visibility: Visibility)

  datatype AttemptStatus = AttemptStarted | AttemptCompleted | AttemptFailed

  datatype Attempt = Attempt(listing: nat, tier: Tier, status: AttemptStatus, externalRef: string)

  datatype ReceiptOutcome = ReceiptApplied | ReceiptIgnored

  datatype Event =
    | Lifecycle(listing: nat, name: EventName)
    | TierChanged(listing: nat, fromTier: Option<string>, toTier: Option<string>, at: int, cause: string)
    | ListingPublished(listing: nat)
    | ListingUnpublished(listing: nat)
    | Money(listing: nat, what: string)

  /** An adapter id and an event id. */
  type Key = (string, string)

  datatype Tables = Tables(
    ents: map<nat, Ent>,
    listings: map<nat, ListingRow>,
    events: seq<Event>,
    attempts: map<nat, Attempt>,
    receipts: map<Key, ReceiptOutcome>,
    appliedLog: set<Key>,
    ranks: map<Tier, nat>)

  // --- the effective tier ----------------------------------------------------

  function EffectiveTier(e: Ent, rank0: Option<Tier>): Option<Tier>
  {
    if IsPerk(e.status) then Some(e.tier) else rank0
  }

  function TierKey(t: Option<Tier>): Option<string>
  {
    if t.Some? then Some(t.value.key) else None
  }

  /** The rank the tier has at the moment; ranks may be edited, keys may not. */
  function RankOf(ranks: map<Tier, nat>, t: Tier): nat
  {
    if t in ranks then ranks[t] else 0
  }

  function TierCause(ranks: map<Tier, nat>, rule: Rule, prior: Option<Tier>, target: Option<Tier>): string
  {
    if rule.tierCause in {"", "upgrade"} then
      if target.Some? && (prior.None? || RankOf(ranks, target.value) >= RankOf(ranks, prior.value))
      then "upgrade" else "downgrade"
    else rule.tierCause
  }

  // --- one trigger, as a function of the tables -------------------------------

  function NewRow(tier: Tier): Ent
  {
    Ent(tier, NoStatus, NoMode, None, None, None, None, None, None, None, 0, "", false, None, "", None,
        false, None, "", None, map[])
  }

  /** The row the transaction works on: the stored one, or the one a first start,
      grant or override creates. */
  function CurrentRow(tb: Tables, l: nat, t: Trigger, p: Params): Result<Ent, Refusal>
  {
    if l in tb.ents then Ok(tb.ents[l])
    else if t !in {Start, StartTrial, Grant, Override} then Err(InvalidTransition)
    else if p.tier.None? then Err(BadParameters)
    else Ok(NewRow(p.tier.value))
  }

  /** The rule, then the due condition, then the column changes. */
  function Moved(e: Ent, t: Trigger, now: int, p: Params): Result<Ent, Refusal>
  {
    var rule := RuleFor(e.status, t);
    if rule.None? then Err(InvalidTransition)
    else if IsClock(t) && !IsDue(e, t, now) then Err(NotDue)
    else
      var m := Mutated(e, t, rule.value.to, now, p);
      if m.None? then Err(BadParameters) else Ok(m.value)
  }

  predicate HidesNow(e: Ent, v: Visibility, rank0: Option<Tier>)
  {
    e.status == Expired && rank0.None? && v == Published
  }

  /** The branch that clears the flag; it also republishes a hidden listing. */
  predicate Unflags(e: Ent, rank0: Option<Tier>)
  {
    !(e.status == Expired && rank0.None?) && e.hiddenByExpiry && IsPerk(e.status)
  }

  function FlagAfter(e: Ent, v: Visibility, rank0: Option<Tier>): Ent
  {
    if HidesNow(e, v, rank0) then e.(hiddenByExpiry := true)
    else if Unflags(e, rank0) then e.(hiddenByExpiry := false)
    else e
  }

  function VisibilityAfter(e: Ent, v: Visibility, rank0: Option<Tier>): Visibility
  {
    if HidesNow(e, v, rank0) then Hidden
    else if Unflags(e, rank0) && v == Hidden then Published
    else v
  }

  function LifecycleEvents(l: nat, names: seq<EventName>): seq<Event>
  {
    seq(|names|, i requires 0 <= i < |names| => Lifecycle(l, names[i]))
  }

  function TierEvents(l: nat, before: Option<Tier>, after: Option<Tier>, now: int, cause: string): seq<Event>
  {
    if before == after then [] else [TierChanged(l, TierKey(before), TierKey(after), now, cause)]
  }

  function VisibilityEvents(l: nat, before: Visibility, after: Visibility): seq<Event>
  {
    if before == after then []
    else if after == Published then [ListingPublished(l)]
    else if before == Published then [ListingUnpublished(l)]
    else []
  }

  /** `apply_trigger`: the tables after the commit, or why nothing was written. */
  function Applied(tb: Tables, l: nat, t: Trigger, now: int, p: Params, rank0: Option<Tier>)
    : Result<Tables, Refusal>
  {
    if l !in tb.listings then Err(NoListing) else
    var row := CurrentRow(tb, l, t, p);
    if row.Err? then Err(row.error) else
    var moved := Moved(row.value, t, now, p);
    if moved.Err? then Err(moved.error) else
    Ok(Written(tb, l, row.value.status, t, now, moved.value, rank0))
  }

  function Written(tb: Tables, l: nat, prior: Status, t: Trigger, now: int, e: Ent, rank0: Option<Tier>): Tables
    requires l in tb.listings && RuleFor(prior, t).Some?
  {
    var rule := RuleFor(prior, t).value;
    var before := tb.listings[l];
    var target := EffectiveTier(e, rank0);
    var visibility := VisibilityAfter(e, before.visibility, rank0);
    tb.(ents := tb.ents[l := FlagAfter(e, before.visibility, rank0)],
        listings := tb.listings[l := ListingRow(target, visibility)],
        events := tb.events + LifecycleEvents(l, rule.events)
                  + TierEvents(l, before.currentTier, target, now, TierCause(tb.ranks, rule, before.currentTier, target))
                  + VisibilityEvents(l, before.visibility, visibility))
  }

  /** A refused trigger leaves the tables alone. */
  function After(tb: Tables, l: nat, t: Trigger, now: int, p: Params, rank0: Option<Tier>): Tables
  {
    var r := Applied(tb, l, t, now, p, rank0);
    if r.Ok? then r.value else tb
  }

  // --- the same transaction, on the mutable store -----------------------------

  class Store {
    var ents: map<nat, Ent>
    var listings: map<nat, ListingRow>
    var events: seq<Event>
    var attempts: map<nat, Attempt>
    var receipts: map<Key, ReceiptOutcome>
    var appliedLog: set<Key>
    var ranks: map<Tier, nat>

    function State(): Tables
      reads this
    {
      Tables(ents, listings, events, attempts, receipts, appliedLog, ranks)
    }

    constructor (tb: Tables)
      ensures State() == tb
    {
      ents, listings, events := tb.ents, tb.listings, tb.events;
      attempts, receipts, appliedLog, ranks := tb.attempts, tb.receipts, tb.appliedLog, tb.ranks;
    }

    /** `_set_tier`: the only write to a listing's current tier. */
    method SetTier(l: nat, tier: Option<Tier>, cause: string, now: int) returns (changed: bool)
      requires l in listings
      modifies `listings, `events
      ensures changed == (old(listings[l].currentTier) != tier)
      ensures listings == old(listings)[l := old(listings[l]).(currentTier := tier)]
      ensures events == old(events) + TierEvents(l, old(listings[l].currentTier), tier, now, cause)
    {
      var before := listings[l].currentTier;
      if before == tier {
        assert listings == listings[l := listings[l].(currentTier := tier)];
        return false;
      }
      listings := listings[l := listings[l].(currentTier := tier)];
      events := events + [TierChanged(l, TierKey(before), TierKey(tier), now, cause)];
      return true;
    }

    /** `set_listing_visibility`, with the event a publication boundary needs. */
    method SetVisibility(l: nat, v: Visibility)
      requires l in listings
      modifies `listings, `events
      ensures listings == old(listings)[l := old(listings[l]).(visibility := v)]
      ensures events == old(events) + VisibilityEvents(l, old(listings[l].visibility), v)
    {
      var before := listings[l].visibility;
      if before == v {
        assert listings == listings[l := listings[l].(visibility := v)];
        return;
      }
      listings := listings[l := listings[l].(visibility := v)];
      if v == Published {
        events := events + [ListingPublished(l)];
      } else if before == Published {
        events := events + [ListingUnpublished(l)];
      }
    }

    /** `_visibility_after`. */
    method AdjustVisibility(l: nat, rank0: Option<Tier>)
      requires l in listings && l in ents
      modifies `listings, `events, `ents
      ensures ents == old(ents)[l := FlagAfter(old(ents[l]), old(listings[l].visibility), rank0)]
      ensures listings == old(listings)[l := old(listings[l]).(
                visibility := VisibilityAfter(old(ents[l]), old(listings[l].visibility), rank0))]
      ensures events == old(events) + VisibilityEvents(l, old(listings[l].visibility),
                VisibilityAfter(old(ents[l]), old(listings[l].visibility), rank0))
    {
      var e := ents[l];
      assert ents == ents[l := e] && listings == listings[l := listings[l].(visibility := listings[l].visibility)];
      if e.status == Expired && rank0.None? {
        if listings[l].visibility == Published {
          SetVisibility(l, Hidden);
          ents := ents[l := e.(hiddenByExpiry := true)];
        }
      } else if e.hiddenByExpiry && IsPerk(e.status) {
        if listings[l].visibility == Hidden {
          SetVisibility(l, Published);
        }
        ents := ents[l := e.(hiddenByExpiry := false)];
      }
    }

    method ApplyTrigger(l: nat, t: Trigger, now: int, p: Params, rank0: Option<Tier>)
      returns (r: Option<Refusal>)
      modifies this
      ensures match Applied(old(State()), l, t, now, p, rank0)
              case Ok(after) => r == None && State() == after
              case Err(why) => r == Some(why) && State() == old(State())
    {
      if l !in listings { return Some(NoListing); }
      var row := SelectRow(l, t, p);
      if row.Err? { return Some(row.error); }
      var moved := MoveRow(row.value, t, now, p);
      if moved.Err? { return Some(moved.error); }
      Commit(l, row.value.status, t, now, moved.value, rank0);
      return None;
    }

    method SelectRow(l: nat, t: Trigger, p: Params) returns (r: Result<Ent, Refusal>)
      ensures r == CurrentRow(State(), l, t, p)
    {
      if l in ents { return Ok(ents[l]); }
      if t !in {Start, StartTrial, Grant, Override} { return Err(InvalidTransition); }
      if p.tier.None? { return Err(BadParameters); }
      return Ok(NewRow(p.tier.value));
    }

    /** The checks under the lock, then `_mutate` on the loaded object. */
    method MoveRow(row: Ent, t: Trigger, now: int, p: Params) returns (r: Result<Ent, Refusal>)
      ensures r == Moved(row, t, now, p)
    {
      var rule := RuleFor(row.status, t);
      if rule.None? { return Err(InvalidTransition); }
      if IsClock(t) && !IsDue(row, t, now) { return Err(NotDue); }
      var ent := new Entitlement.Load(row);
      var ok := ent.Mutate(t, rule.value.to, now, p);
      if !ok { return Err(BadParameters); }
      return Ok(ent.row);
    }

    /** Everything after `_mutate`: the save, the events, the tier, the visibility. */
    method Commit(l: nat, prior: Status, t: Trigger, now: int, e: Ent, rank0: Option<Tier>)
      requires l in listings && RuleFor(prior, t).Some?
      modifies this
      ensures State() == Written(old(State()), l, prior, t, now, e, rank0)
    {
      hide RuleFor, TierCause, EffectiveTier, LifecycleEvents, TierEvents, VisibilityEvents, FlagAfter, VisibilityAfter;
      var rule := RuleFor(prior, t).value;
      var before := listings[l];
      ents := ents[l := e];
      var target := EffectiveTier(e, rank0);
      events := events + LifecycleEvents(l, rule.events);
      var _ := SetTier(l, target, TierCause(ranks, rule, before.currentTier, target), now);
      AdjustVisibility(l, rank0);
    }
  }
}
