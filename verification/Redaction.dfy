/** Redacting an envelope before an adapter sees it (audit/redaction.py). An entry
    of the `redacted` list is a `Place` rather than its dotted rendering, and the
    list, sorted and free of repeats in the source, is the set it holds. */
module Redaction {
  import opened Prelude
  import opened Json

  datatype Scope = Contact | Message

  /** One step of a dotted rule path; `*` is `Any`. */
  datatype Part = Key(key: string) | Any

  type Pattern = seq<Part>

  datatype Rule = Rule(path: Pattern, scope: Scope)

  datatype PatchRule = PatchRule(prefix: string, scope: Scope)

  datatype Place = At(path: seq<string>) | OpValue(index: nat) | OpField(index: nat, key: string) | Everything

  /** `data` is `None` where the envelope's data is missing or null. */
  datatype Envelope = Envelope(kind: string, data: Option<map<string, Json>>, redacted: Option<set<Place>>, rest: map<string, Json>)

  // --- the rule tables -----------------------------------------------------------

  function P1(a: string): Pattern
  {
    [Key(a)]
  }

  function P2(a: string, b: string): Pattern
  {
    [Key(a), Key(b)]
  }

  const CONSENT_IP: Rule := Rule([Key("consent"), Any, Key("ip")], Contact)

  function RulesFor(kind: string): Option<seq<Rule>>
  {
    if kind == "user.created" then
      Some([Rule(P2("user", "email"), Contact), Rule(P2("user", "name"), Contact), Rule(P2("user", "phone_e164"), Contact)])
    else if kind == "claim.submitted" then
      Some([Rule(P2("claimant", "name"), Contact), Rule(P2("claimant", "email"), Contact),
            Rule(P2("claimant", "phone_e164"), Contact), CONSENT_IP])
    else if kind == "lead.captured" then
      Some([Rule(P2("lead", "name"), Contact), Rule(P2("lead", "email"), Contact), Rule(P2("lead", "phone_e164"), Contact),
            Rule(P2("lead", "message"), Message), CONSENT_IP])
    else if kind == "listing.created" then Some([Rule(P1("contact"), Contact)])
    else if kind == "listing.updated" then Some([])
    else if kind == "staff.invited" then Some([Rule(P2("operator", "email"), Contact)])
    else if kind == "claim.approved" then
      Some([Rule(P2("manual_verification", "notes"), Message), Rule(P2("manual_verification", "evidence_ref"), Message)])
    else if kind == "claim.rejected" then Some([Rule(P1("reason"), Message)])
    else if kind == "moderation.decided" then Some([Rule(P1("rationale"), Message)])
    else if kind == "billing.subscription_canceled" then Some([Rule(P1("reason"), Message)])
    else if kind == "entitlement.canceled" then Some([Rule(P1("reason"), Message)])
    else if kind == "entitlement.overridden" then Some([Rule(P1("reason"), Message)])
    else if kind == "import.completed" then Some([Rule(P1("errors"), Contact)])
    else if kind == "tenant.settings_changed" then Some([])
    else None
  }

  function PatchRulesFor(kind: string): Option<seq<PatchRule>>
  {
    if kind == "listing.updated" then Some([PatchRule("/contact", Contact)])
    else if kind == "tenant.settings_changed" then Some([PatchRule("/", Contact)])
    else None
  }

  const NO_PII: set<string> := {
    "claim.verification_started", "claim.verification_failed", "claim.disputed",
    "claim.notified_existing_contacts", "listing.owner_assigned", "listing.published", "listing.unpublished",
    "listing.tier_changed", "staff.accepted", "lead.marked_spam", "moderation.queued", "tenant.created",
    "tenant.domain_verified", "import.started", "import.rolled_back", "billing.checkout_started",
    "billing.subscription_started", "billing.subscription_changed", "billing.payment_succeeded",
    "billing.payment_failed", "billing.refund_issued", "entitlement.started", "entitlement.trial_converted",
    "entitlement.dunning_started", "entitlement.recovered", "entitlement.downgraded", "entitlement.restored",
    "entitlement.renewal_due", "entitlement.expired"
  }

  predicate IsListingEvent(kind: string)
  {
    kind == "listing.created" || kind == "listing.updated"
  }

  // --- one rule path --------------------------------------------------------------

  predicate Fits(p: Part, k: string)
  {
    p == Any || p == Key(k)
  }

  /** The document with every value at the path nulled. */
  function NullPath(node: Json, parts: Pattern): Json
    requires parts != []
    decreases node
  {
    if !node.Obj? then node
    else Obj(map k | k in node.members ::
      if !Fits(parts[0], k) then node.members[k]
      else if |parts| > 1 then NullPath(node.members[k], parts[1..])
      else Null)
  }

  /** The concrete paths nulled. */
  function NulledAt(node: Json, parts: Pattern): set<seq<string>>
    requires parts != []
    decreases node
  {
    if !node.Obj? then {}
    else if |parts| == 1 then set k | k in node.members && Fits(parts[0], k) :: [k]
    else set k, p | k in node.members && Fits(parts[0], k) && p in NulledAt(node.members[k], parts[1..]) :: [k] + p
  }

  /** The rules' paths one after another, each on what the last left. */
  function NullEach(d: Json, ws: seq<Pattern>): Json
    requires [] !in ws
  {
    if ws == [] then d else NullPath(NullEach(d, ws[..|ws| - 1]), ws[|ws| - 1])
  }

  function NulledByEach(d: Json, ws: seq<Pattern>): set<seq<string>>
    requires [] !in ws
  {
    if ws == [] then {}
    else NulledByEach(d, ws[..|ws| - 1]) + NulledAt(NullEach(d, ws[..|ws| - 1]), ws[|ws| - 1])
  }

  function WithheldPaths(rules: seq<Rule>, granted: set<Scope>): (r: seq<Pattern>)
    requires forall i :: 0 <= i < |rules| ==> rules[i].path != []
    ensures [] !in r
    ensures forall w :: w in r <==> exists i :: 0 <= i < |rules| && rules[i].path == w && rules[i].scope !in granted
  {
    if rules == [] then []
    else
      var last := rules[|rules| - 1];
      WithheldPaths(rules[..|rules| - 1], granted) + if last.scope in granted then [] else [last.path]
  }

  // --- patch operations --------------------------------------------------------------

  predicate StartsWith(s: string, prefix: string)
  {
    prefix <= s
  }

  predicate Under(path: string, prefix: string)
  {
    prefix == "/" || path == prefix || StartsWith(path, prefix + "/")
  }

  /** `str(op.get("path", ""))`; the rendering of a value that is no string never
      begins with a slash. */
  function PathText(op: map<string, Json>): string
  {
    if "path" !in op then ""
    else if op["path"].Str? then op["path"].s
    else "None"
  }

  const CUSTOM_FIELDS: string := "custom_fields"

  predicate UnderRule(path: string, rules: seq<PatchRule>, granted: set<Scope>)
  {
    exists i :: 0 <= i < |rules| && Under(path, rules[i].prefix) && rules[i].scope !in granted
  }

  /** Whether the op's whole value is withheld. */
  predicate ValueWithheld(path: string, rules: seq<PatchRule>, granted: set<Scope>, hidden: set<string>)
  {
    || UnderRule(path, rules, granted)
    || (&& Contact !in granted && StartsWith(path, "/custom_fields/")
        && BeforeSlash(path[|"/custom_fields/"|..]) in hidden)
  }

  /** Whether only the hidden members of the op's value are withheld. */
  predicate MembersWithheld(path: string, rules: seq<PatchRule>, granted: set<Scope>)
  {
    !UnderRule(path, rules, granted) && Contact !in granted && path == "/custom_fields"
  }

  function HideMembers(fields: map<string, Json>, hidden: set<string>): map<string, Json>
  {
    map k | k in fields :: if k in hidden then Null else fields[k]
  }

  function RedactOp(op: Json, rules: seq<PatchRule>, granted: set<Scope>, hidden: set<string>): Json
  {
    if !op.Obj? || "value" !in op.members then op
    else
      var path := PathText(op.members);
      var value := op.members["value"];
      if ValueWithheld(path, rules, granted, hidden) then Obj(op.members["value" := Null])
      else if MembersWithheld(path, rules, granted) && value.Obj? then
        Obj(op.members["value" := Obj(HideMembers(value.members, hidden))])
      else op
  }

  function OpPlaces(op: Json, index: nat, rules: seq<PatchRule>, granted: set<Scope>, hidden: set<string>): set<Place>
  {
    if !op.Obj? || "value" !in op.members then {}
    else
      var path := PathText(op.members);
      var value := op.members["value"];
      if ValueWithheld(path, rules, granted, hidden) then {OpValue(index)}
      else if MembersWithheld(path, rules, granted) && value.Obj? then
        set k | k in value.members && k in hidden :: OpField(index, k)
      else {}
  }

  function RedactChanges(changes: Json, rules: seq<PatchRule>, granted: set<Scope>, hidden: set<string>): Json
  {
    if !changes.Arr? then changes
    else Arr(seq(|changes.items|, i requires 0 <= i < |changes.items| => RedactOp(changes.items[i], rules, granted, hidden)))
  }

  function ChangePlaces(changes: Json, rules: seq<PatchRule>, granted: set<Scope>, hidden: set<string>): set<Place>
  {
    if !changes.Arr? then {}
    else set i, p | 0 <= i < |changes.items| && p in OpPlaces(changes.items[i], i, rules, granted, hidden) :: p
  }

  // --- the envelope ----------------------------------------------------------------

  function Data(e: Envelope): map<string, Json>
  {
    if e.data.Some? then e.data.value else map[]
  }

  /** Neither classified nor covered by both scopes: withheld in full. */
  predicate Unclassified(kind: string, granted: set<Scope>)
  {
    RulesFor(kind).None? && kind !in NO_PII && !({Contact, Message} <= granted)
  }

  lemma RulePathsNonEmpty(kind: string)
    requires RulesFor(kind).Some?
    ensures var rs := RulesFor(kind).value; forall i :: 0 <= i < |rs| ==> rs[i].path != []
  {
  }

  /** The paths of the envelope's rules that are not granted, in table order. */
  function Withheld(kind: string, granted: set<Scope>): (ws: seq<Pattern>)
    ensures [] !in ws
  {
    if RulesFor(kind).None? then []
    else
      RulePathsNonEmpty(kind);
      WithheldPaths(RulesFor(kind).value, granted)
  }

  function WithChanges(kind: string, d: map<string, Json>, granted: set<Scope>, hidden: set<string>): map<string, Json>
  {
    if PatchRulesFor(kind).Some? && "changes" in d
    then d["changes" := RedactChanges(d["changes"], PatchRulesFor(kind).value, granted, hidden)]
    else d
  }

  function PlacesInChanges(kind: string, d: map<string, Json>, granted: set<Scope>, hidden: set<string>): set<Place>
  {
    if PatchRulesFor(kind).Some? && "changes" in d
    then ChangePlaces(d["changes"], PatchRulesFor(kind).value, granted, hidden)
    else {}
  }

  predicate HidesCustomFields(kind: string, d: map<string, Json>, granted: set<Scope>)
  {
    IsListingEvent(kind) && Contact !in granted && CUSTOM_FIELDS in d && d[CUSTOM_FIELDS].Obj?
  }

  function WithCustomFields(kind: string, d: map<string, Json>, granted: set<Scope>, hidden: set<string>): map<string, Json>
  {
    if HidesCustomFields(kind, d, granted)
    then d[CUSTOM_FIELDS := Obj(HideMembers(d[CUSTOM_FIELDS].members, hidden))] else d
  }

  function CustomFieldPlaces(kind: string, d: map<string, Json>, granted: set<Scope>, hidden: set<string>): set<Place>
  {
    if HidesCustomFields(kind, d, granted)
    then set k | k in d[CUSTOM_FIELDS].members && k in hidden :: At([CUSTOM_FIELDS, k]) else {}
  }

  function Places(paths: set<seq<string>>): set<Place>
  {
    set p | p in paths :: At(p)
  }

  lemma {:induction false} NullEachKeepsObjects(d: Json, ws: seq<Pattern>)
    requires d.Obj? && [] !in ws
    ensures NullEach(d, ws).Obj? && NullEach(d, ws).members.Keys == d.members.Keys
  {
    if ws != [] {
      NullEachKeepsObjects(d, ws[..|ws| - 1]);
    }
  }

  /** `redact`. `hidden` are the listing type's non-public custom fields. */
  function Redact(e: Envelope, granted: set<Scope>, hidden: set<string>): Envelope
  {
    if Unclassified(e.kind, granted) then e.(data := Some(map[]), redacted := Some({Everything}))
    else
      var ws := Withheld(e.kind, granted);
      NullEachKeepsObjects(Obj(Data(e)), ws);
      var nulled := NullEach(Obj(Data(e)), ws).members;
      var patched := WithChanges(e.kind, nulled, granted, hidden);
      e.(data := Some(WithCustomFields(e.kind, patched, granted, hidden)),
         redacted := Some(Places(NulledByEach(Obj(Data(e)), ws))
                          + PlacesInChanges(e.kind, nulled, granted, hidden)
                          + CustomFieldPlaces(e.kind, patched, granted, hidden)))
  }
}
