/** Who may see what, told by scope rather than by event: the paths each scope
    guards, and what an adapter without it is given there
    (audit/redaction.py:42-68, 122-136, 163-200). */
module RedactionScopes {
  import opened Prelude
  import opened Json
  import opened Redaction
  import opened RedactionLaws

  predicate PersonField(p: seq<string>, person: string)
  {
    |p| == 2 && p[0] == person && (p[1] == "email" || p[1] == "name" || p[1] == "phone_e164")
  }

  /** `consent.*.ip`. */
  predicate ConsentAddress(p: seq<string>)
  {
    |p| == 3 && p[0] == "consent" && p[2] == "ip"
  }

  /** Who someone is and how to reach them. */
  predicate GuardedByContact(kind: string, p: seq<string>)
  {
    || (kind == "user.created" && PersonField(p, "user"))
    || (kind == "claim.submitted" && (PersonField(p, "claimant") || ConsentAddress(p)))
    || (kind == "lead.captured" && (PersonField(p, "lead") || ConsentAddress(p)))
    || (kind == "listing.created" && p == ["contact"])
    || (kind == "staff.invited" && p == ["operator", "email"])
    || (kind == "import.completed" && p == ["errors"])
  }

  /** Free text that someone wrote. */
  predicate GuardedByMessage(kind: string, p: seq<string>)
  {
    || (kind == "lead.captured" && p == ["lead", "message"])
    || (kind == "claim.approved" && (p == ["manual_verification", "notes"] || p == ["manual_verification", "evidence_ref"]))
    || (p == ["reason"] && (kind == "claim.rejected" || kind == "billing.subscription_canceled"
                            || kind == "entitlement.canceled" || kind == "entitlement.overridden"))
    || (kind == "moderation.decided" && p == ["rationale"])
  }

  predicate Guarded(kind: string, scope: Scope, p: seq<string>)
  {
    match scope case Contact => GuardedByContact(kind, p) case Message => GuardedByMessage(kind, p)
  }

  /** Some rule of the event's table matches the path under the scope. */
  ghost predicate Ruled(kind: string, scope: Scope, p: seq<string>)
  {
    RulesFor(kind).Some? && exists i :: RuleMatches(RulesFor(kind).value, i, scope, p)
  }

  predicate RuleMatches(rules: seq<Rule>, i: int, scope: Scope, p: seq<string>)
  {
    0 <= i < |rules| && rules[i].scope == scope && Matches(rules[i].path, p)
  }

  lemma Match1(a: string, p: seq<string>)
    ensures Matches(P1(a), p) <==> p == [a]
  {
  }

  lemma Match2(a: string, b: string, p: seq<string>)
    ensures Matches(P2(a, b), p) <==> p == [a, b]
  {
  }

  lemma MatchConsent(p: seq<string>)
    ensures Matches(CONSENT_IP.path, p) <==> ConsentAddress(p)
  {
  }

  lemma OneRule(kind: string, rule: Rule, scope: Scope, p: seq<string>)
    requires RulesFor(kind) == Some([rule])
    ensures Ruled(kind, scope, p) <==> scope == rule.scope && Matches(rule.path, p)
  {
    hide RulesFor, Matches;
    if scope == rule.scope && Matches(rule.path, p) {
      assert RuleMatches(RulesFor(kind).value, 0, scope, p);
    }
  }

  lemma TwoRules(kind: string, a: Rule, b: Rule, scope: Scope, p: seq<string>)
    requires RulesFor(kind) == Some([a, b])
    ensures Ruled(kind, scope, p) <==> (scope == a.scope && Matches(a.path, p)) || (scope == b.scope && Matches(b.path, p))
  {
    hide RulesFor, Matches;
    assert RuleMatches([a, b], 0, scope, p) <==> scope == a.scope && Matches(a.path, p);
    assert RuleMatches([a, b], 1, scope, p) <==> scope == b.scope && Matches(b.path, p);
  }

  lemma ThreeRules(kind: string, rules: seq<Rule>, scope: Scope, p: seq<string>)
    requires RulesFor(kind) == Some(rules) && |rules| == 3
    ensures Ruled(kind, scope, p) <==>
      RuleMatches(rules, 0, scope, p) || RuleMatches(rules, 1, scope, p) || RuleMatches(rules, 2, scope, p)
  {
    hide RulesFor, Matches;
  }

  lemma FourRules(kind: string, rules: seq<Rule>, scope: Scope, p: seq<string>)
    requires RulesFor(kind) == Some(rules) && |rules| == 4
    ensures Ruled(kind, scope, p) <==>
      || RuleMatches(rules, 0, scope, p) || RuleMatches(rules, 1, scope, p) || RuleMatches(rules, 2, scope, p)
      || RuleMatches(rules, 3, scope, p)
  {
    hide RulesFor, Matches;
  }

  lemma FiveRules(kind: string, rules: seq<Rule>, scope: Scope, p: seq<string>)
    requires RulesFor(kind) == Some(rules) && |rules| == 5
    ensures Ruled(kind, scope, p) <==>
      || RuleMatches(rules, 0, scope, p) || RuleMatches(rules, 1, scope, p) || RuleMatches(rules, 2, scope, p)
      || RuleMatches(rules, 3, scope, p) || RuleMatches(rules, 4, scope, p)
  {
    hide RulesFor, Matches;
  }

  // --- the tables, event by event -------------------------------------------------------------

  lemma PersonIsThree(person: string, p: seq<string>)
    ensures PersonField(p, person) <==>
      Matches(P2(person, "email"), p) || Matches(P2(person, "name"), p) || Matches(P2(person, "phone_e164"), p)
  {
    Match2(person, "email", p);
    Match2(person, "name", p);
    Match2(person, "phone_e164", p);
    hide Matches, P2;
    assert |p| == 2 ==> p == [p[0], p[1]];
  }

  lemma UserTable(scope: Scope, p: seq<string>)
    ensures Ruled("user.created", scope, p) <==> Guarded("user.created", scope, p)
  {
    var rules := RulesFor("user.created").value;
    assert rules == [Rule(P2("user", "email"), Contact), Rule(P2("user", "name"), Contact), Rule(P2("user", "phone_e164"), Contact)];
    hide RulesFor, Matches, P2, PersonField, Ruled, ConsentAddress;
    ThreeRules("user.created", rules, scope, p);
    PersonIsThree("user", p);
  }

  lemma ClaimTable(scope: Scope, p: seq<string>)
    ensures Ruled("claim.submitted", scope, p) <==> Guarded("claim.submitted", scope, p)
  {
    var rules := RulesFor("claim.submitted").value;
    assert rules == [Rule(P2("claimant", "name"), Contact), Rule(P2("claimant", "email"), Contact),
                     Rule(P2("claimant", "phone_e164"), Contact), CONSENT_IP];
    hide RulesFor, Matches, P2, PersonField, Ruled, ConsentAddress;
    FourRules("claim.submitted", rules, scope, p);
    PersonIsThree("claimant", p);
    MatchConsent(p);
  }

  lemma LeadTable(scope: Scope, p: seq<string>)
    ensures Ruled("lead.captured", scope, p) <==> Guarded("lead.captured", scope, p)
  {
    var rules := RulesFor("lead.captured").value;
    assert rules == [Rule(P2("lead", "name"), Contact), Rule(P2("lead", "email"), Contact), Rule(P2("lead", "phone_e164"), Contact),
                     Rule(P2("lead", "message"), Message), CONSENT_IP];
    hide RulesFor, Matches, P2, PersonField, Ruled, ConsentAddress;
    FiveRules("lead.captured", rules, scope, p);
    PersonIsThree("lead", p);
    Match2("lead", "message", p);
    MatchConsent(p);
  }

  lemma ApprovalTable(scope: Scope, p: seq<string>)
    ensures Ruled("claim.approved", scope, p) <==> Guarded("claim.approved", scope, p)
  {
    var a, b := Rule(P2("manual_verification", "notes"), Message), Rule(P2("manual_verification", "evidence_ref"), Message);
    assert RulesFor("claim.approved") == Some([a, b]);
    hide RulesFor, Matches, P2, Ruled;
    TwoRules("claim.approved", a, b, scope, p);
    Match2("manual_verification", "notes", p);
    Match2("manual_verification", "evidence_ref", p);
  }

  lemma ContactTables(kind: string, scope: Scope, p: seq<string>)
    requires kind in {"listing.created", "staff.invited", "import.completed"}
    ensures Ruled(kind, scope, p) <==> Guarded(kind, scope, p)
  {
    var rule := if kind == "listing.created" then Rule(P1("contact"), Contact)
                else if kind == "staff.invited" then Rule(P2("operator", "email"), Contact) else Rule(P1("errors"), Contact);
    assert RulesFor(kind) == Some([rule]);
    hide RulesFor, Matches, P1, P2, Ruled;
    OneRule(kind, rule, scope, p);
    Match1("contact", p);
    Match2("operator", "email", p);
    Match1("errors", p);
  }

  predicate IsReasonEvent(kind: string)
  {
    kind == "claim.rejected" || kind == "billing.subscription_canceled" || kind == "entitlement.canceled"
    || kind == "entitlement.overridden"
  }

  lemma ReasonTables(kind: string, scope: Scope, p: seq<string>)
    requires IsReasonEvent(kind) || kind == "moderation.decided"
    ensures Ruled(kind, scope, p) <==> Guarded(kind, scope, p)
  {
    var rule := Rule(P1(if kind == "moderation.decided" then "rationale" else "reason"), Message);
    assert RulesFor(kind) == Some([rule]);
    hide RulesFor, Matches, P1, P2, Ruled;
    OneRule(kind, rule, scope, p);
    Match1("rationale", p);
    Match1("reason", p);
  }

  /** Each path is guarded by the scope the rule tables give it. */
  lemma TablesByScope(kind: string, scope: Scope, p: seq<string>)
    ensures Ruled(kind, scope, p) <==> Guarded(kind, scope, p)
  {
    if kind == "user.created" {
      UserTable(scope, p);
    } else if kind == "claim.submitted" {
      ClaimTable(scope, p);
    } else if kind == "lead.captured" {
      LeadTable(scope, p);
    } else if kind == "claim.approved" {
      ApprovalTable(scope, p);
    } else if kind in {"listing.created", "staff.invited", "import.completed"} {
      ContactTables(kind, scope, p);
    } else if IsReasonEvent(kind) || kind == "moderation.decided" {
      ReasonTables(kind, scope, p);
    } else {
      OtherTables(kind);
    }
  }

  lemma OtherTables(kind: string)
    requires kind !in {"user.created", "claim.submitted", "lead.captured", "claim.approved", "listing.created", "staff.invited",
      "import.completed", "moderation.decided"}
    requires !IsReasonEvent(kind)
    ensures RulesFor(kind) == None || RulesFor(kind) == Some([])
  {
  }

  // --- what an adapter is given ------------------------------------------------------------------

  /** The path needs a scope that was not granted. */
  predicate Needs(kind: string, granted: set<Scope>, hidden: set<string>, p: seq<string>)
  {
    || (Contact !in granted && GuardedByContact(kind, p))
    || (Message !in granted && GuardedByMessage(kind, p))
    || (Contact !in granted && IsListingEvent(kind) && |p| == 2 && p[0] == "custom_fields" && p[1] in hidden)
  }

  ghost predicate CoveredAt(kind: string, granted: set<Scope>, hidden: set<string>, p: seq<string>)
  {
    exists w :: w in Covered(kind, granted, hidden) && Matches(w, p)
  }

  lemma WithheldIsRuled(kind: string, granted: set<Scope>, p: seq<string>)
    ensures (exists w :: w in Withheld(kind, granted) && Matches(w, p)) <==>
      (Contact !in granted && Ruled(kind, Contact, p)) || (Message !in granted && Ruled(kind, Message, p))
  {
    hide RulesFor, Matches;
    if w :| w in Withheld(kind, granted) && Matches(w, p) {
      var rules := RulesFor(kind).value;
      var i :| 0 <= i < |rules| && rules[i].path == w && rules[i].scope !in granted;
      assert RuleMatches(rules, i, rules[i].scope, p);
    }
    forall scope: Scope | scope !in granted && Ruled(kind, scope, p) ensures exists w :: w in Withheld(kind, granted) && Matches(w, p) {
      var rules := RulesFor(kind).value;
      var i :| RuleMatches(rules, i, scope, p);
      assert rules[i].path in Withheld(kind, granted);
    }
  }

  lemma CustomIsHidden(kind: string, granted: set<Scope>, hidden: set<string>, p: seq<string>)
    ensures (exists w :: w in CustomPaths(kind, granted, hidden) && Matches(w, p)) <==>
      Contact !in granted && IsListingEvent(kind) && |p| == 2 && p[0] == "custom_fields" && p[1] in hidden
  {
    hide Matches, P2, IsListingEvent;
    forall k ensures Matches(P2(CUSTOM_FIELDS, k), p) <==> p == [CUSTOM_FIELDS, k] {
      Match2(CUSTOM_FIELDS, k, p);
    }
    if |p| == 2 && p[0] == "custom_fields" && p[1] in hidden {
      assert p == [CUSTOM_FIELDS, p[1]] && P2(CUSTOM_FIELDS, p[1]) in HiddenFieldPaths(hidden);
    }
  }

  lemma CoveredIsNeeded(kind: string, granted: set<Scope>, hidden: set<string>, p: seq<string>)
    ensures CoveredAt(kind, granted, hidden, p) <==> Needs(kind, granted, hidden, p)
  {
    TablesByScope(kind, Contact, p);
    TablesByScope(kind, Message, p);
    WithheldIsRuled(kind, granted, p);
    CustomIsHidden(kind, granted, hidden, p);
    hide Withheld, CustomPaths, Matches, Ruled, GuardedByContact, GuardedByMessage, IsListingEvent;
    if w :| w in Covered(kind, granted, hidden) && Matches(w, p) {
      assert w in Withheld(kind, granted) || w in CustomPaths(kind, granted, hidden);
    }
    if w :| w in Withheld(kind, granted) && Matches(w, p) {
      assert w in Covered(kind, granted, hidden);
    }
    if w :| w in CustomPaths(kind, granted, hidden) && Matches(w, p) {
      assert w in Covered(kind, granted, hidden);
    }
  }

  /** What a document holds at a path. */
  function ValueAt(d: Json, p: seq<string>): Option<Json>
    decreases |p|
  {
    if p == [] then Some(d)
    else if !d.Obj? || p[0] !in d.members then None
    else ValueAt(d.members[p[0]], p[1..])
  }

  /** Blanking leaves null at a matching path. */
  lemma {:induction false} BlankNulls(d: Json, ws: set<Pattern>, w: Pattern, p: seq<string>)
    requires w in ws && w != [] && Matches(w, p)
    ensures ValueAt(Blank(d, ws), p) in {None, Some(Null)}
    decreases |p|
  {
    MatchesSteps(w, p);
    if d.Obj? && p[0] in d.members {
      assert w[1..] in Tails(ws, p[0]);
      if |w| == 1 {
        assert w[1..] == [] && p[1..] == [];
      } else if [] !in Tails(ws, p[0]) {
        BlankNulls(d.members[p[0]], Tails(ws, p[0]), w[1..], p[1..]);
      } else {
        assert ValueAt(Null, p[1..]) == None;
      }
    }
  }

  /** In every classified event, what a missing scope guards is listed where it is
      present and is null in what the adapter gets; nothing else of the document is
      listed. */
  lemma ScopesGuard(e: Envelope, granted: set<Scope>, hidden: set<string>, p: seq<string>)
    requires !Unclassified(e.kind, granted)
    ensures var out := Redact(e, granted, hidden);
      && out.redacted.Some? && out.data.Some?
      && (At(p) in out.redacted.value <==> Present(Obj(Data(e)), p) && Needs(e.kind, granted, hidden, p))
      && (Needs(e.kind, granted, hidden, p) ==> ValueAt(Obj(out.data.value), p) in {None, Some(Null)})
  {
    hide Redact, Covered, Matches, Needs, Unclassified;
    RedactedListsExactly(e, granted, hidden, p);
    CoveredIsNeeded(e.kind, granted, hidden, p);
    RedactIsOnePass(e, granted, hidden);
    if Needs(e.kind, granted, hidden, p) {
      var w :| w in Covered(e.kind, granted, hidden) && Matches(w, p);
      BlankNulls(Obj(WithChanges(e.kind, Data(e), granted, hidden)), Covered(e.kind, granted, hidden), w, p);
    }
  }

  /** An event that no one classified is withheld in full from an adapter that does not
      hold both scopes; the reviewed ones without personal data come through. */
  lemma UnclassifiedIsWithheld(e: Envelope, granted: set<Scope>, hidden: set<string>)
    requires !(Contact in granted && Message in granted) && RulesFor(e.kind).None?
    ensures e.kind !in NO_PII ==> Redact(e, granted, hidden) == e.(data := Some(map[]), redacted := Some({Everything}))
    ensures e.kind in NO_PII ==> Redact(e, granted, hidden) == e.(data := Some(Data(e)), redacted := Some({}))
  {
    if e.kind !in NO_PII {
      assert Unclassified(e.kind, granted);
    } else {
      ReviewedHasNoRules(e.kind);
      assert Withheld(e.kind, granted) == [];
      hide RulesFor, PatchRulesFor, IsListingEvent;
      assert NullEach(Obj(Data(e)), []) == Obj(Data(e)) && NulledByEach(Obj(Data(e)), []) == {} && Places({}) == {};
    }
  }

  lemma ReviewedHasNoRules(kind: string)
    requires RulesFor(kind).None?
    ensures PatchRulesFor(kind).None? && !IsListingEvent(kind)
  {
  }
}
