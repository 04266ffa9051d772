/** The laws of redaction, proved through a one-pass definition of what is hidden. */
module RedactionLaws {
  import opened Prelude
  import opened Json
  import opened Redaction

  // --- hiding a set of paths in one pass ------------------------------------------------

  /** What the patterns say below the member `k`. */
  function Tails(ws: set<Pattern>, k: string): set<Pattern>
  {
    set w | w in ws && w != [] && Fits(w[0], k) :: w[1..]
  }

  function Blank(d: Json, ws: set<Pattern>): Json
    decreases d
  {
    if !d.Obj? then d
    else Obj(map k | k in d.members :: if [] in Tails(ws, k) then Null else Blank(d.members[k], Tails(ws, k)))
  }

  lemma {:induction false} BlankNothing(d: Json)
    ensures Blank(d, {}) == d
    decreases d
  {
    if d.Obj? {
      forall k | k in d.members ensures Blank(d, {}).members[k] == d.members[k] {
        assert Tails({}, k) == {};
        BlankNothing(d.members[k]);
      }
    }
  }

  lemma {:induction false} BlankTwice(d: Json, ws: set<Pattern>, vs: set<Pattern>)
    ensures Blank(Blank(d, ws), vs) == Blank(d, ws + vs)
    decreases d
  {
    if d.Obj? {
      forall k | k in d.members ensures Blank(Blank(d, ws), vs).members[k] == Blank(d, ws + vs).members[k] {
        assert Tails(ws + vs, k) == Tails(ws, k) + Tails(vs, k);
        BlankTwice(d.members[k], Tails(ws, k), Tails(vs, k));
      }
    }
  }

  lemma {:induction false} NullPathIsBlank(d: Json, w: Pattern)
    requires w != []
    ensures NullPath(d, w) == Blank(d, {w})
    decreases d
  {
    if d.Obj? {
      forall k | k in d.members ensures NullPath(d, w).members[k] == Blank(d, {w}).members[k] {
        if Fits(w[0], k) {
          assert Tails({w}, k) == {w[1..]};
          if |w| > 1 {
            NullPathIsBlank(d.members[k], w[1..]);
          } else {
            assert w[1..] == [];
          }
        } else {
          assert Tails({w}, k) == {};
          BlankNothing(d.members[k]);
        }
      }
    }
  }

  /** Nulling the paths one after another hides exactly the set of them. */
  lemma {:induction false} NullEachIsBlank(d: Json, ws: seq<Pattern>)
    requires [] !in ws
    ensures NullEach(d, ws) == Blank(d, Elements(ws))
    decreases |ws|
  {
    if ws == [] {
      assert Elements(ws) == {};
      BlankNothing(d);
    } else {
      var n := |ws| - 1;
      NullEachIsBlank(d, ws[..n]);
      NullPathIsBlank(NullEach(d, ws[..n]), ws[n]);
      BlankTwice(d, Elements(ws[..n]), {ws[n]});
      assert Elements(ws) == Elements(ws[..n]) + {ws[n]};
    }
  }

  // --- which concrete paths are listed -----------------------------------------------------

  predicate Meet(p: Part, q: Part)
  {
    p == q || p == Any || q == Any
  }

  /** Some document path continues one pattern below the other. */
  predicate Cuts(v: Pattern, w: Pattern)
  {
    |v| < |w| && forall i :: 0 <= i < |v| ==> Meet(v[i], w[i])
  }

  ghost predicate CutFree(ws: set<Pattern>, w: Pattern)
  {
    forall v :: v in ws ==> !Cuts(v, w)
  }

  lemma TailsCutFree(ws: set<Pattern>, w: Pattern, k: string)
    requires CutFree(ws, w) && |w| > 1 && Fits(w[0], k)
    ensures [] !in Tails(ws, k) && CutFree(Tails(ws, k), w[1..])
  {
  }

  /** What is already hidden does not change which paths are listed. */
  lemma {:induction false} NulledAtIgnoresBlanks(d: Json, ws: set<Pattern>, w: Pattern)
    requires w != [] && CutFree(ws, w)
    ensures NulledAt(Blank(d, ws), w) == NulledAt(d, w)
    decreases d
  {
    if d.Obj? && |w| > 1 {
      forall k | k in d.members && Fits(w[0], k)
        ensures NulledAt(Blank(d, ws).members[k], w[1..]) == NulledAt(d.members[k], w[1..])
      {
        TailsCutFree(ws, w, k);
        NulledAtIgnoresBlanks(d.members[k], Tails(ws, k), w[1..]);
      }
    }
  }

  function NulledAtAll(d: Json, ws: set<Pattern>): set<seq<string>>
    requires [] !in ws
  {
    set w, p | w in ws && p in NulledAt(d, w) :: p
  }

  ghost predicate AllCutFree(ws: set<Pattern>)
  {
    forall w :: w in ws ==> CutFree(ws, w)
  }

  lemma NulledAtAllAdds(d: Json, ws: set<Pattern>, w: Pattern)
    requires [] !in ws && w != []
    ensures NulledAtAll(d, ws + {w}) == NulledAtAll(d, ws) + NulledAt(d, w)
  {
    hide NulledAt;
  }

  lemma FrontCutFree(ws: seq<Pattern>)
    requires ws != [] && AllCutFree(Elements(ws))
    ensures var n := |ws| - 1;
      Elements(ws) == Elements(ws[..n]) + {ws[n]} && AllCutFree(Elements(ws[..n])) && CutFree(Elements(ws[..n]), ws[n])
  {
    hide Cuts;
    assert ws[|ws| - 1] in Elements(ws);
    assert forall w :: w in Elements(ws[..|ws| - 1]) ==> w in Elements(ws);
  }

  lemma {:induction false} NulledByEachIsAll(d: Json, ws: seq<Pattern>)
    requires [] !in ws && AllCutFree(Elements(ws))
    ensures NulledByEach(d, ws) == NulledAtAll(d, Elements(ws))
    decreases |ws|
  {
    if ws == [] {
      assert Elements(ws) == {};
    } else {
      var n := |ws| - 1;
      var front := ws[..n];
      FrontCutFree(ws);
      hide NulledAt, NulledAtAll, Blank, Cuts, Elements, AllCutFree, CutFree;
      NulledByEachIsAll(d, front);
      NullEachIsBlank(d, front);
      NulledAtIgnoresBlanks(d, Elements(front), ws[n]);
      NoEmptyIn(front);
      NulledAtAllAdds(d, Elements(front), ws[n]);
    }
  }

  lemma NoEmptyIn(ws: seq<Pattern>)
    requires [] !in ws
    ensures [] !in Elements(ws)
  {
  }

  /** A path is in the document. */
  predicate Present(d: Json, p: seq<string>)
    decreases |p|
  {
    p == [] || (d.Obj? && p[0] in d.members && Present(d.members[p[0]], p[1..]))
  }

  predicate Matches(w: Pattern, p: seq<string>)
  {
    |w| == |p| && forall i :: 0 <= i < |p| ==> Fits(w[i], p[i])
  }

  lemma MatchesSteps(w: Pattern, p: seq<string>)
    requires w != [] && p != []
    ensures Matches(w, p) <==> Fits(w[0], p[0]) && Matches(w[1..], p[1..])
  {
  }

  /** Exactly the present paths that match are listed. */
  lemma {:induction false} ListedIffPresent(d: Json, w: Pattern, p: seq<string>)
    requires w != []
    ensures p in NulledAt(d, w) <==> Present(d, p) && Matches(w, p)
    decreases d
  {
    if d.Obj? && p != [] {
      MatchesSteps(w, p);
      if |w| == 1 {
        if p in NulledAt(d, w) {
          assert |p| == 1 && Present(d.members[p[0]], p[1..]);
        } else if Matches(w, p) {
          assert p == [p[0]];
        }
      } else if p[0] in d.members {
        ListedIffPresent(d.members[p[0]], w[1..], p[1..]);
        assert p == [p[0]] + p[1..];
        if p in NulledAt(d, w) {
          var k, q :| k in d.members && Fits(w[0], k) && q in NulledAt(d.members[k], w[1..]) && p == [k] + q;
          assert q == p[1..];
        }
      }
    }
  }

  // --- independence ---------------------------------------------------------------------------

  /** The documents differ only in values at the paths. */
  ghost predicate Agree(a: Json, b: Json, ws: set<Pattern>)
    decreases a
  {
    if a.Obj? && b.Obj? then
      && a.members.Keys == b.members.Keys
      && forall k :: k in a.members ==> [] in Tails(ws, k) || Agree(a.members[k], b.members[k], Tails(ws, k))
    else a == b
  }

  /** Documents look alike once hidden iff they agree everywhere else. */
  lemma {:induction false} BlankHidesExactly(a: Json, b: Json, ws: set<Pattern>)
    ensures Blank(a, ws) == Blank(b, ws) <==> Agree(a, b, ws)
    decreases a
  {
    if a.Obj? && b.Obj? && a.members.Keys == b.members.Keys {
      forall k | k in a.members && [] !in Tails(ws, k)
        ensures Blank(a, ws).members[k] == Blank(b, ws).members[k] <==> Agree(a.members[k], b.members[k], Tails(ws, k))
      {
        BlankHidesExactly(a.members[k], b.members[k], Tails(ws, k));
      }
      if Blank(a, ws) == Blank(b, ws) {
        forall k | k in a.members && [] !in Tails(ws, k) ensures Agree(a.members[k], b.members[k], Tails(ws, k)) {
          assert Blank(a, ws).members[k] == Blank(b, ws).members[k];
        }
      }
    } else if a.Obj? && b.Obj? {
      assert Blank(a, ws).members.Keys == a.members.Keys;
      assert Blank(b, ws).members.Keys == b.members.Keys;
    }
  }

  // --- patch operations --------------------------------------------------------------------------

  lemma RedactOpNarrows(op: Json, i: nat, rules: seq<PatchRule>, wide: set<Scope>, narrow: set<Scope>, hidden: set<string>)
    requires narrow <= wide
    ensures RedactOp(RedactOp(op, rules, wide, hidden), rules, narrow, hidden) == RedactOp(op, rules, narrow, hidden)
    ensures OpPlaces(RedactOp(op, rules, wide, hidden), i, rules, narrow, hidden) == OpPlaces(op, i, rules, narrow, hidden)
  {
    if op.Obj? && "value" in op.members {
      var once := RedactOp(op, rules, wide, hidden);
      assert PathText(once.members) == PathText(op.members);
      assert UnderRule(PathText(op.members), rules, wide) ==> UnderRule(PathText(op.members), rules, narrow);
      if op.members["value"].Obj? {
        var v := op.members["value"].members;
        assert HideMembers(HideMembers(v, hidden), hidden) == HideMembers(v, hidden);
      }
    }
  }

  lemma RedactChangesNarrows(c: Json, rules: seq<PatchRule>, wide: set<Scope>, narrow: set<Scope>, hidden: set<string>)
    requires narrow <= wide
    ensures RedactChanges(RedactChanges(c, rules, wide, hidden), rules, narrow, hidden) == RedactChanges(c, rules, narrow, hidden)
    ensures ChangePlaces(RedactChanges(c, rules, wide, hidden), rules, narrow, hidden) == ChangePlaces(c, rules, narrow, hidden)
  {
    if c.Arr? {
      var once := RedactChanges(c, rules, wide, hidden);
      forall i: nat | i < |c.items|
        ensures RedactOp(once.items[i], rules, narrow, hidden) == RedactOp(c.items[i], rules, narrow, hidden)
        ensures OpPlaces(once.items[i], i, rules, narrow, hidden) == OpPlaces(c.items[i], i, rules, narrow, hidden)
      {
        RedactOpNarrows(c.items[i], i, rules, wide, narrow, hidden);
      }
    }
  }

  /** Operations that differ only in what is withheld. */
  ghost predicate AlikeOp(a: Json, b: Json, rules: seq<PatchRule>, granted: set<Scope>, hidden: set<string>)
  {
    || a == b
    || (&& a.Obj? && b.Obj? && a.members.Keys == b.members.Keys && "value" in a.members
        && (forall k :: k in a.members && k != "value" ==> a.members[k] == b.members[k])
        && var path := PathText(a.members); var v, w := a.members["value"], b.members["value"];
           || ValueWithheld(path, rules, granted, hidden)
           || (&& MembersWithheld(path, rules, granted) && v.Obj? && w.Obj? && v.members.Keys == w.members.Keys
               && forall k :: k in v.members && k !in hidden ==> v.members[k] == w.members[k]))
  }

  ghost predicate AlikeChanges(a: Json, b: Json, rules: seq<PatchRule>, granted: set<Scope>, hidden: set<string>)
  {
    if a.Arr? && b.Arr? then
      |a.items| == |b.items| && forall i :: 0 <= i < |a.items| ==> AlikeOp(a.items[i], b.items[i], rules, granted, hidden)
    else a == b
  }

  lemma HiddenMembersAlike(v: map<string, Json>, w: map<string, Json>, hidden: set<string>)
    ensures HideMembers(v, hidden) == HideMembers(w, hidden)
      <==> v.Keys == w.Keys && forall k :: k in v && k !in hidden ==> v[k] == w[k]
  {
    var x, y := HideMembers(v, hidden), HideMembers(w, hidden);
    assert x.Keys == v.Keys && y.Keys == w.Keys;
    if x == y {
      forall k | k in v && k !in hidden ensures v[k] == w[k] {
        assert x[k] == y[k];
      }
    }
  }

  lemma RedactOpHidesExactly(a: Json, b: Json, rules: seq<PatchRule>, granted: set<Scope>, hidden: set<string>)
    ensures RedactOp(a, rules, granted, hidden) == RedactOp(b, rules, granted, hidden) <==> AlikeOp(a, b, rules, granted, hidden)
  {
    hide ValueWithheld, MembersWithheld;
    var x, y := RedactOp(a, rules, granted, hidden), RedactOp(b, rules, granted, hidden);
    if a.Obj? && b.Obj? {
      assert x.members.Keys == a.members.Keys && y.members.Keys == b.members.Keys;
      assert forall k :: k in a.members && k != "value" ==> x.members[k] == a.members[k];
      assert forall k :: k in b.members && k != "value" ==> y.members[k] == b.members[k];
      if x == y {
        assert PathText(a.members) == PathText(x.members) == PathText(b.members);
      }
      if "value" in a.members && "value" in b.members && a.members["value"].Obj? && b.members["value"].Obj? {
        HiddenMembersAlike(a.members["value"].members, b.members["value"].members, hidden);
      }
    }
  }

  // --- the whole envelope --------------------------------------------------------------------------

  function HiddenFieldPaths(hidden: set<string>): set<Pattern>
  {
    set k | k in hidden :: P2(CUSTOM_FIELDS, k)
  }

  ghost function CustomPaths(kind: string, granted: set<Scope>, hidden: set<string>): set<Pattern>
  {
    if IsListingEvent(kind) && Contact !in granted then HiddenFieldPaths(hidden) else {}
  }

  /** Every document path the grant does not cover. */
  ghost function Covered(kind: string, granted: set<Scope>, hidden: set<string>): set<Pattern>
  {
    Elements(Withheld(kind, granted)) + CustomPaths(kind, granted, hidden)
  }

  /** The shape of the rule tables: within an event type a shorter path never
      starts like a longer one, and none starts with a wildcard. */
  lemma TablesCutFree(kind: string, i: int, j: int)
    requires RulesFor(kind).Some? && 0 <= i < |RulesFor(kind).value| && 0 <= j < |RulesFor(kind).value|
    ensures var a, b := RulesFor(kind).value[i].path, RulesFor(kind).value[j].path;
      |a| > 0 && |b| > 0 && (|a| < |b| ==> !Meet(a[0], b[0]))
  {
    if kind == "claim.submitted" || kind == "lead.captured" {
      ConsentTables(kind, i, j);
    } else {
      EvenTables(kind, i, j);
    }
  }

  /** The tables with the three-part consent path. */
  lemma ConsentTables(kind: string, i: int, j: int)
    requires kind == "claim.submitted" || kind == "lead.captured"
    requires RulesFor(kind).Some? && 0 <= i < |RulesFor(kind).value| && 0 <= j < |RulesFor(kind).value|
    ensures var a, b := RulesFor(kind).value[i].path, RulesFor(kind).value[j].path;
      |a| > 0 && |b| > 0 && (|a| < |b| ==> !Meet(a[0], b[0]))
  {
    assert "claimant"[1] != "consent"[1];
    assert "lead"[0] != "consent"[0];
  }

  /** In the others all paths have the same length. */
  lemma EvenTables(kind: string, i: int, j: int)
    requires kind != "claim.submitted" && kind != "lead.captured"
    requires RulesFor(kind).Some? && 0 <= i < |RulesFor(kind).value| && 0 <= j < |RulesFor(kind).value|
    ensures |RulesFor(kind).value[i].path| == |RulesFor(kind).value[j].path| > 0
  {
  }

  lemma PatchTypesHaveNoPaths(kind: string)
    requires PatchRulesFor(kind).Some?
    ensures RulesFor(kind) == Some([])
  {
  }

  lemma ListingRulePaths(kind: string, i: int)
    requires IsListingEvent(kind) && RulesFor(kind).Some? && 0 <= i < |RulesFor(kind).value|
    ensures RulesFor(kind).value[i].path == P1("contact") && !Meet(Key("contact"), Key(CUSTOM_FIELDS))
  {
  }

  lemma CoveredIsCutFree(kind: string, granted: set<Scope>, hidden: set<string>)
    ensures [] !in Covered(kind, granted, hidden) && AllCutFree(Covered(kind, granted, hidden))
  {
    hide RulesFor, Fits;
    var ws := Covered(kind, granted, hidden);
    forall v, w | v in ws && w in ws ensures w != [] && !Cuts(v, w) {
      if v in Withheld(kind, granted) {
        var i :| 0 <= i < |RulesFor(kind).value| && RulesFor(kind).value[i].path == v;
        if w in Withheld(kind, granted) {
          var j :| 0 <= j < |RulesFor(kind).value| && RulesFor(kind).value[j].path == w;
          TablesCutFree(kind, i, j);
        } else {
          ListingRulePaths(kind, i);
          assert v[0] == Key("contact") && w[0] == Key(CUSTOM_FIELDS);
        }
      } else if w in Withheld(kind, granted) {
        var j :| 0 <= j < |RulesFor(kind).value| && RulesFor(kind).value[j].path == w;
        ListingRulePaths(kind, j);
      }
    }
  }

  lemma CustomFieldsBelow(v: Json, hidden: set<string>)
    ensures var ts := Tails(HiddenFieldPaths(hidden), CUSTOM_FIELDS);
      [] !in ts && Blank(v, ts) == if v.Obj? then Obj(HideMembers(v.members, hidden)) else v
  {
    var ts := Tails(HiddenFieldPaths(hidden), CUSTOM_FIELDS);
    assert ts == set k | k in hidden :: P1(k) by {
      assert forall k :: k in hidden ==> P2(CUSTOM_FIELDS, k)[1..] == P1(k);
      assert forall k :: k in hidden ==> P2(CUSTOM_FIELDS, k) in HiddenFieldPaths(hidden);
    }
    if v.Obj? {
      forall j | j in v.members ensures Blank(v, ts).members[j] == HideMembers(v.members, hidden)[j] {
        if j in hidden {
          assert P1(j) in ts && P1(j)[1..] == [];
        } else {
          assert Tails(ts, j) == {};
          BlankNothing(v.members[j]);
        }
      }
    }
  }

  lemma CustomFieldsAreBlank(kind: string, d: map<string, Json>, granted: set<Scope>, hidden: set<string>)
    ensures Obj(WithCustomFields(kind, d, granted, hidden)) == Blank(Obj(d), CustomPaths(kind, granted, hidden))
  {
    var ws := CustomPaths(kind, granted, hidden);
    forall k | k in d ensures WithCustomFields(kind, d, granted, hidden)[k] == Blank(Obj(d), ws).members[k] {
      if IsListingEvent(kind) && Contact !in granted && k == CUSTOM_FIELDS {
        CustomFieldsBelow(d[k], hidden);
      } else {
        assert Tails(ws, k) == {};
        BlankNothing(d[k]);
      }
    }
  }

  lemma CustomPlacesAreNulled(kind: string, d: map<string, Json>, granted: set<Scope>, hidden: set<string>)
    requires [] !in CustomPaths(kind, granted, hidden)
    ensures CustomFieldPlaces(kind, d, granted, hidden) == Places(NulledAtAll(Obj(d), CustomPaths(kind, granted, hidden)))
  {
    var ws := CustomPaths(kind, granted, hidden);
    forall p ensures At(p) in CustomFieldPlaces(kind, d, granted, hidden) <==> p in NulledAtAll(Obj(d), ws) {
      hide NulledAt;
      forall w | w in ws ensures p in NulledAt(Obj(d), w) <==> Present(Obj(d), p) && Matches(w, p) {
        ListedIffPresent(Obj(d), w, p);
      }
      if At(p) in CustomFieldPlaces(kind, d, granted, hidden) {
        assert P2(CUSTOM_FIELDS, p[1]) in ws && Present(d[CUSTOM_FIELDS], p[1..]);
        assert Matches(P2(CUSTOM_FIELDS, p[1]), p) && Present(Obj(d), p);
      }
      if p in NulledAtAll(Obj(d), ws) {
        var w :| w in ws && Present(Obj(d), p) && Matches(w, p);
        assert Present(d[CUSTOM_FIELDS], p[1..]) && p[1..][0] == p[1];
        assert p == [CUSTOM_FIELDS, p[1]];
      }
    }
  }

  /** Redaction as one pass over the original document. */
  ghost function OnePass(kind: string, d: map<string, Json>, granted: set<Scope>, hidden: set<string>): Json
  {
    Blank(Obj(WithChanges(kind, d, granted, hidden)), Covered(kind, granted, hidden))
  }

  ghost function OnePassPlaces(kind: string, d: map<string, Json>, granted: set<Scope>, hidden: set<string>): set<Place>
    requires [] !in Covered(kind, granted, hidden)
  {
    Places(NulledAtAll(Obj(d), Covered(kind, granted, hidden))) + PlacesInChanges(kind, d, granted, hidden)
  }

  /** The nulled document and its changes do not meet. */
  lemma StepsCommute(kind: string, d: map<string, Json>, granted: set<Scope>, hidden: set<string>)
    ensures var ws := Withheld(kind, granted);
      NullEach(Obj(WithChanges(kind, d, granted, hidden)), ws).Obj? && NullEach(Obj(d), ws).Obj?
    ensures var ws := Withheld(kind, granted);
      && WithChanges(kind, NullEach(Obj(d), ws).members, granted, hidden)
         == NullEach(Obj(WithChanges(kind, d, granted, hidden)), ws).members
      && PlacesInChanges(kind, NullEach(Obj(d), ws).members, granted, hidden) == PlacesInChanges(kind, d, granted, hidden)
  {
    var ws := Withheld(kind, granted);
    NullEachKeepsObjects(Obj(d), ws);
    NullEachKeepsObjects(Obj(WithChanges(kind, d, granted, hidden)), ws);
    if PatchRulesFor(kind).Some? {
      PatchTypesHaveNoPaths(kind);
    }
  }

  lemma ChangesAreElsewhere(kind: string, d: map<string, Json>, scopes: set<Scope>, granted: set<Scope>, hidden: set<string>, w: Pattern)
    requires w in Covered(kind, granted, hidden) && w != []
    ensures NulledAt(Obj(WithChanges(kind, d, scopes, hidden)), w) == NulledAt(Obj(d), w)
  {
    if PatchRulesFor(kind).Some? {
      PatchTypesHaveNoPaths(kind);
      hide RulesFor;
      assert w[0] == Key(CUSTOM_FIELDS) && !Fits(w[0], "changes");
    }
  }

  /** The custom fields the document lists after the other steps. */
  lemma CustomPlacesOfOriginal(kind: string, d: map<string, Json>, granted: set<Scope>, hidden: set<string>)
    requires [] !in CustomPaths(kind, granted, hidden)
    requires NullEach(Obj(WithChanges(kind, d, granted, hidden)), Withheld(kind, granted)).Obj?
    ensures var patched := NullEach(Obj(WithChanges(kind, d, granted, hidden)), Withheld(kind, granted)).members;
      CustomFieldPlaces(kind, patched, granted, hidden) == Places(NulledAtAll(Obj(d), CustomPaths(kind, granted, hidden)))
  {
    var ws, cs := Withheld(kind, granted), CustomPaths(kind, granted, hidden);
    var changed := Obj(WithChanges(kind, d, granted, hidden));
    CustomPlacesAreNulled(kind, NullEach(changed, ws).members, granted, hidden);
    NullEachIsBlank(changed, ws);
    CoveredIsCutFree(kind, granted, hidden);
    hide CustomPaths, NulledAt, Cuts, WithChanges, CustomFieldPlaces, NullEach, Blank;
    forall w | w in cs ensures NulledAt(NullEach(changed, ws), w) == NulledAt(Obj(d), w) {
      assert CutFree(Covered(kind, granted, hidden), w);
      NulledAtIgnoresBlanks(changed, Elements(ws), w);
      ChangesAreElsewhere(kind, d, granted, granted, hidden, w);
    }
    assert NulledAtAll(NullEach(changed, ws), cs) == NulledAtAll(Obj(d), cs);
  }

  lemma PlacesMatch(kind: string, d: map<string, Json>, granted: set<Scope>, hidden: set<string>)
    requires NullEach(Obj(WithChanges(kind, d, granted, hidden)), Withheld(kind, granted)).Obj?
    ensures [] !in Covered(kind, granted, hidden)
    ensures var ws := Withheld(kind, granted);
      var patched := NullEach(Obj(WithChanges(kind, d, granted, hidden)), ws).members;
      Places(NulledByEach(Obj(d), ws)) + PlacesInChanges(kind, d, granted, hidden) + CustomFieldPlaces(kind, patched, granted, hidden)
        == OnePassPlaces(kind, d, granted, hidden)
  {
    var ws, cs := Withheld(kind, granted), CustomPaths(kind, granted, hidden);
    CoveredIsCutFree(kind, granted, hidden);
    CustomPlacesOfOriginal(kind, d, granted, hidden);
    hide CustomPaths, NulledAt, Cuts, WithChanges, CustomFieldPlaces, PlacesInChanges, NullEach;
    assert AllCutFree(Elements(ws)) by {
      forall w | w in Elements(ws) ensures CutFree(Elements(ws), w) {
        assert CutFree(Covered(kind, granted, hidden), w);
      }
    }
    NulledByEachIsAll(Obj(d), ws);
    assert NulledAtAll(Obj(d), Covered(kind, granted, hidden)) == NulledAtAll(Obj(d), Elements(ws)) + NulledAtAll(Obj(d), cs);
  }

  lemma RedactIsOnePass(e: Envelope, granted: set<Scope>, hidden: set<string>)
    requires !Unclassified(e.kind, granted)
    ensures [] !in Covered(e.kind, granted, hidden)
    ensures Redact(e, granted, hidden).data.Some?
    ensures Obj(Redact(e, granted, hidden).data.value) == OnePass(e.kind, Data(e), granted, hidden)
    ensures Redact(e, granted, hidden).redacted == Some(OnePassPlaces(e.kind, Data(e), granted, hidden))
  {
    var kind, d := e.kind, Data(e);
    var ws, cs := Withheld(kind, granted), CustomPaths(kind, granted, hidden);
    var changed := WithChanges(kind, d, granted, hidden);
    StepsCommute(kind, d, granted, hidden);
    var patched := NullEach(Obj(changed), ws).members;
    NullEachIsBlank(Obj(changed), ws);
    CustomFieldsAreBlank(kind, patched, granted, hidden);
    BlankTwice(Obj(changed), Elements(ws), cs);
    PlacesMatch(kind, d, granted, hidden);
  }

  lemma CoveredShrinks(kind: string, wide: set<Scope>, narrow: set<Scope>, hidden: set<string>)
    requires narrow <= wide
    ensures Covered(kind, wide, hidden) <= Covered(kind, narrow, hidden)
  {
  }

  /** No rule path leads into the changes of a patch event. */
  lemma ChangesUntouched(kind: string, d: map<string, Json>, granted: set<Scope>, hidden: set<string>, again: set<Scope>)
    ensures var ws := Covered(kind, granted, hidden);
      && WithChanges(kind, Blank(Obj(d), ws).members, again, hidden) == Blank(Obj(WithChanges(kind, d, again, hidden)), ws).members
      && PlacesInChanges(kind, Blank(Obj(d), ws).members, again, hidden) == PlacesInChanges(kind, d, again, hidden)
  {
    if PatchRulesFor(kind).Some? && "changes" in d {
      PatchTypesHaveNoPaths(kind);
      var ws := Covered(kind, granted, hidden);
      hide RulesFor, PatchRulesFor, RedactChanges, ChangePlaces;
      assert Tails(ws, "changes") == {} by {
        assert "changes"[1] != CUSTOM_FIELDS[1];
      }
      BlankNothing(d["changes"]);
      BlankNothing(RedactChanges(d["changes"], PatchRulesFor(kind).value, again, hidden));
    }
  }

  lemma WithChangesNarrows(kind: string, d: map<string, Json>, wide: set<Scope>, narrow: set<Scope>, hidden: set<string>)
    requires narrow <= wide
    ensures WithChanges(kind, WithChanges(kind, d, wide, hidden), narrow, hidden) == WithChanges(kind, d, narrow, hidden)
    ensures PlacesInChanges(kind, WithChanges(kind, d, wide, hidden), narrow, hidden) == PlacesInChanges(kind, d, narrow, hidden)
  {
    if PatchRulesFor(kind).Some? && "changes" in d {
      RedactChangesNarrows(d["changes"], PatchRulesFor(kind).value, wide, narrow, hidden);
    }
  }

  lemma OnePassNarrows(kind: string, d: map<string, Json>, wide: set<Scope>, narrow: set<Scope>, hidden: set<string>)
    requires narrow <= wide
    ensures OnePass(kind, d, wide, hidden).Obj?
    ensures OnePass(kind, OnePass(kind, d, wide, hidden).members, narrow, hidden) == OnePass(kind, d, narrow, hidden)
  {
    var ws, vs := Covered(kind, wide, hidden), Covered(kind, narrow, hidden);
    var once := WithChanges(kind, d, wide, hidden);
    ChangesUntouched(kind, once, wide, hidden, narrow);
    WithChangesNarrows(kind, d, wide, narrow, hidden);
    CoveredShrinks(kind, wide, narrow, hidden);
    BlankTwice(Obj(WithChanges(kind, d, narrow, hidden)), ws, vs);
    assert ws + vs == vs;
  }

  lemma OnePassPlacesNarrow(kind: string, d: map<string, Json>, wide: set<Scope>, narrow: set<Scope>, hidden: set<string>)
    requires narrow <= wide && [] !in Covered(kind, narrow, hidden)
    ensures OnePass(kind, d, wide, hidden).Obj?
    ensures OnePassPlaces(kind, OnePass(kind, d, wide, hidden).members, narrow, hidden) == OnePassPlaces(kind, d, narrow, hidden)
  {
    var ws, vs := Covered(kind, wide, hidden), Covered(kind, narrow, hidden);
    var once := WithChanges(kind, d, wide, hidden);
    var shown := OnePass(kind, d, wide, hidden);
    ChangesUntouched(kind, once, wide, hidden, narrow);
    WithChangesNarrows(kind, d, wide, narrow, hidden);
    CoveredShrinks(kind, wide, narrow, hidden);
    CoveredIsCutFree(kind, narrow, hidden);
    assert shown == Obj(shown.members);
    hide Covered, NulledAt, Cuts, WithChanges, PlacesInChanges, Blank;
    forall w | w in vs ensures NulledAt(shown, w) == NulledAt(Obj(d), w) {
      assert CutFree(vs, w);
      NulledAtIgnoresBlanks(Obj(once), ws, w);
      ChangesAreElsewhere(kind, d, wide, narrow, hidden, w);
    }
    assert NulledAtAll(shown, vs) == NulledAtAll(Obj(d), vs);
  }

  /** Redacting for a larger grant and then for a smaller one is redacting for the
      smaller: nothing an earlier pass left changes what a later one shows or lists. */
  lemma NarrowingGrant(e: Envelope, wide: set<Scope>, narrow: set<Scope>, hidden: set<string>)
    requires narrow <= wide
    ensures Redact(Redact(e, wide, hidden), narrow, hidden) == Redact(e, narrow, hidden)
  {
    if !Unclassified(e.kind, narrow) {
      RedactIsOnePass(e, wide, hidden);
      RedactIsOnePass(e, narrow, hidden);
      var once := Redact(e, wide, hidden);
      RedactIsOnePass(once, narrow, hidden);
      OnePassNarrows(e.kind, Data(e), wide, narrow, hidden);
      OnePassPlacesNarrow(e.kind, Data(e), wide, narrow, hidden);
    }
  }

  lemma RedactIdempotent(e: Envelope, granted: set<Scope>, hidden: set<string>)
    ensures Redact(Redact(e, granted, hidden), granted, hidden) == Redact(e, granted, hidden)
  {
    NarrowingGrant(e, granted, granted, hidden);
  }

  // --- what the output depends on ----------------------------------------------------------------

  lemma RedactChangesHidesExactly(a: Json, b: Json, rules: seq<PatchRule>, granted: set<Scope>, hidden: set<string>)
    ensures RedactChanges(a, rules, granted, hidden) == RedactChanges(b, rules, granted, hidden)
      <==> AlikeChanges(a, b, rules, granted, hidden)
  {
    if a.Arr? && b.Arr? {
      hide RedactOp, AlikeOp;
      var x, y := RedactChanges(a, rules, granted, hidden), RedactChanges(b, rules, granted, hidden);
      forall i | 0 <= i < |a.items| && i < |b.items|
        ensures x.items[i] == y.items[i] <==> AlikeOp(a.items[i], b.items[i], rules, granted, hidden)
      {
        RedactOpHidesExactly(a.items[i], b.items[i], rules, granted, hidden);
      }
    }
  }

  /** The member `k` of two envelopes' data differs only in what is withheld. */
  ghost predicate AlikeMember(kind: string, k: string, v: Json, w: Json, granted: set<Scope>, hidden: set<string>)
  {
    var ts := Tails(Covered(kind, granted, hidden), k);
    if PatchRulesFor(kind).Some? && k == "changes" then AlikeChanges(v, w, PatchRulesFor(kind).value, granted, hidden)
    else [] in ts || Agree(v, w, ts)
  }

  ghost predicate AlikeData(kind: string, a: map<string, Json>, b: map<string, Json>, granted: set<Scope>, hidden: set<string>)
  {
    a.Keys == b.Keys && forall k :: k in a ==> AlikeMember(kind, k, a[k], b[k], granted, hidden)
  }

  /** Envelopes that differ only in values the grant does not cover. */
  ghost predicate Alike(a: Envelope, b: Envelope, granted: set<Scope>, hidden: set<string>)
  {
    && a.kind == b.kind && a.rest == b.rest
    && (Unclassified(a.kind, granted) || AlikeData(a.kind, Data(a), Data(b), granted, hidden))
  }

  lemma ChangesHaveNoTails(kind: string, granted: set<Scope>, hidden: set<string>)
    requires PatchRulesFor(kind).Some?
    ensures Tails(Covered(kind, granted, hidden), "changes") == {}
  {
  }

  lemma MemberHidesExactly(kind: string, k: string, a: map<string, Json>, b: map<string, Json>, granted: set<Scope>, hidden: set<string>)
    requires k in a && k in b
    ensures OnePass(kind, a, granted, hidden).Obj? && k in OnePass(kind, a, granted, hidden).members
    ensures OnePass(kind, b, granted, hidden).Obj? && k in OnePass(kind, b, granted, hidden).members
    ensures OnePass(kind, a, granted, hidden).members[k] == OnePass(kind, b, granted, hidden).members[k]
      <==> AlikeMember(kind, k, a[k], b[k], granted, hidden)
  {
    var x, y := WithChanges(kind, a, granted, hidden)[k], WithChanges(kind, b, granted, hidden)[k];
    var ts := Tails(Covered(kind, granted, hidden), k);
    if PatchRulesFor(kind).Some? && k == "changes" {
      ChangesHaveNoTails(kind, granted, hidden);
      BlankNothing(x);
      BlankNothing(y);
      RedactChangesHidesExactly(a[k], b[k], PatchRulesFor(kind).value, granted, hidden);
      hide PatchRulesFor, RedactChanges, AlikeChanges, Covered;
    } else {
      hide PatchRulesFor, RedactChanges, AlikeChanges, Covered;
      BlankHidesExactly(x, y, ts);
    }
  }

  lemma OnePassHidesExactly(kind: string, a: map<string, Json>, b: map<string, Json>, granted: set<Scope>, hidden: set<string>)
    ensures OnePass(kind, a, granted, hidden) == OnePass(kind, b, granted, hidden) <==> AlikeData(kind, a, b, granted, hidden)
  {
    var x, y := OnePass(kind, a, granted, hidden), OnePass(kind, b, granted, hidden);
    assert x.members.Keys == a.Keys && y.members.Keys == b.Keys;
    hide OnePass, AlikeMember;
    forall k | k in a && k in b ensures x.members[k] == y.members[k] <==> AlikeMember(kind, k, a[k], b[k], granted, hidden) {
      MemberHidesExactly(kind, k, a, b, granted, hidden);
    }
    if x == y {
      forall k | k in a ensures AlikeMember(kind, k, a[k], b[k], granted, hidden) {
        assert x.members[k] == y.members[k];
      }
    }
    if AlikeData(kind, a, b, granted, hidden) {
      assert x.members == y.members;
    }
  }

  /** Two envelopes redact to the same thing exactly when they differ only in
      values the grant does not cover: the output depends on nothing withheld, and
      nothing else is lost. */
  lemma RedactHidesExactly(a: Envelope, b: Envelope, granted: set<Scope>, hidden: set<string>)
    ensures Redact(a, granted, hidden) == Redact(b, granted, hidden) <==> Alike(a, b, granted, hidden)
  {
    if a.kind == b.kind && !Unclassified(a.kind, granted) {
      RedactIsOnePass(a, granted, hidden);
      RedactIsOnePass(b, granted, hidden);
      OnePassHidesExactly(a.kind, Data(a), Data(b), granted, hidden);
      OnePassPlacesNarrow(a.kind, Data(a), granted, granted, hidden);
      OnePassPlacesNarrow(a.kind, Data(b), granted, granted, hidden);
      RedactKeepsTheRest(a, granted, hidden);
      RedactKeepsTheRest(b, granted, hidden);
      hide Redact, OnePass, OnePassPlaces, AlikeData;
    }
  }

  lemma RedactKeepsTheRest(e: Envelope, granted: set<Scope>, hidden: set<string>)
    ensures Redact(e, granted, hidden).kind == e.kind && Redact(e, granted, hidden).rest == e.rest
  {
  }

  /** The `redacted` list names a document path exactly when the path is present
      and some rule withholds it. */
  lemma RedactedListsExactly(e: Envelope, granted: set<Scope>, hidden: set<string>, p: seq<string>)
    requires !Unclassified(e.kind, granted)
    ensures Redact(e, granted, hidden).redacted.Some?
    ensures At(p) in Redact(e, granted, hidden).redacted.value
      <==> Present(Obj(Data(e)), p) && exists w :: w in Covered(e.kind, granted, hidden) && Matches(w, p)
  {
    RedactIsOnePass(e, granted, hidden);
    hide Redact, Covered, NulledAtAll, PlacesInChanges, Places;
    ListedIffCovered(Obj(Data(e)), Covered(e.kind, granted, hidden), p);
    ChangesListOps(e.kind, Data(e), granted, hidden, p);
  }

  lemma ListedIffCovered(d: Json, ws: set<Pattern>, p: seq<string>)
    requires [] !in ws
    ensures At(p) in Places(NulledAtAll(d, ws)) <==> Present(d, p) && exists w :: w in ws && Matches(w, p)
  {
    hide NulledAt, Matches, Present;
    forall w | w in ws ensures p in NulledAt(d, w) <==> Present(d, p) && Matches(w, p) {
      ListedIffPresent(d, w, p);
    }
  }

  lemma ChangesListOps(kind: string, d: map<string, Json>, granted: set<Scope>, hidden: set<string>, p: seq<string>)
    ensures At(p) !in PlacesInChanges(kind, d, granted, hidden)
  {
    hide ValueWithheld, MembersWithheld;
  }

  lemma FullGrantKeepsChanges(c: Json, rules: seq<PatchRule>, granted: set<Scope>, hidden: set<string>)
    requires forall s: Scope :: s in granted
    ensures RedactChanges(c, rules, granted, hidden) == c && ChangePlaces(c, rules, granted, hidden) == {}
  {
  }

  lemma FullGrantCoversNothing(kind: string, granted: set<Scope>, hidden: set<string>)
    requires forall s: Scope :: s in granted
    ensures Covered(kind, granted, hidden) == {}
  {
    hide RulesFor;
    assert forall w :: w !in Withheld(kind, granted);
  }

  lemma OnePassShowsAll(kind: string, d: map<string, Json>, granted: set<Scope>, hidden: set<string>)
    requires (forall s: Scope :: s in granted) && Covered(kind, granted, hidden) == {}
    ensures OnePass(kind, d, granted, hidden) == Obj(d) && OnePassPlaces(kind, d, granted, hidden) == {}
  {
    hide Covered, RedactChanges, ChangePlaces;
    if PatchRulesFor(kind).Some? && "changes" in d {
      FullGrantKeepsChanges(d["changes"], PatchRulesFor(kind).value, granted, hidden);
    }
    hide PatchRulesFor;
    assert WithChanges(kind, d, granted, hidden) == d;
    BlankNothing(Obj(d));
  }

  /** A subscriber that holds both scopes gets the data as it was. */
  lemma FullGrantShowsAll(e: Envelope, granted: set<Scope>, hidden: set<string>)
    requires {Contact, Message} <= granted
    ensures Redact(e, granted, hidden) == e.(data := Some(Data(e)), redacted := Some({}))
  {
    forall s: Scope ensures s in granted {
      assert s == Contact || s == Message;
    }
    RedactIsOnePass(e, granted, hidden);
    RedactKeepsTheRest(e, granted, hidden);
    FullGrantCoversNothing(e.kind, granted, hidden);
    OnePassShowsAll(e.kind, Data(e), granted, hidden);
    hide Redact, OnePass, OnePassPlaces;
  }
}
