/** What redaction withholds of a patch, told by the tokens of each operation's
    pointer, and what it leaves of the diff of two listings
    (audit/redaction.py:74-80, 138-160; directory/patch.py:72-110). */
module PatchPrivacy {
  import opened Prelude
  import opened Json
  import opened Patch
  import opened PatchLaws
  import opened Redaction
  import opened RedactionLaws

  // --- the pieces of a pointer --------------------------------------------------------------

  /** `path.split("/")`. */
  function Pieces(s: string): (r: seq<string>)
    ensures r != [] && r[0] == BeforeSlash(s)
    decreases |s|
  {
    SegmentIsPrefix(s);
    var k := BeforeSlash(s);
    if |k| == |s| then [s] else [k] + Pieces(s[|k| + 1..])
  }

  lemma {:induction false} SegmentBeforeJoin(q: string, rest: string)
    ensures BeforeSlash(q + "/" + rest) == BeforeSlash(q)
    decreases |q|
  {
    var s := q + "/" + rest;
    if q != "" && q[0] != '/' {
      assert s[0] == q[0] && s[1..] == q[1..] + "/" + rest;
      SegmentBeforeJoin(q[1..], rest);
    } else if q == "" {
      assert s[0] == '/';
    }
  }

  /** Joining by a slash joins the pieces. */
  lemma {:induction false} PiecesJoin(q: string, rest: string)
    ensures Pieces(q + "/" + rest) == Pieces(q) + Pieces(rest)
    decreases |q|
  {
    var s, k := q + "/" + rest, BeforeSlash(q);
    SegmentBeforeJoin(q, rest);
    SegmentIsPrefix(q);
    if |k| == |q| {
      assert s[|k| + 1..] == rest;
    } else {
      assert s[|k| + 1..] == q[|k| + 1..] + "/" + rest;
      PiecesJoin(q[|k| + 1..], rest);
    }
  }

  lemma PiecesUnfold(s: string) returns (k: string, rest: string)
    ensures k == BeforeSlash(s) && |k| <= |s|
    ensures |k| == |s| ==> s == k && Pieces(s) == [k]
    ensures |k| < |s| ==> |rest| < |s| && s == k + "/" + rest && Pieces(s) == [k] + Pieces(rest)
  {
    SegmentIsPrefix(s);
    k := BeforeSlash(s);
    rest := if |k| < |s| then s[|k| + 1..] else "";
  }

  lemma PrefixTail(k: string, j: string, a: seq<string>, b: seq<string>)
    requires [k] + a <= [j] + b
    ensures k == j && a <= b
  {
    assert ([k] + a)[0] == ([j] + b)[0];
    assert a == ([k] + a)[1..] && b == ([j] + b)[1..];
  }

  lemma {:induction false} PiecesPrefix(q: string, path: string)
    requires Pieces(q) <= Pieces(path)
    ensures path == q || q + "/" <= path
    decreases |q|
  {
    var k, q' := PiecesUnfold(q);
    var j, p' := PiecesUnfold(path);
    hide *;
    if |k| < |q| && |j| < |path| {
      PrefixTail(k, j, Pieces(q'), Pieces(p'));
      PiecesPrefix(q', p');
    } else if |k| == |q| && |j| < |path| {
      PrefixTail(k, j, [], Pieces(p'));
    } else if |k| == |q| {
      PrefixTail(k, j, [], []);
    }
  }

  /** A pointer lies within another when its pieces begin with the other's. */
  predicate Within(path: string, prefix: string)
  {
    prefix == "/" || Pieces(prefix) <= Pieces(path)
  }

  lemma UnderIsWithin(path: string, prefix: string)
    ensures Under(path, prefix) <==> Within(path, prefix)
  {
    if prefix != "/" {
      if prefix + "/" <= path {
        var rest := path[|prefix| + 1..];
        assert path == prefix + "/" + rest;
        PiecesJoin(prefix, rest);
      }
      if Pieces(prefix) <= Pieces(path) {
        PiecesPrefix(prefix, path);
      }
    }
  }

  lemma PlainPieces(k: string)
    requires '/' !in k
    ensures Pieces(k) == [k] && Pieces("/" + k) == ["", k]
  {
    SegmentStops(k, "");
    assert k + "" == k;
    PiecesJoin("", k);
    assert "" + "/" + k == "/" + k;
  }

  // --- one operation ---------------------------------------------------------------------------

  /** The pointer lies within a prefix whose scope is not granted. */
  ghost predicate Reached(path: string, rules: seq<PatchRule>, granted: set<Scope>)
  {
    exists j :: 0 <= j < |rules| && rules[j].scope !in granted && Within(path, rules[j].prefix)
  }

  datatype Fate = Whole | NoValue | NoHiddenMembers

  /** What happens to an operation: within a withheld prefix, or on a hidden custom
      field, it loses its value; on all custom fields, the hidden ones among them. */
  ghost function FateOf(path: string, value: Json, rules: seq<PatchRule>, granted: set<Scope>, hidden: set<string>): Fate
  {
    var p := Pieces(path);
    if Reached(path, rules, granted) then NoValue
    else if Contact in granted then Whole
    else if |p| >= 3 && p[0] == "" && p[1] == "custom_fields" && p[2] in hidden then NoValue
    else if p == ["", "custom_fields"] && value.Obj? then NoHiddenMembers
    else Whole
  }

  lemma ReachedIsUnderRule(path: string, rules: seq<PatchRule>, granted: set<Scope>)
    ensures UnderRule(path, rules, granted) <==> Reached(path, rules, granted)
  {
    forall j | 0 <= j < |rules| ensures Under(path, rules[j].prefix) <==> Within(path, rules[j].prefix) {
      UnderIsWithin(path, rules[j].prefix);
    }
  }

  /** The pointers of a top-level member `w` and of what lies below it. */
  lemma MemberPieces(w: string, path: string)
    requires '/' !in w
    ensures Pieces(path) == ["", w] <==> path == "/" + w
    ensures var p := Pieces(path); "/" + w + "/" <= path <==> |p| >= 3 && p[0] == "" && p[1] == w
    ensures "/" + w + "/" <= path ==> Pieces(path)[2] == BeforeSlash(path[|w| + 2..])
  {
    hide BeforeSlash, Pieces;
    PlainPieces(w);
    var p := Pieces(path);
    if "/" + w + "/" <= path {
      var rest := path[|w| + 2..];
      assert path == "/" + w + "/" + rest;
      PiecesJoin("/" + w, rest);
    } else if |p| >= 2 && p[0] == "" && p[1] == w {
      assert ["", w] <= p;
      PiecesPrefix("/" + w, path);
    }
  }

  lemma CustomFieldPieces(path: string)
    ensures Pieces(path) == ["", "custom_fields"] <==> path == "/custom_fields"
    ensures var p := Pieces(path);
      StartsWith(path, "/custom_fields/") <==> |p| >= 3 && p[0] == "" && p[1] == "custom_fields"
    ensures StartsWith(path, "/custom_fields/") ==> Pieces(path)[2] == BeforeSlash(path[|"/custom_fields/"|..])
  {
    var w := "custom_fields";
    assert '/' !in w && "/" + w == "/custom_fields" && "/" + w + "/" == "/custom_fields/" && |w| + 2 == |"/custom_fields/"|;
    hide *;
    MemberPieces(w, path);
    assert StartsWith(path, "/custom_fields/") <==> "/" + w + "/" <= path by { StartsWithIsPrefix(path, "/" + w + "/"); }
  }

  lemma StartsWithIsPrefix(s: string, prefix: string)
    ensures StartsWith(s, prefix) <==> prefix <= s
  {
  }

  lemma FateIsWithheld(path: string, value: Json, rules: seq<PatchRule>, granted: set<Scope>, hidden: set<string>)
    ensures var fate := FateOf(path, value, rules, granted, hidden);
      && (fate == NoValue <==> ValueWithheld(path, rules, granted, hidden))
      && (fate == NoHiddenMembers <==>
            !ValueWithheld(path, rules, granted, hidden) && MembersWithheld(path, rules, granted) && value.Obj?)
  {
    hide UnderRule, Reached, Pieces, StartsWith, BeforeSlash;
    ReachedIsUnderRule(path, rules, granted);
    CustomFieldPieces(path);
  }

  /** An operation that carries a value meets its fate, and the list says so. */
  lemma OpMeetsFate(op: Json, i: nat, rules: seq<PatchRule>, granted: set<Scope>, hidden: set<string>)
    requires op.Obj? && "value" in op.members
    ensures var out, places, value := RedactOp(op, rules, granted, hidden), OpPlaces(op, i, rules, granted, hidden), op.members["value"];
      match FateOf(PathText(op.members), value, rules, granted, hidden)
      case Whole => out == op && places == {}
      case NoValue => out == Obj(op.members["value" := Null]) && places == {OpValue(i)}
      case NoHiddenMembers =>
        && out.Obj? && out.members.Keys == op.members.Keys && out.members["value"].Obj?
        && (forall k :: k in op.members && k != "value" ==> out.members[k] == op.members[k])
        && out.members["value"].members.Keys == value.members.Keys
        && (forall k :: k in value.members ==> out.members["value"].members[k] == if k in hidden then Null else value.members[k])
        && (forall x :: x in places <==> x.OpField? && x.index == i && x.key in value.members && x.key in hidden)
  {
    hide FateOf, ValueWithheld, MembersWithheld, PathText;
    FateIsWithheld(PathText(op.members), op.members["value"], rules, granted, hidden);
  }

  lemma ValuelessOpIsWhole(op: Json, i: nat, rules: seq<PatchRule>, granted: set<Scope>, hidden: set<string>)
    requires !op.Obj? || "value" !in op.members
    ensures RedactOp(op, rules, granted, hidden) == op && OpPlaces(op, i, rules, granted, hidden) == {}
  {
  }

  // --- the two patch events, by token ------------------------------------------------------------

  lemma {:induction false} PointersHaveTokens(path: string)
    requires path == "" || path[0] == '/'
    ensures Tokens(path).Some? && (path != "" ==> Tokens(path).value != [])
    decreases |path|
  {
    if path != "" {
      var rest := path[1..];
      SegmentIsPrefix(rest);
      PointersHaveTokens(rest[|BeforeSlash(rest)|..]);
    }
  }

  /** Unescaping to a word without escapes changes nothing. */
  lemma {:induction false} UnescapesToPlain(s: string, w: string)
    requires '~' !in w && '/' !in w
    ensures Unescape(s) == w <==> s == w
    decreases |s|
  {
    if s == w {
      assert forall i :: 0 <= i < |w| ==> w[i] in w;
      UnescapeSafe(w);
    }
    if Unescape(s) == w && s != "" {
      assert w != "" && w[0] in w;
      assert w == [s[0]] + Unescape(s[1..]);
      assert w[1..] == Unescape(s[1..]) && '~' !in w[1..] && '/' !in w[1..];
      UnescapesToPlain(s[1..], w[1..]);
      assert s == [s[0]] + s[1..];
    }
  }

  /** The pointer's first token is `w`. */
  predicate FirstToken(path: string, w: string)
  {
    Tokens(path).Some? && Tokens(path).value != [] && Tokens(path).value[0] == w
  }

  lemma FirstTokenIsPiece(path: string, w: string)
    requires '~' !in w && '/' !in w
    ensures FirstToken(path, w) <==> ["", w] <= Pieces(path)
  {
    if path != "" && path[0] == '/' {
      PointersHaveTokens(path);
      var rest := path[1..];
      SegmentIsPrefix(rest);
      assert path == "" + "/" + rest;
      PiecesJoin("", rest);
      assert Pieces("") == [""];
      assert Pieces(path) == [""] + Pieces(rest) && Pieces(path)[1] == BeforeSlash(rest);
      UnescapesToPlain(BeforeSlash(rest), w);
    } else if path != "" {
      assert BeforeSlash(path) != "";
    }
  }

  /** What needs the contact scope in the changes of an event. */
  predicate PrivateOp(kind: string, path: string)
  {
    kind == "tenant.settings_changed" || (kind == "listing.updated" && FirstToken(path, "contact"))
  }

  lemma PrivateIsWithin(kind: string, path: string)
    requires kind == "listing.updated" || kind == "tenant.settings_changed"
    ensures PrivateOp(kind, path) <==> Within(path, if kind == "listing.updated" then "/contact" else "/")
  {
    assert "/" + "contact" == "/contact" && |"/contact"| != |"/"| && '/' !in "contact" && '~' !in "contact";
    hide Pieces, FirstToken;
    FirstTokenIsPiece(path, "contact");
    PlainPieces("contact");
  }

  lemma PatchTables(kind: string)
    requires PatchRulesFor(kind).Some?
    ensures kind == "listing.updated" || kind == "tenant.settings_changed"
    ensures PatchRulesFor(kind).value == [PatchRule(if kind == "listing.updated" then "/contact" else "/", Contact)]
  {
  }

  lemma PrivateIsReached(kind: string, path: string, granted: set<Scope>)
    requires PatchRulesFor(kind).Some?
    ensures Reached(path, PatchRulesFor(kind).value, granted) <==> PrivateOp(kind, path) && Contact !in granted
  {
    hide PatchRulesFor, Within, PrivateOp;
    PatchTables(kind);
    PrivateIsWithin(kind, path);
    var rules := PatchRulesFor(kind).value;
    assert |rules| == 1 && rules[0].scope == Contact;
  }

  /** The changes of a patch event. */
  predicate HasChanges(e: Envelope)
  {
    (e.kind == "listing.updated" || e.kind == "tenant.settings_changed") && "changes" in Data(e) && Data(e)["changes"].Arr?
  }

  function Changes(e: Envelope): seq<Json>
    requires HasChanges(e)
  {
    Data(e)["changes"].items
  }

  lemma RedactedChanges(e: Envelope, granted: set<Scope>, hidden: set<string>)
    requires HasChanges(e)
    ensures var out := Redact(e, granted, hidden);
      && HasChanges(out) && |Changes(out)| == |Changes(e)| && out.redacted.Some? && PatchRulesFor(e.kind).Some?
      && forall i :: 0 <= i < |Changes(e)| ==>
           && Changes(out)[i] == RedactOp(Changes(e)[i], PatchRulesFor(e.kind).value, granted, hidden)
           && (OpValue(i) in out.redacted.value <==>
                 OpValue(i) in OpPlaces(Changes(e)[i], i, PatchRulesFor(e.kind).value, granted, hidden))
  {
    var rules := PatchRulesFor(e.kind).value;
    assert RulesFor(e.kind) == Some([]) && Withheld(e.kind, granted) == [];
    var d := Data(e);
    assert NullEach(Obj(d), []).members == d;
    assert NulledByEach(Obj(d), []) == {};
    hide RulesFor, PatchRulesFor, RedactOp, NullEach, NulledByEach;
    var out := Redact(e, granted, hidden);
    assert out.data.value["changes"] == RedactChanges(d["changes"], rules, granted, hidden);
    forall i | 0 <= i < |Changes(e)|
      ensures OpValue(i) in out.redacted.value <==> OpValue(i) in OpPlaces(Changes(e)[i], i, rules, granted, hidden)
    {
      assert OpValue(i) in out.redacted.value <==> OpValue(i) in ChangePlaces(d["changes"], rules, granted, hidden);
      OwnPlaces(d["changes"].items, i, OpValue(i), rules, granted, hidden);
    }
  }

  /** An operation's places carry its own index. */
  lemma OwnPlaces(items: seq<Json>, i: nat, x: Place, rules: seq<PatchRule>, granted: set<Scope>, hidden: set<string>)
    requires i < |items| && x == OpValue(i)
    ensures x in ChangePlaces(Arr(items), rules, granted, hidden) <==> x in OpPlaces(items[i], i, rules, granted, hidden)
  {
    hide ValueWithheld, MembersWithheld, PathText;
  }

  /** The fates by token. */
  lemma FatesByToken(kind: string, path: string, value: Json, granted: set<Scope>, hidden: set<string>)
    requires PatchRulesFor(kind).Some?
    ensures var fate := FateOf(path, value, PatchRulesFor(kind).value, granted, hidden);
      && (PrivateOp(kind, path) && Contact !in granted ==> fate == NoValue)
      && (Contact in granted || (!PrivateOp(kind, path) && !FirstToken(path, "custom_fields")) ==> fate == Whole)
  {
    PrivateIsReached(kind, path, granted);
    FirstTokenIsPiece(path, "custom_fields");
    hide PatchRulesFor, Reached, PrivateOp, FirstToken, Pieces;
  }

  /** Without the contact scope, an operation on the contact, or any change of the
      settings, is announced without its value and is listed; an operation elsewhere
      comes through whole and is not. With the scope every operation comes through. */
  lemma PrivateOpsLoseTheirValue(e: Envelope, granted: set<Scope>, hidden: set<string>, i: nat)
    requires HasChanges(e) && i < |Changes(e)| && Changes(e)[i].Obj? && "value" in Changes(e)[i].members
    ensures var out := Redact(e, granted, hidden);
      && HasChanges(out) && |Changes(out)| == |Changes(e)| && out.redacted.Some?
    ensures var out, op := Redact(e, granted, hidden), Changes(e)[i]; var path := PathText(op.members);
      && (PrivateOp(e.kind, path) && Contact !in granted ==>
            Changes(out)[i] == Obj(op.members["value" := Null]) && OpValue(i) in out.redacted.value)
      && (Contact in granted || (!PrivateOp(e.kind, path) && !FirstToken(path, "custom_fields")) ==>
            Changes(out)[i] == op && OpValue(i) !in out.redacted.value)
  {
    hide Redact, RedactOp, OpPlaces, PatchRulesFor, Reached, PrivateOp, FirstToken, PathText, HasChanges, Changes, FateOf;
    var op := Changes(e)[i];
    RedactedChanges(e, granted, hidden);
    OpMeetsFate(op, i, PatchRulesFor(e.kind).value, granted, hidden);
    FatesByToken(e.kind, PathText(op.members), op.members["value"], granted, hidden);
  }

  lemma FieldFate(k: string, value: Json, granted: set<Scope>, hidden: set<string>)
    requires Contact !in granted && '/' !in k
    ensures var rules := [PatchRule("/contact", Contact)];
      FateOf("/custom_fields/" + k, value, rules, granted, hidden) == if k in hidden then NoValue else Whole
  {
    var w, path := "custom_fields", "/custom_fields/" + k;
    assert '/' !in w && "/" + w + "/" == "/custom_fields/" && "custom_fields"[1] != "contact"[1] && "/" + "contact" == "/contact";
    assert path == "/" + w + "/" + k && path[|w| + 2..] == k;
    hide Pieces, BeforeSlash, StartsWith;
    PlainPieces(k);
    PlainPieces("contact");
    MemberPieces(w, path);
    FieldIsElsewhere(path, granted);
  }

  lemma PrefixShares(a: seq<string>, b: seq<string>)
    requires |a| == 2
    ensures a <= b ==> |b| >= 2 && a[1] == b[1]
  {
  }

  lemma FieldIsElsewhere(path: string, granted: set<Scope>)
    requires |Pieces(path)| >= 2 && Pieces(path)[1] == "custom_fields" && Pieces("/contact") == ["", "contact"]
    ensures !Reached(path, [PatchRule("/contact", Contact)], granted)
  {
    hide Pieces;
    assert |"custom_fields"| != |"contact"| && |"/contact"| != |"/"|;
    PrefixShares(Pieces("/contact"), Pieces(path));
  }

  /** A custom field the operator hid loses its value where a patch names it; a public
      one keeps it. */
  lemma HiddenFieldOps(e: Envelope, granted: set<Scope>, hidden: set<string>, i: nat, k: string)
    requires HasChanges(e) && i < |Changes(e)| && Changes(e)[i].Obj? && "value" in Changes(e)[i].members
    requires e.kind == "listing.updated" && Contact !in granted && '/' !in k
    requires PathText(Changes(e)[i].members) == "/custom_fields/" + k
    ensures var out := Redact(e, granted, hidden);
      && HasChanges(out) && |Changes(out)| == |Changes(e)| && out.redacted.Some?
    ensures var out, op := Redact(e, granted, hidden), Changes(e)[i];
      && Changes(out)[i] == (if k in hidden then Obj(op.members["value" := Null]) else op)
      && (OpValue(i) in out.redacted.value <==> k in hidden)
  {
    assert PatchRulesFor(e.kind) == Some([PatchRule("/contact", Contact)]);
    hide Redact, RedactOp, OpPlaces, PatchRulesFor, Reached, PathText, HasChanges, Changes, FateOf;
    var op := Changes(e)[i];
    RedactedChanges(e, granted, hidden);
    OpMeetsFate(op, i, PatchRulesFor(e.kind).value, granted, hidden);
    FieldFate(k, op.members["value"], granted, hidden);
  }
}
