/** Redaction as it runs: values are nulled one by one in a working copy and each
    place is appended to the list. Every method is proved against `Redaction`. */
module Redactor {
  import opened Prelude
  import opened Json
  import opened Redaction

  ghost function Below(trail: seq<string>, paths: set<seq<string>>): set<Place>
  {
    set p | p in paths :: At(trail + p)
  }

  /** What the key `k` of the node contributes to the list. */
  ghost function KeyPlaces(node: Json, parts: Pattern, trail: seq<string>, k: string): set<Place>
    requires node.Obj? && k in node.members && parts != []
  {
    if |parts| > 1 then Below(trail + [k], NulledAt(node.members[k], parts[1..])) else {At(trail + [k])}
  }

  lemma KeyPlacesAdd(node: Json, parts: Pattern, trail: seq<string>, done: set<string>, all: set<Place>)
    requires node.Obj? && parts != [] && done <= node.members.Keys
    requires forall k :: k in node.members ==> (k in done <==> Fits(parts[0], k))
    requires forall x :: x in all <==> exists k :: k in done && x in KeyPlaces(node, parts, trail, k)
    ensures all == Below(trail, NulledAt(node, parts))
  {
    forall k | k in done ensures forall x :: x in KeyPlaces(node, parts, trail, k) ==> x in Below(trail, NulledAt(node, parts)) {
      forall x | x in KeyPlaces(node, parts, trail, k) ensures x in Below(trail, NulledAt(node, parts)) {
        if |parts| > 1 {
          var p :| p in NulledAt(node.members[k], parts[1..]) && x == At(trail + [k] + p);
          assert [k] + p in NulledAt(node, parts) && trail + [k] + p == trail + ([k] + p);
        } else {
          assert [k] in NulledAt(node, parts);
        }
      }
    }
    forall x | x in Below(trail, NulledAt(node, parts)) ensures x in all {
      var q :| q in NulledAt(node, parts) && x == At(trail + q);
      var k := q[0];
      assert k in done;
      if |parts| > 1 {
        var j, p :| j in node.members && p in NulledAt(node.members[j], parts[1..]) && q == [j] + p;
        assert trail + q == trail + [j] + p;
      }
      assert x in KeyPlaces(node, parts, trail, k);
    }
  }

  method NullAt(node: Json, parts: Pattern, trail: seq<string>) returns (out: Json, redacted: seq<Place>)
    requires parts != []
    ensures out == NullPath(node, parts)
    ensures Elements(redacted) == Below(trail, NulledAt(node, parts))
    decreases |parts|
  {
    out, redacted := node, [];
    if !node.Obj? {
      return;
    }
    var keys := set k | k in node.members && Fits(parts[0], k);
    var todo := keys;
    while todo != {}
      invariant todo <= keys
      invariant out.Obj? && out.members.Keys == node.members.Keys
      invariant forall k :: k in node.members ==>
        out.members[k] == if k in keys - todo then NullPath(node, parts).members[k] else node.members[k]
      invariant forall x :: x in Elements(redacted) <==> exists k :: k in keys - todo && x in KeyPlaces(node, parts, trail, k)
    {
      var k :| k in todo;
      ghost var before := Elements(redacted);
      if |parts| > 1 {
        var below, more := NullAt(node.members[k], parts[1..], trail + [k]);
        out := Obj(out.members[k := below]);
        redacted := redacted + more;
        assert Elements(redacted) == before + Elements(more);
      } else {
        out := Obj(out.members[k := Null]);
        redacted := redacted + [At(trail + [k])];
        assert Elements(redacted) == before + {At(trail + [k])};
      }
      assert Elements(redacted) == before + KeyPlaces(node, parts, trail, k);
      todo := todo - {k};
    }
    assert out.members == NullPath(node, parts).members;
    KeyPlacesAdd(node, parts, trail, keys, Elements(redacted));
  }

  lemma BelowTheRoot(paths: set<seq<string>>)
    ensures Below([], paths) == Places(paths)
  {
    assert forall p: seq<string> :: p in paths ==> [] + p == p;
  }

  /** The ungranted rule paths, one after another. */
  method NullRules(d: Json, ws: seq<Pattern>) returns (out: Json, redacted: seq<Place>)
    requires [] !in ws
    ensures out == NullEach(d, ws)
    ensures Elements(redacted) == Places(NulledByEach(d, ws))
  {
    out, redacted := d, [];
    for i := 0 to |ws|
      invariant out == NullEach(d, ws[..i])
      invariant Elements(redacted) == Places(NulledByEach(d, ws[..i]))
    {
      assert ws[..i + 1][..i] == ws[..i];
      var more: seq<Place>;
      ghost var before, was := Elements(redacted), out;
      out, more := NullAt(out, ws[i], []);
      redacted := redacted + more;
      assert Elements(redacted) == before + Elements(more);
      BelowTheRoot(NulledAt(was, ws[i]));
    }
    assert ws[..|ws|] == ws;
  }

  method AnyWithheld(path: string, rules: seq<PatchRule>, granted: set<Scope>) returns (withheld: bool)
    ensures withheld == UnderRule(path, rules, granted)
  {
    for i := 0 to |rules|
      invariant forall j :: 0 <= j < i ==> !(Under(path, rules[j].prefix) && rules[j].scope !in granted)
    {
      if Under(path, rules[i].prefix) && rules[i].scope !in granted {
        return true;
      }
    }
    return false;
  }

  /** One operation of the patch. */
  method RedactOne(op: Json, index: nat, rules: seq<PatchRule>, granted: set<Scope>, hidden: set<string>)
    returns (out: Json, redacted: set<Place>)
    ensures out == RedactOp(op, rules, granted, hidden)
    ensures redacted == OpPlaces(op, index, rules, granted, hidden)
  {
    out, redacted := op, {};
    if !op.Obj? || "value" !in op.members {
      return;
    }
    var path := PathText(op.members);
    var withheld := AnyWithheld(path, rules, granted);
    if !withheld && Contact !in granted && hidden != {} {
      if path == "/custom_fields" && op.members["value"].Obj? {
        var fields := op.members["value"].members;
        out := Obj(op.members["value" := Obj(HideMembers(fields, hidden))]);
        redacted := set k | k in fields && k in hidden :: OpField(index, k);
      } else if "/custom_fields/" <= path {
        withheld := BeforeSlash(path[|"/custom_fields/"|..]) in hidden;
      }
    }
    if withheld {
      out := Obj(op.members["value" := Null]);
      redacted := {OpValue(index)};
    }
    if hidden == {} && !UnderRule(path, rules, granted) {
      NothingHidden(op, index, rules, granted);
    }
  }

  lemma NothingHidden(op: Json, index: nat, rules: seq<PatchRule>, granted: set<Scope>)
    requires op.Obj? && "value" in op.members && !UnderRule(PathText(op.members), rules, granted)
    ensures RedactOp(op, rules, granted, {}) == op && OpPlaces(op, index, rules, granted, {}) == {}
  {
    if op.members["value"].Obj? {
      var v := op.members["value"].members;
      assert HideMembers(v, {}) == v;
    }
  }

  method RedactPatch(changes: Json, rules: seq<PatchRule>, granted: set<Scope>, hidden: set<string>)
    returns (out: Json, redacted: set<Place>)
    ensures out == RedactChanges(changes, rules, granted, hidden)
    ensures redacted == ChangePlaces(changes, rules, granted, hidden)
  {
    out, redacted := changes, {};
    if !changes.Arr? {
      return;
    }
    hide RedactOp, OpPlaces;
    var ops := changes.items;
    for i := 0 to |ops|
      invariant |ops| == |changes.items|
      invariant forall j :: 0 <= j < i ==> ops[j] == RedactOp(changes.items[j], rules, granted, hidden)
      invariant forall j :: i <= j < |ops| ==> ops[j] == changes.items[j]
      invariant redacted == set j: nat, p | 0 <= j < i && p in OpPlaces(changes.items[j], j, rules, granted, hidden) :: p
    {
      var op, more := RedactOne(ops[i], i, rules, granted, hidden);
      ops := ops[i := op];
      redacted := redacted + more;
    }
    out := Arr(ops);
  }

  method RedactEnvelope(e: Envelope, granted: set<Scope>, hidden: set<string>) returns (out: Envelope)
    ensures out == Redact(e, granted, hidden)
  {
    if RulesFor(e.kind).None? && e.kind !in NO_PII && !({Contact, Message} <= granted) {
      return e.(data := Some(map[]), redacted := Some({Everything}));
    }
    var d := if e.data.Some? then e.data.value else map[];
    var ws := Withheld(e.kind, granted);
    NullEachKeepsObjects(Obj(d), ws);
    var nulled, places := NullRules(Obj(d), ws);
    hide RulesFor, PatchRulesFor, RedactChanges, ChangePlaces, NullEach, NulledByEach;
    var data := nulled.members;
    var redacted := set p | p in places;
    if PatchRulesFor(e.kind).Some? && "changes" in data {
      var changes, more := RedactPatch(data["changes"], PatchRulesFor(e.kind).value, granted, hidden);
      data := data["changes" := changes];
      redacted := redacted + more;
    }
    if IsListingEvent(e.kind) && Contact !in granted && CUSTOM_FIELDS in data && data[CUSTOM_FIELDS].Obj? {
      var fields := data[CUSTOM_FIELDS].members;
      data := data[CUSTOM_FIELDS := Obj(HideMembers(fields, hidden))];
      redacted := redacted + set k | k in fields && k in hidden :: At([CUSTOM_FIELDS, k]);
    }
    ghost var patched := WithChanges(e.kind, nulled.members, granted, hidden);
    assert data == WithCustomFields(e.kind, patched, granted, hidden);
    assert redacted == Elements(places) + PlacesInChanges(e.kind, nulled.members, granted, hidden)
                       + CustomFieldPlaces(e.kind, patched, granted, hidden);
    out := e.(data := Some(data), redacted := Some(redacted));
  }
}
