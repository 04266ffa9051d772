/** Exactly when a diff leads to the new document. Keys go into pointers unescaped, so
    a pointer may lead elsewhere; then some member that changed is never reached. */
module PatchExact {
  import opened Prelude
  import opened Json
  import opened Patch
  import opened PatchLaws

  // --- reading a pointer back never makes it longer -----------------------------------------

  lemma {:induction false} UnescapeShrinks(s: string)
    ensures |Unescape(s)| <= |s|
    ensures |Unescape(s)| == |s| ==> Unescape(s) == s
    decreases |s|
  {
    if |s| >= 2 && s[0] == '~' && (s[1] == '1' || s[1] == '0') {
      UnescapeShrinks(s[2..]);
    } else if s != "" {
      UnescapeShrinks(s[1..]);
      assert s == [s[0]] + s[1..];
    }
  }

  lemma {:induction false} EscapeShrinks(s: string)
    requires !NoEscape(s)
    ensures |Unescape(s)| < |s|
    decreases |s|
  {
    if |s| >= 2 && s[0] == '~' && (s[1] == '1' || s[1] == '0') {
      UnescapeShrinks(s[2..]);
    } else {
      var i :| 0 < i < |s| && s[i - 1] == '~' && (s[i] == '0' || s[i] == '1');
      var tail := s[1..];
      assert i > 1 && tail[i - 2] == '~' && tail[i - 1] == s[i];
      assert !NoEscape(tail);
      EscapeShrinks(tail);
    }
  }

  /** The tokens, joined without escaping. */
  function Join(tokens: seq<string>): string
  {
    if tokens == [] then "" else "/" + tokens[0] + Join(tokens[1..])
  }

  lemma {:induction false} JoinGrows(d: seq<string>, t: seq<string>)
    requires d <= t
    ensures |Join(d)| <= |Join(t)| && (|Join(d)| == |Join(t)| ==> d == t)
    decreases |d|
  {
    if d != [] {
      assert t[0] == d[0] && d[1..] <= t[1..];
      JoinGrows(d[1..], t[1..]);
      assert d == [d[0]] + d[1..] && t == [t[0]] + t[1..];
    }
  }

  lemma {:induction false} TokensSome(p: string)
    requires p == "" || p[0] == '/'
    ensures Tokens(p).Some? && (p != "" ==> Tokens(p).value != [])
    decreases |p|
  {
    if p != "" {
      var rest := p[1..];
      SegmentIsPrefix(rest);
      TokensSome(rest[|BeforeSlash(rest)|..]);
    }
  }

  lemma SplitPointer(p: string) returns (seg: string, tail: string)
    requires Tokens(p).Some? && p != ""
    ensures p == "/" + seg + tail && |tail| < |p|
    ensures Tokens(tail).Some? && Tokens(p).value == [Unescape(seg)] + Tokens(tail).value
  {
    var rest := p[1..];
    seg := BeforeSlash(rest);
    SegmentIsPrefix(rest);
    tail := rest[|seg|..];
    hide BeforeSlash, Unescape;
    assert rest == seg + tail && p == "/" + rest;
  }

  lemma {:induction false} TokensShrink(p: string)
    requires Tokens(p).Some?
    ensures var j := Join(Tokens(p).value); |j| <= |p| && (|j| == |p| ==> j == p)
    decreases |p|
  {
    if p != "" {
      var seg, tail := SplitPointer(p);
      TokensShrink(tail);
      UnescapeShrinks(seg);
      JoinCons(Unescape(seg), Tokens(tail).value);
      hide *;
    }
  }

  lemma JoinCons(k: string, t: seq<string>)
    ensures Join([k] + t) == "/" + k + Join(t)
  {
    assert ([k] + t)[1..] == t;
  }

  // --- safe keys are exactly those that read back -------------------------------------------

  lemma OwnTopIsSafe(k: string)
    requires Tokens(TopPointer(k)) == Some([k])
    ensures SafeKey(k)
  {
    var p := TopPointer(k);
    assert p[1..] == k;
    SegmentIsPrefix(k);
    var seg := BeforeSlash(k);
    var tail := k[|seg|..];
    TokensSome(tail);
    assert Tokens(p).value == [Unescape(seg)] + Tokens(tail).value;
    assert Tokens(p).value[0] == Unescape(seg) && |Tokens(tail).value| == 0;
    assert tail == "" && seg == k;
    if !NoEscape(k) {
      EscapeShrinks(k);
    }
  }

  lemma OwnNestedIsSafe(k: string, j: string)
    requires Plain(k) && SafeKey(k) && Tokens(NestedPointer(k, j)) == Some([k, j])
    ensures SafeKey(j)
  {
    TokensSome(TopPointer(j));
    TokensStep(k, TopPointer(j));
    assert "/" + k + TopPointer(j) == NestedPointer(k, j);
    hide Tokens, SafeKey;
    var below := Tokens(TopPointer(j)).value;
    assert [k] + below == [k, j];
    assert below == ([k] + below)[1..] == [j];
    OwnTopIsSafe(j);
  }

  // --- what an operation can change -----------------------------------------------------------

  /** The member at `d` differs: a key, or a key and one below an opened object. */
  ghost predicate Changed(before: Json, after: Json, d: seq<string>)
    requires before.Obj? && after.Obj?
  {
    || (|d| == 1 && ChangedTop(before, after, d[0]))
    || (|d| == 2 && ChangedNested(before, after, d[0], d[1]))
  }

  /** The operation's pointer leads to `d` or below it. */
  predicate Reaches(op: Op, d: seq<string>)
  {
    Tokens(op.path).Some? && d <= Tokens(op.path).value
  }

  /** The operations of a diff carry the joined keys of a member that changed. */
  lemma DiffPath(before: Json, after: Json, op: Op) returns (d: seq<string>)
    requires before.Obj? && after.Obj? && op in Diff(before, after)
    ensures Changed(before, after, d) && op.path == Join(d)
  {
    DiffMembers(before, after, op);
    hide Diff, TopOps, NestedOps;
    if k :| !Opens(before, after, k) && op in TopOps(before, after, k) {
      d := [k];
      TopPath(before, after, k, op);
    } else {
      var k, j :| Opens(before, after, k) && op in NestedOps(before, after, k, j);
      d := [k, j];
      NestedPath(before, after, k, j, op);
    }
  }

  lemma TopPath(before: Json, after: Json, k: string, op: Op)
    requires before.Obj? && after.Obj? && !Opens(before, after, k) && op in TopOps(before, after, k)
    ensures ChangedTop(before, after, k) && op.path == Join([k])
  {
    LeafPath(TopPointer(k), Slot(before.members, k), Slot(after.members, k), op);
    assert [k][1..] == [];
    assert Join([k]) == "/" + k + "";
  }

  lemma NestedPath(before: Json, after: Json, k: string, j: string, op: Op)
    requires before.Obj? && after.Obj? && Opens(before, after, k) && op in NestedOps(before, after, k, j)
    ensures ChangedNested(before, after, k, j) && op.path == Join([k, j])
  {
    LeafPath(NestedPointer(k, j), Slot(before.members[k].members, j), Slot(after.members[k].members, j), op);
    assert [k, j][1..] == [j] && [j][1..] == [];
    assert Join([j]) == "/" + j + "";
    assert Join([k, j]) == "/" + k + ("/" + j);
  }

  /** A pointer that leads to a plain key is that key's own. */
  lemma PlainTarget(p: string, k: string)
    requires Plain(k) && Tokens(p) == Some([k])
    ensures p == TopPointer(k)
  {
    var rest := p[1..];
    SegmentIsPrefix(rest);
    var seg := BeforeSlash(rest);
    var tail := rest[|seg|..];
    TokensSome(tail);
    assert Tokens(p).value == [Unescape(seg)] + Tokens(tail).value;
    assert Tokens(p).value[0] == Unescape(seg) && |Tokens(tail).value| == 0;
    assert tail == "" && seg == rest;
    UnescapeShows(seg);
    assert p == "/" + rest;
  }

  /** Unescaping that changes anything leaves a slash or a tilde. */
  lemma {:induction false} UnescapeShows(s: string)
    ensures Unescape(s) == s || '/' in Unescape(s) || '~' in Unescape(s)
    decreases |s|
  {
    var u := Unescape(s);
    if |s| >= 2 && s[0] == '~' && (s[1] == '1' || s[1] == '0') {
      assert u[0] in u;
    } else if s != "" {
      UnescapeShows(s[1..]);
      assert u == [s[0]] + Unescape(s[1..]) && s == [s[0]] + s[1..];
    }
  }

  lemma JoinedElsewhere(d: seq<string>, k: string)
    requires Plain(k) && (|d| == 2 || (|d| == 1 && d[0] != k))
    ensures Join(d) != TopPointer(k)
  {
    if |d| == 1 {
      assert d[1..] == [];
      assert Join(d) == "/" + d[0] + "";
      assert Join(d)[1..] == d[0] && TopPointer(k)[1..] == k;
    } else {
      assert Join(d) == "/" + d[0] + Join(d[1..]) && Join(d[1..])[0] == '/';
      assert Join(d)[1 + |d[0]|] == '/';
      forall i | 0 < i < |TopPointer(k)| ensures TopPointer(k)[i] != '/' {
        assert TopPointer(k)[i] == k[i - 1] && k[i - 1] in k;
      }
    }
  }

  /** No operation of a diff replaces an object the diff opened. */
  lemma OpenedNotReplaced(before: Json, after: Json, k: string, op: Op)
    requires before.Obj? && after.Obj? && Opens(before, after, k) && op in Diff(before, after)
    ensures Tokens(op.path).Some? && Tokens(op.path).value != [] && Tokens(op.path).value != [k]
  {
    var d := DiffPath(before, after, op);
    OpenedIsPlain(k);
    assert |d| == 1 ==> d[0] != k;
    JoinedElsewhere(d, k);
    assert op.path != "" && op.path[0] == '/';
    TokensSome(op.path);
    hide Diff, Recurses, Plain, Join, BeforeSlash, Unescape;
    if Tokens(op.path) == Some([k]) {
      PlainTarget(op.path, k);
    }
  }

  /** An operation below another member leaves this one alone. */
  lemma OtherMember(doc: Json, t: seq<string>, op: Op, k: string)
    requires doc.Obj? && t != [] && t[0] != k && ApplyAt(doc, t, op).Some?
    ensures var r := ApplyAt(doc, t, op).value; r.Obj? && Slot(r.members, k) == Slot(doc.members, k)
  {
  }

  lemma TopUntouched(doc: Json, op: Op, k: string)
    requires doc.Obj? && Apply(doc, op).Some? && Tokens(op.path).value != [] && !Reaches(op, [k])
    ensures var r := Apply(doc, op).value; r.Obj? && Slot(r.members, k) == Slot(doc.members, k)
  {
    var t := Tokens(op.path).value;
    hide Tokens, ApplyAt;
    assert [k] <= t <==> t[0] == k;
    OtherMember(doc, t, op, k);
  }

  lemma NestedUntouched(doc: Json, op: Op, k: string, j: string)
    requires doc.Obj? && k in doc.members && doc.members[k].Obj? && Apply(doc, op).Some?
    requires Tokens(op.path).value != [] && Tokens(op.path).value != [k] && !Reaches(op, [k, j])
    ensures var r := Apply(doc, op).value;
      && r.Obj? && k in r.members && r.members[k].Obj?
      && Slot(r.members[k].members, j) == Slot(doc.members[k].members, j)
  {
    var t := Tokens(op.path).value;
    hide Tokens;
    if t[0] != k {
      OtherMember(doc, t, op, k);
    } else {
      var below := t[1..];
      assert t == [k] + below;
      assert below != [] by { assert [k] + [] == [k]; }
      assert t[..2] == [t[0], t[1]] && below[0] == t[1];
      assert [k, j] <= t <==> t[1] == j;
      assert ApplyAt(doc.members[k], below, op).Some?
        && Apply(doc, op).value == Obj(doc.members[k := ApplyAt(doc.members[k], below, op).value]);
      hide ApplyAt;
      OtherMember(doc.members[k], below, op, j);
    }
  }

  lemma StepUnreached(before: Json, after: Json, doc: Json, op: Op, d: seq<string>)
    requires before.Obj? && after.Obj? && Changed(before, after, d) && op in Diff(before, after) && !Reaches(op, d)
    requires Unchanged(before, doc, d) && Apply(doc, op).Some?
    ensures Unchanged(before, Apply(doc, op).value, d)
  {
    var own := DiffPath(before, after, op);
    assert op.path != "" && op.path[0] == '/';
    TokensSome(op.path);
    hide Diff, Tokens, Apply, Join, Recurses;
    if |d| == 1 {
      assert d == [d[0]];
      TopUntouched(doc, op, d[0]);
    } else {
      assert d == [d[0], d[1]];
      OpenedNotReplaced(before, after, d[0], op);
      NestedUntouched(doc, op, d[0], d[1]);
    }
  }

  /** The member at `d` of `doc` is the one `before` has. */
  predicate Unchanged(before: Json, doc: Json, d: seq<string>)
  {
    && before.Obj? && doc.Obj?
    && (|d| == 1 ==> Slot(doc.members, d[0]) == Slot(before.members, d[0]))
    && (|d| == 2 ==>
          && d[0] in before.members && before.members[d[0]].Obj? && d[0] in doc.members && doc.members[d[0]].Obj?
          && Slot(doc.members[d[0]].members, d[1]) == Slot(before.members[d[0]].members, d[1]))
  }

  /** What no operation reaches stays as it was. */
  lemma {:induction false} UnreachedStays(before: Json, after: Json, doc: Json, ops: seq<Op>, d: seq<string>)
    requires before.Obj? && after.Obj? && Changed(before, after, d) && ApplyAll(before, ops) == Some(doc)
    requires forall i :: 0 <= i < |ops| ==> ops[i] in Diff(before, after) && !Reaches(ops[i], d)
    ensures Unchanged(before, doc, d)
    decreases |ops|
  {
    hide Diff, Reaches, Apply, Recurses;
    if ops != [] {
      var n := |ops| - 1;
      var front := ApplyAll(before, ops[..n]).value;
      UnreachedStays(before, after, front, ops[..n], d);
      StepUnreached(before, after, front, ops[n], d);
    }
  }

  // --- the exact condition ----------------------------------------------------------------------

  /** The patch leads from `before` to `after`, up to null. */
  ghost predicate Correct(before: Json, after: Json, ops: seq<Op>)
    requires before.Obj? && after.Obj?
  {
    ApplyAll(before, ops).Some? && ApplyAll(before, ops).value.Obj? && SameUpToNull(ApplyAll(before, ops).value, after)
  }

  lemma StaleIsWrong(before: Json, after: Json, doc: Json, d: seq<string>)
    requires before.Obj? && after.Obj? && doc.Obj? && Changed(before, after, d) && Unchanged(before, doc, d)
    ensures !SameUpToNull(doc, after)
  {
    hide Recurses, EqualUpToNull;
    if |d| == 1 {
      assert !Opens(doc, after, d[0]);
    } else {
      assert Opens(doc, after, d[0]);
    }
  }

  /** In a correct patch some operation reaches each member that changed. */
  lemma ChangedIsReached(before: Json, after: Json, ops: seq<Op>, d: seq<string>) returns (op: Op)
    requires before.Obj? && after.Obj? && multiset(ops) == multiset(Diff(before, after))
    requires Correct(before, after, ops) && Changed(before, after, d)
    ensures op in Diff(before, after) && Reaches(op, d)
  {
    hide Diff, Reaches;
    forall i | 0 <= i < |ops| ensures ops[i] in Diff(before, after) {
      assert ops[i] in multiset(Diff(before, after));
    }
    if i :| 0 <= i < |ops| && Reaches(ops[i], d) {
      op := ops[i];
    } else {
      var doc := ApplyAll(before, ops).value;
      UnreachedStays(before, after, doc, ops, d);
      StaleIsWrong(before, after, doc, d);
      assert false;
    }
  }

  function Longest(ops: seq<Op>): (n: nat)
    ensures forall i :: 0 <= i < |ops| ==> |ops[i].path| <= n
  {
    if ops == [] then 0
    else
      var m, last := Longest(ops[..|ops| - 1]), |ops[|ops| - 1].path|;
      if m < last then last else m
  }

  lemma LongestCovers(ops: seq<Op>, op: Op)
    requires op in ops
    ensures |op.path| <= Longest(ops)
  {
  }

  lemma TopHasOp(before: Json, after: Json, k: string) returns (op: Op)
    requires before.Obj? && after.Obj? && ChangedTop(before, after, k)
    ensures op in Diff(before, after) && op.path == Join([k])
  {
    op := TopOps(before, after, k)[0];
    hide Diff, Recurses;
    DiffMembers(before, after, op);
    TopPath(before, after, k, op);
  }

  lemma NestedHasOp(before: Json, after: Json, k: string, j: string) returns (op: Op)
    requires before.Obj? && after.Obj? && ChangedNested(before, after, k, j)
    ensures op in Diff(before, after) && op.path == Join([k, j])
  {
    op := NestedOps(before, after, k, j)[0];
    hide Diff, Recurses;
    DiffMembers(before, after, op);
    NestedPath(before, after, k, j, op);
  }

  lemma ChangedHasOp(before: Json, after: Json, d: seq<string>)
    requires before.Obj? && after.Obj? && Changed(before, after, d)
    ensures |Join(d)| <= Longest(Diff(before, after))
  {
    hide Diff, ChangedTop, ChangedNested, Join, Longest;
    if |d| == 1 {
      assert d == [d[0]];
      var op := TopHasOp(before, after, d[0]);
      LongestCovers(Diff(before, after), op);
    } else {
      assert d == [d[0], d[1]];
      var op := NestedHasOp(before, after, d[0], d[1]);
      LongestCovers(Diff(before, after), op);
    }
  }

  /** In a correct patch every member that changed is reached by its own pointer: it is
      reached by some pointer, at least as long as its own; by a longer one only if that
      one, too, misses its member, and pointers do not get longer for ever. */
  lemma {:induction false} OwnPointer(before: Json, after: Json, ops: seq<Op>, d: seq<string>)
    requires before.Obj? && after.Obj? && multiset(ops) == multiset(Diff(before, after))
    requires Correct(before, after, ops) && Changed(before, after, d)
    ensures Tokens(Join(d)) == Some(d)
    decreases Longest(Diff(before, after)) - |Join(d)|
  {
    var op := ChangedIsReached(before, after, ops, d);
    var x := DiffPath(before, after, op);
    var t := Tokens(Join(x)).value;
    JoinGrows(d, t);
    TokensShrink(Join(x));
    ChangedHasOp(before, after, x);
    hide Correct, Diff, Tokens, Join, Recurses;
    if |Join(x)| > |Join(d)| {
      OwnPointer(before, after, ops, x);
      SpotsApart(before, after, d, x);
    }
  }

  /** No member that changed lies below another. */
  lemma SpotsApart(before: Json, after: Json, d: seq<string>, x: seq<string>)
    requires before.Obj? && after.Obj? && Changed(before, after, d) && Changed(before, after, x) && d <= x
    ensures d == x
  {
    hide Recurses, EqualUpToNull;
    assert x[0] == d[0];
  }

  lemma TopKeySafe(before: Json, after: Json, ops: seq<Op>, k: string)
    requires before.Obj? && after.Obj? && multiset(ops) == multiset(Diff(before, after))
    requires Correct(before, after, ops) && ChangedTop(before, after, k)
    ensures SafeKey(k)
  {
    hide Correct, Diff, Tokens, Recurses, SafeKey;
    OwnPointer(before, after, ops, [k]);
    assert [k][1..] == [];
    assert Join([k]) == "/" + k + "" == TopPointer(k);
    OwnTopIsSafe(k);
  }

  lemma NestedKeySafe(before: Json, after: Json, ops: seq<Op>, k: string, j: string)
    requires before.Obj? && after.Obj? && multiset(ops) == multiset(Diff(before, after))
    requires Correct(before, after, ops) && ChangedNested(before, after, k, j)
    ensures SafeKey(j)
  {
    hide Correct, Diff, Tokens, SafeKey;
    OwnPointer(before, after, ops, [k, j]);
    assert [k, j][1..] == [j] && [j][1..] == [];
    assert Join([j]) == "/" + j + "";
    assert Join([k, j]) == "/" + k + ("/" + j) == NestedPointer(k, j);
    OpenedIsPlain(k);
    OwnNestedIsSafe(k, j);
  }

  /** For all documents and any order of the operations: the diff applies and leads to
      the new document up to null exactly when no key that changed holds a slash, a
      `~0` or a `~1`. */
  lemma PatchCorrectIffKeysSafe(before: Json, after: Json, ops: seq<Op>)
    requires before.Obj? && after.Obj? && multiset(ops) == multiset(Diff(before, after))
    ensures Correct(before, after, ops) <==> ChangedKeysSafe(before, after)
  {
    hide Diff, SafeKey, ChangedTop, ChangedNested;
    if ChangedKeysSafe(before, after) {
      PatchReachesAfter(before, after, ops);
    }
    hide Correct;
    if Correct(before, after, ops) {
      forall k | ChangedTop(before, after, k) ensures SafeKey(k) {
        TopKeySafe(before, after, ops, k);
      }
      forall k, j | ChangedNested(before, after, k, j) ensures SafeKey(j) {
        NestedKeySafe(before, after, ops, k, j);
      }
    }
  }

  lemma SlashKeyTokens(a: string, b: string)
    requires Plain(a) && Plain(b)
    ensures Tokens(TopPointer(a + "/" + b)) == Some([a, b])
  {
    PlainIsSafe(a);
    PlainIsSafe(b);
    hide Tokens, Plain, SafeKey;
    PointerTokens(a, b);
    assert TopPointer(a + "/" + b) == NestedPointer(a, b);
  }

  lemma ReplaceBelow(m: map<string, Json>, a: string, b: string, v: Json, op: Op)
    requires a in m && m[a] == Obj(map[b := v]) && op.Replace?
    ensures ApplyAt(Obj(m), [a, b], op) == Some(Obj(m[a := Obj(map[b := op.value])]))
  {
    assert [a, b][1..] == [b];
    assert map[b := v][b := op.value] == map[b := op.value];
  }

  /** An unchanged member adds nothing to a diff. */
  lemma UnchangedAddsNothing(before: Json, after: Json, k: string)
    requires before.Obj? && after.Obj? && Slot(before.members, k) == Slot(after.members, k)
    ensures KeyOps(before, after, "", k) == []
  {
    hide KeyOps, Recurses;
    var ops := KeyOps(before, after, "", k);
    if ops != [] {
      TopKeyOps(before, after, k, ops[0]);
    }
  }

  lemma {:induction false} SortedKeysSize(s: set<string>)
    ensures |SortedKeys(s)| == |s|
    decreases |s|
  {
    if s != {} {
      SortedKeysSize(s - {First(s)});
    }
  }

  /** A diff of two keys, one of them unchanged, is the other's operation. */
  lemma TwoKeyDiff(before: Json, after: Json, k: string, a: string, op: Op)
    requires before.Obj? && after.Obj? && k != a && before.members.Keys + after.members.Keys == {k, a}
    requires KeyOps(before, after, "", k) == [op] && KeyOps(before, after, "", a) == []
    ensures Diff(before, after) == [op]
  {
    hide KeyOps, AtMost;
    var keys := SortedKeys({k, a});
    SortedKeysSize({k, a});
    assert |{k, a}| == 2;
    assert keys[0] in keys && keys[1] in keys && keys[0] != keys[1];
    assert keys[..1] == [keys[0]] && keys[..1][..0] == [] && keys[..0] == [];
    assert KeysOps(before, after, "", keys[..1]) == KeyOps(before, after, "", keys[0]);
    assert KeysOps(before, after, "", keys) == KeysOps(before, after, "", keys[..1]) + KeyOps(before, after, "", keys[1]);
  }

  lemma SlashKeyOps(before: Json, after: Json, k: string, v: Json, w: Json)
    requires before.Obj? && after.Obj? && '/' in k && v != w && !v.Null? && !w.Null?
    requires Slot(before.members, k) == Some(v) && Slot(after.members, k) == Some(w)
    ensures KeyOps(before, after, "", k) == [Replace(TopPointer(k), w)]
  {
    assert "" + "/" + k == TopPointer(k);
    if Recurses(TopPointer(k)) {
      OpenedIsPlain(k);
    }
    hide Recurses;
  }

  lemma SlashKeyDiff(a: string, k: string, inner: Json, v: Json, w: Json)
    requires '/' in k && a != k && v != w && !v.Null? && !w.Null?
    ensures Diff(Obj(map[k := v, a := inner]), Obj(map[k := w, a := inner])) == [Replace(TopPointer(k), w)]
  {
    var before, after := Obj(map[k := v, a := inner]), Obj(map[k := w, a := inner]);
    hide Diff, Recurses;
    SlashKeyOps(before, after, k, v, w);
    UnchangedAddsNothing(before, after, a);
    TwoKeyDiff(before, after, k, a, Replace(TopPointer(k), w));
  }

  lemma OneOperation(doc: Json, op: Op)
    ensures ApplyAll(doc, [op]) == Apply(doc, op)
  {
    hide Apply;
    assert [op][..0] == [];
  }

  /** A changed key with a slash, in use: the diff is one operation, which applies, to
      another member. */
  lemma SlashKeyPatchesElsewhere(a: string, b: string, v: Json, w: Json)
    requires Plain(a) && Plain(b) && v != w && !v.Null? && !w.Null?
    ensures var k := a + "/" + b;
      var inner := Obj(map[b := v]);
      var before, after := Obj(map[k := v, a := inner]), Obj(map[k := w, a := inner]);
      && Diff(before, after) == [Replace(TopPointer(k), w)]
      && ApplyAll(before, Diff(before, after)) == Some(Obj(map[k := v, a := Obj(map[b := w])]))
  {
    var k, inner := a + "/" + b, Obj(map[b := v]);
    var m := map[k := v, a := inner];
    var op := Replace(TopPointer(k), w);
    assert |a| < |k| && k[|a|] == '/';
    SlashKeyTokens(a, b);
    SlashKeyDiff(a, k, inner, v, w);
    ReplaceBelow(m, a, b, v, op);
    OneOperation(Obj(m), op);
    hide Tokens, Plain, ApplyAt, Diff, ApplyAll, TopPointer;
    assert m[a := Obj(map[b := w])] == map[k := v, a := Obj(map[b := w])];
  }
}
