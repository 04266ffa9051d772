/** A diff, applied in any order of its operations, leads to the new document. */
module PatchLaws {
  import opened Prelude
  import opened Json
  import opened Patch

  /** The member `k` is an object on both sides that the diff descends into. */
  predicate Opens(before: Json, after: Json, k: string)
    requires before.Obj? && after.Obj?
  {
    Recurses("/" + k) && BothObjects(Slot(before.members, k), Slot(after.members, k))
  }

  /** Equal up to null and missing members, at the top and in the opened objects. */
  ghost predicate SameUpToNull(a: Json, b: Json)
    requires a.Obj? && b.Obj?
  {
    && (forall k :: !Opens(a, b, k) ==> EqualUpToNull(Slot(a.members, k), Slot(b.members, k)))
    && (forall k, j :: Opens(a, b, k) ==>
          EqualUpToNull(Slot(a.members[k].members, j), Slot(b.members[k].members, j)))
  }

  // --- which operations a diff holds ---------------------------------------------------

  lemma {:induction false} KeysOpsMembers(before: Json, after: Json, path: string, keys: seq<string>, op: Op)
    requires before.Obj? && after.Obj?
    ensures op in KeysOps(before, after, path, keys) <==> exists k :: k in keys && op in KeyOps(before, after, path, k)
    decreases |keys|
  {
    if keys != [] {
      var n := |keys| - 1;
      hide KeyOps;
      KeysOpsMembers(before, after, path, keys[..n], op);
      assert forall k :: k in keys <==> k in keys[..n] || k == keys[n];
      assert op in KeysOps(before, after, path, keys)
        <==> op in KeysOps(before, after, path, keys[..n]) || op in KeyOps(before, after, path, keys[n]);
    }
  }

  lemma DiffAtMembers(before: Json, after: Json, path: string, op: Op)
    requires before.Obj? && after.Obj?
    ensures op in DiffAt(before, after, path) <==> exists k :: op in KeyOps(before, after, path, k)
  {
    var keys := SortedKeys(before.members.Keys + after.members.Keys);
    KeysOpsMembers(before, after, path, keys, op);
    if k :| op in KeyOps(before, after, path, k) {
      assert k in before.members.Keys + after.members.Keys;
    }
  }

  /** Below the top level nothing recurses. */
  lemma NoDeeper(path: string, key: string)
    requires path != ""
    ensures !Recurses(path + "/" + key)
  {
    assert (path + "/" + key)[|path|] == '/';
  }

  function TopPointer(k: string): string
  {
    "/" + k
  }

  function NestedPointer(k: string, j: string): string
  {
    "/" + k + "/" + j
  }

  function TopOps(before: Json, after: Json, k: string): seq<Op>
    requires before.Obj? && after.Obj?
  {
    LeafOps(TopPointer(k), Slot(before.members, k), Slot(after.members, k))
  }

  function NestedOps(before: Json, after: Json, k: string, j: string): seq<Op>
    requires before.Obj? && after.Obj? && Opens(before, after, k)
  {
    LeafOps(NestedPointer(k, j), Slot(before.members[k].members, j), Slot(after.members[k].members, j))
  }

  lemma TopKeyOps(before: Json, after: Json, k: string, op: Op)
    requires before.Obj? && after.Obj?
    ensures op in KeyOps(before, after, "", k) <==>
      if Opens(before, after, k) then exists j :: op in NestedOps(before, after, k, j) else op in TopOps(before, after, k)
  {
    assert "" + "/" + k == TopPointer(k);
    if Opens(before, after, k) {
      var b, a := before.members[k], after.members[k];
      assert KeyOps(before, after, "", k) == DiffAt(b, a, TopPointer(k));
      DiffAtMembers(b, a, TopPointer(k), op);
      hide DiffAt, LeafOps;
      forall j ensures op in KeyOps(b, a, TopPointer(k), j) <==> op in NestedOps(before, after, k, j) {
        NoDeeper(TopPointer(k), j);
      }
      if op in DiffAt(b, a, TopPointer(k)) {
        var j :| op in KeyOps(b, a, TopPointer(k), j);
        assert op in NestedOps(before, after, k, j);
      } else {
        forall j ensures op !in NestedOps(before, after, k, j) {
          assert op !in KeyOps(b, a, TopPointer(k), j);
        }
      }
    }
  }

  /** The operations of a diff: one for each member that differs. */
  lemma DiffMembers(before: Json, after: Json, op: Op)
    requires before.Obj? && after.Obj?
    ensures op in Diff(before, after) <==>
      || (exists k :: !Opens(before, after, k) && op in TopOps(before, after, k))
      || (exists k, j :: Opens(before, after, k) && op in NestedOps(before, after, k, j))
  {
    hide KeyOps, DiffAt, Opens, TopOps, NestedOps;
    DiffAtMembers(before, after, "", op);
    if op in Diff(before, after) {
      var k :| op in KeyOps(before, after, "", k);
      TopKeyOps(before, after, k, op);
    } else {
      forall k ensures !Opens(before, after, k) ==> op !in TopOps(before, after, k) {
        TopKeyOps(before, after, k, op);
      }
      forall k, j | Opens(before, after, k) ensures op !in NestedOps(before, after, k, j) {
        TopKeyOps(before, after, k, op);
      }
    }
  }

  lemma LeafOpsEmpty(pointer: string, b: Option<Json>, a: Option<Json>)
    ensures LeafOps(pointer, b, a) == [] <==> EqualUpToNull(b, a)
    ensures LeafOps(pointer, b, a) != [] ==> LeafOps(pointer, b, a)[0] in LeafOps(pointer, b, a)
  {
  }

  /** A diff is empty exactly when the documents are equal up to null. */
  lemma DiffEmptyIffSame(before: Json, after: Json)
    requires before.Obj? && after.Obj?
    ensures Diff(before, after) == [] <==> SameUpToNull(before, after)
  {
    hide Diff, LeafOps, Recurses, EqualUpToNull;
    if Diff(before, after) == [] {
      forall k | !Opens(before, after, k) ensures EqualUpToNull(Slot(before.members, k), Slot(after.members, k)) {
        LeafOpsEmpty(TopPointer(k), Slot(before.members, k), Slot(after.members, k));
        var ops := TopOps(before, after, k);
        if ops != [] {
          DiffMembers(before, after, ops[0]);
        }
      }
      forall k, j | Opens(before, after, k)
        ensures EqualUpToNull(Slot(before.members[k].members, j), Slot(after.members[k].members, j))
      {
        LeafOpsEmpty(NestedPointer(k, j), Slot(before.members[k].members, j), Slot(after.members[k].members, j));
        var ops := NestedOps(before, after, k, j);
        if ops != [] {
          DiffMembers(before, after, ops[0]);
        }
      }
    } else {
      var op := Diff(before, after)[0];
      DiffMembers(before, after, op);
      if k :| !Opens(before, after, k) && op in TopOps(before, after, k) {
        LeafOpsEmpty(TopPointer(k), Slot(before.members, k), Slot(after.members, k));
      } else {
        var k, j :| Opens(before, after, k) && op in NestedOps(before, after, k, j);
        LeafOpsEmpty(NestedPointer(k, j), Slot(before.members[k].members, j), Slot(after.members[k].members, j));
      }
    }
  }

  // --- pointers of safe keys ----------------------------------------------------------------

  /** No `~0` and no `~1`. */
  predicate NoEscape(k: string)
  {
    forall i :: 0 < i < |k| && k[i - 1] == '~' ==> k[i] != '0' && k[i] != '1'
  }

  /** A key that reads back from a pointer it was put into unescaped. */
  predicate SafeKey(k: string)
  {
    '/' !in k && NoEscape(k)
  }

  lemma {:induction false} UnescapeSafe(k: string)
    requires NoEscape(k)
    ensures Unescape(k) == k
    decreases |k|
  {
    if k != "" {
      var tail := k[1..];
      assert NoEscape(tail) by {
        forall i | 0 < i < |tail| && tail[i - 1] == '~' ensures tail[i] != '0' && tail[i] != '1' {
          assert k[i] == tail[i - 1] && k[i + 1] == tail[i];
        }
      }
      UnescapeSafe(tail);
      assert k == [k[0]] + tail;
    }
  }

  lemma {:induction false} SegmentStops(k: string, rest: string)
    requires '/' !in k && (rest == "" || rest[0] == '/')
    ensures BeforeSlash(k + rest) == k
    decreases |k|
  {
    if k == "" {
      assert k + rest == rest;
    } else {
      var s, tail := k + rest, k[1..];
      assert k[0] in k && '/' !in tail;
      assert s[0] == k[0] && s[1..] == tail + rest;
      SegmentStops(tail, rest);
      assert BeforeSlash(s) == [s[0]] + BeforeSlash(s[1..]);
      assert k == [k[0]] + tail;
    }
  }

  lemma TokensUnfold(p: string, q: string, k: string, rest: string)
    requires p != "" && p[0] == '/' && p[1..] == q
    requires BeforeSlash(q) == k && |k| <= |q| && q[|k|..] == rest && Tokens(rest).Some?
    ensures Tokens(p) == Some([Unescape(k)] + Tokens(rest).value)
  {
  }

  lemma DropPrefix(a: string, b: string)
    ensures (a + b)[|a|..] == b
  {
  }

  lemma TokensStep(k: string, rest: string)
    requires SafeKey(k) && (rest == "" || rest[0] == '/') && Tokens(rest).Some?
    ensures Tokens("/" + k + rest) == Some([k] + Tokens(rest).value)
  {
    SegmentStops(k, rest);
    UnescapeSafe(k);
    hide *;
    DropPrefix("/", k + rest);
    DropPrefix(k, rest);
    assert "/" + k + rest == "/" + (k + rest);
    TokensUnfold("/" + (k + rest), k + rest, k, rest);
  }

  lemma PointerTokens(k: string, j: string)
    requires SafeKey(k) && SafeKey(j)
    ensures Tokens(TopPointer(k)) == Some([k]) && Tokens(NestedPointer(k, j)) == Some([k, j])
  {
    hide Unescape, BeforeSlash;
    assert Tokens("") == Some([]);
    TokensStep(k, "");
    assert "/" + k + "" == TopPointer(k) && [k] + [] == [k];
    TokensStep(j, "");
    assert "/" + j + "" == "/" + j && [j] + [] == [j];
    TokensStep(k, "/" + j);
    assert "/" + k + ("/" + j) == NestedPointer(k, j) && [k] + [j] == [k, j];
  }

  // --- applying the operations in any order ---------------------------------------------------

  predicate ChangedTop(before: Json, after: Json, k: string)
    requires before.Obj? && after.Obj?
  {
    !Opens(before, after, k) && !EqualUpToNull(Slot(before.members, k), Slot(after.members, k))
  }

  predicate ChangedNested(before: Json, after: Json, k: string, j: string)
    requires before.Obj? && after.Obj?
  {
    Opens(before, after, k) && !EqualUpToNull(Slot(before.members[k].members, j), Slot(after.members[k].members, j))
  }

  /** Every key that changed, at the top or in an opened object, is safe. */
  ghost predicate ChangedKeysSafe(before: Json, after: Json)
    requires before.Obj? && after.Obj?
  {
    && (forall k :: ChangedTop(before, after, k) ==> SafeKey(k))
    && (forall k, j :: ChangedNested(before, after, k, j) ==> SafeKey(j))
  }

  lemma RecursesNames(k: string)
    requires Recurses(TopPointer(k))
    ensures k in {"location", "contact", "media", "provenance", "custom_fields"}
  {
    assert k == TopPointer(k)[1..];
    assert "/location"[1..] == "location" && "/contact"[1..] == "contact" && "/media"[1..] == "media";
    assert "/provenance"[1..] == "provenance" && "/custom_fields"[1..] == "custom_fields";
  }

  /** No slash and no tilde. */
  predicate Plain(k: string)
  {
    '/' !in k && '~' !in k
  }

  lemma PlainIsSafe(k: string)
    requires Plain(k)
    ensures SafeKey(k)
  {
    assert forall i :: 0 <= i < |k| ==> k[i] in k;
  }

  lemma OpenedIsPlain(k: string)
    requires Recurses(TopPointer(k))
    ensures Plain(k) && SafeKey(k)
  {
    RecursesNames(k);
    assert Plain("location") && Plain("contact") && Plain("media") && Plain("provenance") && Plain("custom_fields");
    hide Recurses, Plain;
    PlainIsSafe(k);
  }

  /** A member on the way from `b` to `a`. */
  function Progress(done: bool, b: Option<Json>, a: Option<Json>): Option<Json>
  {
    if !done then b else if Absent(a) then None else a
  }

  /** The document once the operations at the spots `done` have been applied. */
  ghost predicate Between(doc: Json, before: Json, after: Json, done: set<seq<string>>)
    requires before.Obj? && after.Obj?
  {
    && doc.Obj?
    && (forall k :: !Opens(before, after, k) ==>
          Slot(doc.members, k) == Progress([k] in done, Slot(before.members, k), Slot(after.members, k)))
    && (forall k :: Opens(before, after, k) ==> k in doc.members && doc.members[k].Obj?)
    && (forall k, j :: Opens(before, after, k) ==>
          Slot(doc.members[k].members, j)
            == Progress([k, j] in done, Slot(before.members[k].members, j), Slot(after.members[k].members, j)))
  }

  /** The operation for a member that differs takes it from `b` to `a`. */
  lemma ApplyLeaf(m: map<string, Json>, k: string, pointer: string, a: Option<Json>, op: Op)
    requires op in LeafOps(pointer, Slot(m, k), a)
    ensures var r := ApplyAt(Obj(m), [k], op);
      && r.Some? && r.value.Obj?
      && Slot(r.value.members, k) == Progress(true, Slot(m, k), a)
      && forall j :: j != k ==> Slot(r.value.members, j) == Slot(m, j)
  {
  }

  lemma LeafPath(pointer: string, b: Option<Json>, a: Option<Json>, op: Op)
    requires op in LeafOps(pointer, b, a)
    ensures op.path == pointer && !EqualUpToNull(b, a)
  {
  }

  lemma StepTop(doc: Json, before: Json, after: Json, done: set<seq<string>>, k: string, op: Op)
    requires before.Obj? && after.Obj? && Between(doc, before, after, done)
    requires SafeKey(k) && !Opens(before, after, k) && op in TopOps(before, after, k) && [k] !in done
    ensures Apply(doc, op).Some? && Between(Apply(doc, op).value, before, after, done + {[k]})
  {
    var b, a := Slot(before.members, k), Slot(after.members, k);
    LeafPath(TopPointer(k), b, a, op);
    PointerTokens(k, k);
    ApplyLeaf(doc.members, k, TopPointer(k), a, op);
    hide Tokens, ApplyAt, LeafOps, Progress, Recurses;
    var r := Apply(doc, op).value;
    forall i | Opens(before, after, i) ensures i in r.members && r.members[i] == doc.members[i] {
      assert Slot(r.members, i) == Slot(doc.members, i);
    }
  }

  lemma BetweenNested(doc: Json, r: Json, before: Json, after: Json, done: set<seq<string>>, k: string, j: string)
    requires before.Obj? && after.Obj? && Between(doc, before, after, done) && Opens(before, after, k)
    requires r.Obj? && k in r.members && r.members[k].Obj?
    requires forall i :: i != k ==> Slot(r.members, i) == Slot(doc.members, i)
    requires forall i :: i != j ==> Slot(r.members[k].members, i) == Slot(doc.members[k].members, i)
    requires Slot(r.members[k].members, j)
      == Progress(true, Slot(before.members[k].members, j), Slot(after.members[k].members, j))
    ensures Between(r, before, after, done + {[k, j]})
  {
    hide Progress, Recurses;
    forall i | Opens(before, after, i) ensures i in r.members && r.members[i].Obj? {
      assert i != k ==> Slot(r.members, i) == Slot(doc.members, i);
    }
    forall i, h | Opens(before, after, i)
      ensures Slot(r.members[i].members, h)
        == Progress([i, h] in done + {[k, j]}, Slot(before.members[i].members, h), Slot(after.members[i].members, h))
    {
      assert [i, h] == [k, j] <==> i == k && h == j by {
        if [i, h] == [k, j] {
          assert [i, h][0] == [k, j][0] && [i, h][1] == [k, j][1];
        }
      }
      assert i != k ==> Slot(r.members, i) == Slot(doc.members, i);
    }
  }

  lemma StepNested(doc: Json, before: Json, after: Json, done: set<seq<string>>, k: string, j: string, op: Op)
    requires before.Obj? && after.Obj? && Between(doc, before, after, done)
    requires SafeKey(k) && SafeKey(j) && Opens(before, after, k) && op in NestedOps(before, after, k, j) && [k, j] !in done
    ensures Apply(doc, op).Some? && Between(Apply(doc, op).value, before, after, done + {[k, j]})
  {
    var b, a := Slot(before.members[k].members, j), Slot(after.members[k].members, j);
    assert k in doc.members && doc.members[k].Obj? && Slot(doc.members[k].members, j) == b;
    LeafPath(NestedPointer(k, j), b, a, op);
    PointerTokens(k, j);
    ApplyLeaf(doc.members[k].members, j, NestedPointer(k, j), a, op);
    hide Between, Tokens, LeafOps, Progress, Recurses;
    assert [k, j][1..] == [j] && doc.members[k] == Obj(doc.members[k].members);
    var below := ApplyAt(doc.members[k], [j], op).value;
    var r := Obj(doc.members[k := below]);
    assert ApplyAt(doc, [k, j], op) == Some(r);
    BetweenNested(doc, r, before, after, done, k, j);
  }

  /** Where an operation lands. */
  ghost function Spot(op: Op): seq<string>
  {
    if Tokens(op.path).Some? then Tokens(op.path).value else []
  }

  /** The operation belongs to the member at its spot. */
  ghost predicate Lands(before: Json, after: Json, op: Op)
    requires before.Obj? && after.Obj?
  {
    var p := Spot(op);
    || (|p| == 1 && SafeKey(p[0]) && !Opens(before, after, p[0]) && op in TopOps(before, after, p[0]))
    || (|p| == 2 && SafeKey(p[0]) && SafeKey(p[1]) && Opens(before, after, p[0]) && op in NestedOps(before, after, p[0], p[1]))
  }

  lemma TopLands(before: Json, after: Json, k: string, op: Op)
    requires before.Obj? && after.Obj? && ChangedKeysSafe(before, after) && !Opens(before, after, k) && op in TopOps(before, after, k)
    ensures Lands(before, after, op)
  {
    LeafPath(TopPointer(k), Slot(before.members, k), Slot(after.members, k), op);
    hide LeafOps, Tokens;
    assert ChangedTop(before, after, k);
    PointerTokens(k, k);
    assert Spot(op) == [k];
  }

  lemma NestedLands(before: Json, after: Json, k: string, j: string, op: Op)
    requires before.Obj? && after.Obj? && ChangedKeysSafe(before, after) && Opens(before, after, k) && op in NestedOps(before, after, k, j)
    ensures Lands(before, after, op)
  {
    LeafPath(NestedPointer(k, j), Slot(before.members[k].members, j), Slot(after.members[k].members, j), op);
    hide LeafOps, Tokens;
    OpenedIsPlain(k);
    assert ChangedNested(before, after, k, j);
    PointerTokens(k, j);
    assert Spot(op) == [k, j];
  }

  lemma DiffLands(before: Json, after: Json, op: Op)
    requires before.Obj? && after.Obj? && ChangedKeysSafe(before, after) && op in Diff(before, after)
    ensures Lands(before, after, op)
  {
    DiffMembers(before, after, op);
    hide Diff, Lands, ChangedKeysSafe, TopOps, NestedOps, Opens;
    if k :| !Opens(before, after, k) && op in TopOps(before, after, k) {
      TopLands(before, after, k, op);
    } else {
      var k, j :| Opens(before, after, k) && op in NestedOps(before, after, k, j);
      NestedLands(before, after, k, j, op);
    }
  }

  lemma Step(doc: Json, before: Json, after: Json, done: set<seq<string>>, op: Op)
    requires before.Obj? && after.Obj? && Between(doc, before, after, done)
    requires Lands(before, after, op) && Spot(op) !in done
    ensures Apply(doc, op).Some? && Between(Apply(doc, op).value, before, after, done + {Spot(op)})
  {
    var p := Spot(op);
    hide Spot, Between, Opens, TopOps, NestedOps, Apply, Plain;
    if |p| == 1 && !Opens(before, after, p[0]) {
      assert p == [p[0]];
      StepTop(doc, before, after, done, p[0], op);
    } else {
      assert p == [p[0], p[1]];
      StepNested(doc, before, after, done, p[0], p[1], op);
    }
  }

  ghost predicate DistinctSpots(ops: seq<Op>)
  {
    forall i, j :: 0 <= i < j < |ops| ==> Spot(ops[i]) != Spot(ops[j])
  }

  ghost function Spots(ops: seq<Op>): set<seq<string>>
  {
    set i | 0 <= i < |ops| :: Spot(ops[i])
  }

  lemma BetweenStart(before: Json, after: Json)
    requires before.Obj? && after.Obj?
    ensures Between(before, before, after, {})
  {
  }

  lemma {:induction false} ApplyAllBetween(before: Json, after: Json, ops: seq<Op>)
    requires before.Obj? && after.Obj? && DistinctSpots(ops)
    requires forall i :: 0 <= i < |ops| ==> Lands(before, after, ops[i])
    ensures ApplyAll(before, ops).Some? && Between(ApplyAll(before, ops).value, before, after, Spots(ops))
    decreases |ops|
  {
    hide Spot, Lands, Between, Apply;
    if ops == [] {
      BetweenStart(before, after);
      assert Spots(ops) == {};
    } else {
      var n := |ops| - 1;
      ApplyAllBetween(before, after, ops[..n]);
      assert Spots(ops) == Spots(ops[..n]) + {Spot(ops[n])};
      Step(ApplyAll(before, ops[..n]).value, before, after, Spots(ops[..n]), ops[n]);
    }
  }

  // --- a diff never visits a spot twice ----------------------------------------------------------

  /** Every operation of key `k` is at a spot whose token number `d` is `k`. */
  ghost predicate KeyedOps(ops: seq<Op>, d: nat, k: string)
  {
    DistinctSpots(ops) && forall i :: 0 <= i < |ops| ==> |Spot(ops[i])| > d && Spot(ops[i])[d] == k
  }

  lemma JoinDistinct(a: seq<Op>, b: seq<Op>)
    requires DistinctSpots(a) && DistinctSpots(b)
    requires forall i, j :: 0 <= i < |a| && 0 <= j < |b| ==> Spot(a[i]) != Spot(b[j])
    ensures DistinctSpots(a + b)
  {
  }

  lemma {:induction false} KeysOpsDistinct(before: Json, after: Json, path: string, keys: seq<string>, d: nat)
    requires before.Obj? && after.Obj? && InOrder(keys)
    requires forall i :: 0 <= i < |keys| ==> KeyedOps(KeyOps(before, after, path, keys[i]), d, keys[i])
    ensures var ops := KeysOps(before, after, path, keys);
      && DistinctSpots(ops)
      && forall i :: 0 <= i < |ops| ==> |Spot(ops[i])| > d && Spot(ops[i])[d] in keys
    decreases |keys|
  {
    if keys != [] {
      hide KeyOps, Spot;
      var n := |keys| - 1;
      var front := keys[..n];
      KeysOpsDistinct(before, after, path, front, d);
      var a, b := KeysOps(before, after, path, front), KeyOps(before, after, path, keys[n]);
      assert KeyedOps(b, d, keys[n]);
      forall i, j | 0 <= i < |a| && 0 <= j < |b| ensures Spot(a[i]) != Spot(b[j]) {
        assert Spot(a[i])[d] in front && Spot(b[j])[d] == keys[n];
      }
      JoinDistinct(a, b);
      assert KeysOps(before, after, path, keys) == a + b;
    }
  }

  lemma LeafKeyed(pointer: string, b: Option<Json>, a: Option<Json>, d: nat, k: string)
    requires !EqualUpToNull(b, a) ==>
      Tokens(pointer).Some? && |Tokens(pointer).value| > d && Tokens(pointer).value[d] == k
    ensures KeyedOps(LeafOps(pointer, b, a), d, k)
  {
    hide Tokens;
  }

  lemma NestedKeyed(before: Json, after: Json, k: string)
    requires before.Obj? && after.Obj? && ChangedKeysSafe(before, after) && Opens(before, after, k)
    ensures KeyedOps(DiffAt(before.members[k], after.members[k], TopPointer(k)), 0, k)
  {
    var b, a := before.members[k], after.members[k];
    var keys := SortedKeys(b.members.Keys + a.members.Keys);
    OpenedIsPlain(k);
    hide LeafOps, Tokens;
    forall i | 0 <= i < |keys|
      ensures KeyedOps(KeyOps(b, a, TopPointer(k), keys[i]), 1, keys[i])
      ensures KeyedOps(KeyOps(b, a, TopPointer(k), keys[i]), 0, k)
    {
      var j := keys[i];
      NoDeeper(TopPointer(k), j);
      if ChangedNested(before, after, k, j) {
        PointerTokens(k, j);
      }
      LeafKeyed(NestedPointer(k, j), Slot(b.members, j), Slot(a.members, j), 1, j);
      LeafKeyed(NestedPointer(k, j), Slot(b.members, j), Slot(a.members, j), 0, k);
    }
    KeysOpsDistinct(b, a, TopPointer(k), keys, 1);
    var ops := DiffAt(b, a, TopPointer(k));
    forall i | 0 <= i < |ops| ensures |Spot(ops[i])| > 0 && Spot(ops[i])[0] == k {
      hide KeyOps, Spot;
      KeysOpsMembers(b, a, TopPointer(k), keys, ops[i]);
      var j :| j in keys && ops[i] in KeyOps(b, a, TopPointer(k), j);
      assert KeyedOps(KeyOps(b, a, TopPointer(k), j), 0, k);
    }
  }

  lemma TopKeyed(before: Json, after: Json, k: string)
    requires before.Obj? && after.Obj? && ChangedKeysSafe(before, after)
    ensures KeyedOps(KeyOps(before, after, "", k), 0, k)
  {
    assert "" + "/" + k == TopPointer(k);
    if Opens(before, after, k) {
      NestedKeyed(before, after, k);
    } else {
      hide Tokens;
      if ChangedTop(before, after, k) {
        PointerTokens(k, k);
      }
      LeafKeyed(TopPointer(k), Slot(before.members, k), Slot(after.members, k), 0, k);
    }
  }

  lemma DiffSpotsDistinct(before: Json, after: Json)
    requires before.Obj? && after.Obj? && ChangedKeysSafe(before, after)
    ensures DistinctSpots(Diff(before, after))
  {
    var keys := SortedKeys(before.members.Keys + after.members.Keys);
    hide KeyOps, ChangedKeysSafe, KeyedOps;
    forall i | 0 <= i < |keys| ensures KeyedOps(KeyOps(before, after, "", keys[i]), 0, keys[i]) {
      TopKeyed(before, after, keys[i]);
    }
    KeysOpsDistinct(before, after, "", keys, 0);
  }

  // --- the main result ---------------------------------------------------------------------------

  lemma {:induction false} OccursOnce<T>(s: seq<T>, x: T)
    requires NoDuplicates(s)
    ensures multiset(s)[x] <= 1
    decreases |s|
  {
    if s != [] {
      var n := |s| - 1;
      assert s == s[..n] + [s[n]];
      OccursOnce(s[..n], x);
      if s[n] == x {
        assert x !in s[..n];
      }
    }
  }

  lemma OccursTwice<T>(s: seq<T>, i: int, j: int)
    requires 0 <= i < j < |s| && s[i] == s[j]
    ensures multiset(s)[s[i]] >= 2
  {
    assert s == s[..j] + s[j..];
    assert s[i] in multiset(s[..j]) && s[j] == s[j..][0] && s[j] in multiset(s[j..]);
  }

  /** Reordering keeps the spots distinct. */
  lemma PermutationKeepsSpots(ops: seq<Op>, diff: seq<Op>)
    requires multiset(ops) == multiset(diff) && DistinctSpots(diff)
    ensures DistinctSpots(ops)
  {
    forall i, j | 0 <= i < j < |ops| ensures Spot(ops[i]) != Spot(ops[j]) {
      assert ops[i] in multiset(diff) && ops[j] in multiset(diff);
      if Spot(ops[i]) == Spot(ops[j]) {
        assert ops[i] == ops[j];
        OccursTwice(ops, i, j);
        OccursOnce(diff, ops[i]);
      }
    }
  }

  /** Once every operation is applied, the document is the new one up to null. */
  lemma AllDoneIsSame(doc: Json, before: Json, after: Json, ops: seq<Op>)
    requires before.Obj? && after.Obj? && Between(doc, before, after, Spots(ops))
    requires before.Obj? && after.Obj? && ChangedKeysSafe(before, after)
    requires forall op :: op in Diff(before, after) ==> op in ops
    ensures SameUpToNull(doc, after)
  {
    hide Diff, Tokens, Spot, Recurses;
    forall k | !Opens(before, after, k)
      ensures if Opens(doc, after, k) then doc.members[k] == after.members[k]
              else EqualUpToNull(Slot(doc.members, k), Slot(after.members, k))
    {
      TopDone(doc, before, after, ops, k);
    }
    forall k, j | Opens(before, after, k)
      ensures EqualUpToNull(Slot(doc.members[k].members, j), Slot(after.members[k].members, j))
    {
      NestedDone(doc, before, after, ops, k, j);
    }
  }

  lemma SpotDone(before: Json, after: Json, ops: seq<Op>, op: Op)
    requires op in ops
    ensures Spot(op) in Spots(ops)
  {
  }

  lemma TopDone(doc: Json, before: Json, after: Json, ops: seq<Op>, k: string)
    requires before.Obj? && after.Obj? && Between(doc, before, after, Spots(ops)) && !Opens(before, after, k)
    requires before.Obj? && after.Obj? && ChangedKeysSafe(before, after)
    requires forall op :: op in Diff(before, after) ==> op in ops
    ensures if Opens(doc, after, k) then doc.members[k] == after.members[k]
            else EqualUpToNull(Slot(doc.members, k), Slot(after.members, k))
  {
    var b, a := Slot(before.members, k), Slot(after.members, k);
    LeafOpsEmpty(TopPointer(k), b, a);
    if !EqualUpToNull(b, a) {
      var op := TopOps(before, after, k)[0];
      LeafPath(TopPointer(k), b, a, op);
      DiffMembers(before, after, op);
      assert ChangedTop(before, after, k);
      PointerTokens(k, k);
      SpotDone(before, after, ops, op);
    }
    hide Diff, Tokens, LeafOps, Recurses, Spots;
  }

  lemma NestedDone(doc: Json, before: Json, after: Json, ops: seq<Op>, k: string, j: string)
    requires before.Obj? && after.Obj? && Between(doc, before, after, Spots(ops)) && Opens(before, after, k)
    requires before.Obj? && after.Obj? && ChangedKeysSafe(before, after)
    requires forall op :: op in Diff(before, after) ==> op in ops
    ensures EqualUpToNull(Slot(doc.members[k].members, j), Slot(after.members[k].members, j))
  {
    var b, a := Slot(before.members[k].members, j), Slot(after.members[k].members, j);
    LeafOpsEmpty(NestedPointer(k, j), b, a);
    if !EqualUpToNull(b, a) {
      var op := NestedOps(before, after, k, j)[0];
      LeafPath(NestedPointer(k, j), b, a, op);
      DiffMembers(before, after, op);
      assert ChangedNested(before, after, k, j);
      OpenedIsPlain(k);
      PointerTokens(k, j);
      SpotDone(before, after, ops, op);
    }
    hide Diff, Tokens, LeafOps, Recurses, Spots;
  }

  /** Applying the operations of a diff, in any order, never fails and gives the new
      document up to null and missing members. */
  lemma PatchReachesAfter(before: Json, after: Json, ops: seq<Op>)
    requires before.Obj? && after.Obj? && ChangedKeysSafe(before, after)
    requires multiset(ops) == multiset(Diff(before, after))
    ensures ApplyAll(before, ops).Some? && ApplyAll(before, ops).value.Obj?
    ensures SameUpToNull(ApplyAll(before, ops).value, after)
  {
    hide Diff, Spot, Lands;
    DiffSpotsDistinct(before, after);
    PermutationKeepsSpots(ops, Diff(before, after));
    forall i | 0 <= i < |ops| ensures Lands(before, after, ops[i]) {
      assert ops[i] in multiset(Diff(before, after));
      DiffLands(before, after, ops[i]);
    }
    ApplyAllBetween(before, after, ops);
    forall op | op in Diff(before, after) ensures op in ops {
      assert op in multiset(ops);
    }
    AllDoneIsSame(ApplyAll(before, ops).value, before, after, ops);
  }
}
