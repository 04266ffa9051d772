/** Which operation a diff writes for which change, and in which order
    (directory/patch.py:20-30, 72-110). */
module PatchOps {
  import opened Prelude
  import opened Json
  import opened Patch
  import opened PatchLaws

  /** A member that is missing or null. */
  predicate Gone(v: Option<Json>)
  {
    v == None || v == Some(Null)
  }

  predicate Differ(before: Option<Json>, after: Option<Json>)
  {
    if Gone(before) || Gone(after) then Gone(before) != Gone(after) else before != after
  }

  /** The operation tells the change of the member at the pointer: `add` what was not
      there, `remove` what no longer is, `replace` the rest by the new value. */
  predicate Tells(op: Op, pointer: string, before: Option<Json>, after: Option<Json>)
  {
    && Differ(before, after) && op.path == pointer
    && (op.Remove? <==> Gone(after))
    && (op.Add? <==> Gone(before))
    && (!op.Remove? ==> Some(op.value) == after)
  }

  lemma LeafTells(pointer: string, before: Option<Json>, after: Option<Json>, op: Op)
    ensures op in LeafOps(pointer, before, after) <==> Tells(op, pointer, before, after)
  {
  }

  /** The diff looks inside five members, where both sides are objects. */
  predicate Inside(before: Json, after: Json, k: string)
    requires before.Obj? && after.Obj?
  {
    && (k == "location" || k == "contact" || k == "media" || k == "provenance" || k == "custom_fields")
    && k in before.members && k in after.members && before.members[k].Obj? && after.members[k].Obj?
  }

  lemma OpensIsInside(before: Json, after: Json, k: string)
    requires before.Obj? && after.Obj?
    ensures Opens(before, after, k) <==> Inside(before, after, k)
  {
    if Recurses("/" + k) {
      assert TopPointer(k) == "/" + k;
      RecursesNames(k);
    }
    assert "/" + "location" == "/location" && "/" + "contact" == "/contact" && "/" + "media" == "/media";
    assert "/" + "provenance" == "/provenance" && "/" + "custom_fields" == "/custom_fields";
  }

  predicate TellsTop(before: Json, after: Json, k: string, op: Op)
    requires before.Obj? && after.Obj?
  {
    !Inside(before, after, k) && Tells(op, "/" + k, Slot(before.members, k), Slot(after.members, k))
  }

  predicate TellsInside(before: Json, after: Json, k: string, j: string, op: Op)
    requires before.Obj? && after.Obj?
  {
    Inside(before, after, k)
    && Tells(op, "/" + k + "/" + j, Slot(before.members[k].members, j), Slot(after.members[k].members, j))
  }

  /** A diff holds exactly the operations that tell a change of some member. */
  lemma DiffTellsChanges(before: Json, after: Json, op: Op)
    requires before.Obj? && after.Obj?
    ensures op in Diff(before, after) <==>
      (exists k :: TellsTop(before, after, k, op)) || (exists k, j :: TellsInside(before, after, k, j, op))
  {
    hide Diff, LeafOps, Tells, Opens, Inside;
    DiffMembers(before, after, op);
    forall k ensures TellsTop(before, after, k, op) <==> !Opens(before, after, k) && op in TopOps(before, after, k) {
      OpensIsInside(before, after, k);
      LeafTells(TopPointer(k), Slot(before.members, k), Slot(after.members, k), op);
    }
    forall k, j ensures TellsInside(before, after, k, j, op) <==> Opens(before, after, k) && op in NestedOps(before, after, k, j) {
      OpensIsInside(before, after, k);
      if Opens(before, after, k) {
        InsideShape(before, after, k);
        LeafTells(NestedPointer(k, j), Slot(before.members[k].members, j), Slot(after.members[k].members, j), op);
      }
    }
    hide TopOps, NestedOps, TellsTop, TellsInside;
    if k :| !Opens(before, after, k) && op in TopOps(before, after, k) {
      assert TellsTop(before, after, k, op);
    }
    if k, j :| Opens(before, after, k) && op in NestedOps(before, after, k, j) {
      assert TellsInside(before, after, k, j, op);
    }
    if k :| TellsTop(before, after, k, op) {
      assert !Opens(before, after, k) && op in TopOps(before, after, k);
    }
    if k, j :| TellsInside(before, after, k, j, op) {
      assert Opens(before, after, k) && op in NestedOps(before, after, k, j);
    }
  }

  lemma InsideShape(before: Json, after: Json, k: string)
    requires before.Obj? && after.Obj? && Inside(before, after, k)
    ensures k in before.members && k in after.members && before.members[k].Obj? && after.members[k].Obj?
  {
  }

  // --- order ---------------------------------------------------------------------------------

  /** The top-level key of an operation's pointer. */
  function TopKey(op: Op): string
  {
    if op.path == "" then "" else BeforeSlash(op.path[1..])
  }

  lemma PointerTopKey(op: Op, k: string)
    requires '/' !in k && (op.path == "/" + k || "/" + k + "/" <= op.path)
    ensures TopKey(op) == k
  {
    var rest := op.path[|k| + 1..];
    assert op.path[1..] == k + rest;
    SegmentStops(k, rest);
  }

  lemma KeyOpsTopKey(before: Json, after: Json, k: string, op: Op)
    requires before.Obj? && after.Obj? && '/' !in k && op in KeyOps(before, after, "", k)
    ensures TopKey(op) == k
  {
    TopKeyOps(before, after, k, op);
    hide KeyOps, LeafOps, Opens, BeforeSlash, TopKey;
    if Opens(before, after, k) {
      NestedTopKey(before, after, k, op);
    } else {
      LeafPath(TopPointer(k), Slot(before.members, k), Slot(after.members, k), op);
      PointerTopKey(op, k);
    }
  }

  lemma NestedTopKey(before: Json, after: Json, k: string, op: Op)
    requires before.Obj? && after.Obj? && '/' !in k && Opens(before, after, k)
    requires exists j :: op in NestedOps(before, after, k, j)
    ensures TopKey(op) == k
  {
    var j :| op in NestedOps(before, after, k, j);
    LeafPath(NestedPointer(k, j), Slot(before.members[k].members, j), Slot(after.members[k].members, j), op);
    hide BeforeSlash, TopKey, LeafOps;
    PointerTopKey(op, k);
  }

  ghost predicate Ordered(ops: seq<Op>)
  {
    forall i, j :: 0 <= i < j < |ops| ==> AtMost(TopKey(ops[i]), TopKey(ops[j]))
  }

  lemma {:induction false} AtMostItself(a: string)
    ensures AtMost(a, a)
  {
    AtMostTotal(a, a);
  }

  lemma {:induction false} KeysOpsOrdered(before: Json, after: Json, keys: seq<string>)
    requires before.Obj? && after.Obj? && InOrder(keys) && forall i :: 0 <= i < |keys| ==> '/' !in keys[i]
    ensures Ordered(KeysOps(before, after, "", keys))
    ensures forall op :: op in KeysOps(before, after, "", keys) ==> TopKey(op) in keys
    decreases |keys|
  {
    hide KeyOps, TopKey, AtMost;
    if keys != [] {
      var n := |keys| - 1;
      KeysOpsOrdered(before, after, keys[..n]);
      var front, last := KeysOps(before, after, "", keys[..n]), KeyOps(before, after, "", keys[n]);
      forall op | op in last ensures TopKey(op) == keys[n] {
        KeyOpsTopKey(before, after, keys[n], op);
      }
      AtMostItself(keys[n]);
      forall op | op in front ensures AtMost(TopKey(op), keys[n]) {
        var i :| 0 <= i < n && keys[..n][i] == TopKey(op);
        assert keys[i] == TopKey(op);
      }
      var all := front + last;
      forall i, j | 0 <= i < j < |all| ensures AtMost(TopKey(all[i]), TopKey(all[j])) {
        if j < |front| {
          assert all[i] == front[i] && all[j] == front[j];
        } else {
          assert all[j] in last;
          assert all[i] in front || all[i] in last;
        }
      }
    }
  }

  /** The operations come in the order of the members they are about. */
  lemma DiffInOrder(before: Json, after: Json)
    requires before.Obj? && after.Obj?
    requires forall k :: k in before.members.Keys + after.members.Keys ==> '/' !in k
    ensures Ordered(Diff(before, after))
  {
    var keys := SortedKeys(before.members.Keys + after.members.Keys);
    hide SortedKeys, KeysOps, TopKey, AtMost;
    forall i | 0 <= i < |keys| ensures '/' !in keys[i] {
      assert keys[i] in before.members.Keys + after.members.Keys;
    }
    KeysOpsOrdered(before, after, keys);
  }
}
