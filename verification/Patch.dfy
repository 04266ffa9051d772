/** Diffing two projections into a JSON Patch (directory/patch.py), and applying
    such a patch as sections 4.1 to 4.3 of RFC 6902 define it, with the pointers of
    RFC 6901. */
module Patch {
  import opened Prelude
  import opened Json

  // --- keys in order ---------------------------------------------------------------

  /** Strings compare by code point, as Python compares them. */
  predicate AtMost(a: string, b: string)
  {
    a == "" || (b != "" && (a[0] < b[0] || (a[0] == b[0] && AtMost(a[1..], b[1..]))))
  }

  lemma {:induction false} AtMostTotal(a: string, b: string)
    ensures AtMost(a, b) || AtMost(b, a)
    ensures AtMost(a, b) && AtMost(b, a) ==> a == b
  {
    if a != "" && b != "" && a[0] == b[0] {
      AtMostTotal(a[1..], b[1..]);
      assert a == [a[0]] + a[1..] && b == [b[0]] + b[1..];
    }
  }

  lemma {:induction false} AtMostTransitive(a: string, b: string, c: string)
    requires AtMost(a, b) && AtMost(b, c)
    ensures AtMost(a, c)
  {
    if a != "" && a[0] == b[0] && b[0] == c[0] {
      AtMostTransitive(a[1..], b[1..], c[1..]);
    }
  }

  predicate IsFirst(m: string, s: set<string>)
  {
    m in s && forall x :: x in s ==> AtMost(m, x)
  }

  lemma {:induction false} FirstExists(s: set<string>) returns (m: string)
    requires s != {}
    ensures IsFirst(m, s)
    decreases |s|
  {
    var y :| y in s;
    var rest := s - {y};
    AtMostTotal(y, y);
    if rest == {} {
      assert forall x :: x in s ==> x == y || x in rest;
      m := y;
    } else {
      var k := FirstExists(rest);
      AtMostTotal(k, y);
      m := if AtMost(k, y) then k else y;
      forall x | x in s ensures AtMost(m, x) {
        if x != y {
          assert x in rest;
          if m == y {
            AtMostTransitive(y, k, x);
          }
        }
      }
    }
  }

  function First(s: set<string>): (m: string)
    requires s != {}
    ensures IsFirst(m, s)
  {
    assert exists m :: IsFirst(m, s) by { var k := FirstExists(s); }
    assert forall a, b :: IsFirst(a, s) && IsFirst(b, s) ==> a == b by {
      forall a, b | IsFirst(a, s) && IsFirst(b, s) ensures a == b { AtMostTotal(a, b); }
    }
    var m :| IsFirst(m, s);
    m
  }

  predicate InOrder(r: seq<string>)
  {
    forall i, j :: 0 <= i < j < |r| ==> AtMost(r[i], r[j]) && r[i] != r[j]
  }

  /** `sorted(keys)`. */
  function SortedKeys(s: set<string>): (r: seq<string>)
    ensures InOrder(r)
    ensures forall x :: x in r <==> x in s
    decreases |s|
  {
    if s == {} then []
    else
      var rest := SortedKeys(s - {First(s)});
      assert forall j :: 0 <= j < |rest| ==> rest[j] in rest;
      [First(s)] + rest
  }

  // --- the diff --------------------------------------------------------------------

  datatype Op = Add(path: string, value: Json) | Remove(path: string) | Replace(path: string, value: Json)

  /** Objects whose members are diffed one by one. */
  predicate Recurses(pointer: string)
  {
    pointer in {"/location", "/contact", "/media", "/provenance", "/custom_fields"}
  }

  function Slot(m: map<string, Json>, k: string): Option<Json>
  {
    if k in m then Some(m[k]) else None
  }

  predicate Absent(v: Option<Json>)
  {
    v.None? || v.value.Null?
  }

  /** `_equal`: null and missing are the same. */
  predicate EqualUpToNull(a: Option<Json>, b: Option<Json>)
  {
    if Absent(a) || Absent(b) then Absent(a) && Absent(b) else a == b
  }

  predicate BothObjects(a: Option<Json>, b: Option<Json>)
  {
    a.Some? && b.Some? && a.value.Obj? && b.value.Obj?
  }

  function LeafOps(pointer: string, before: Option<Json>, after: Option<Json>): seq<Op>
  {
    if EqualUpToNull(before, after) then []
    else if Absent(after) then [Remove(pointer)]
    else if Absent(before) then [Add(pointer, after.value)]
    else [Replace(pointer, after.value)]
  }

  function KeyOps(before: Json, after: Json, path: string, key: string): seq<Op>
    requires before.Obj? && after.Obj?
    decreases before, 0
  {
    var pointer := path + "/" + key;
    var b, a := Slot(before.members, key), Slot(after.members, key);
    if Recurses(pointer) && BothObjects(b, a) then DiffAt(b.value, a.value, pointer)
    else LeafOps(pointer, b, a)
  }

  function KeysOps(before: Json, after: Json, path: string, keys: seq<string>): seq<Op>
    requires before.Obj? && after.Obj?
    decreases before, 1, |keys|
  {
    if keys == [] then []
    else KeysOps(before, after, path, keys[..|keys| - 1]) + KeyOps(before, after, path, keys[|keys| - 1])
  }

  function DiffAt(before: Json, after: Json, path: string): seq<Op>
    requires before.Obj? && after.Obj?
    decreases before, 2
  {
    KeysOps(before, after, path, SortedKeys(before.members.Keys + after.members.Keys))
  }

  function Diff(before: Json, after: Json): seq<Op>
    requires before.Obj? && after.Obj?
  {
    DiffAt(before, after, "")
  }

  /** `_diff`: a loop over the sorted keys that appends to a list of operations. */
  method ComputeDiff(before: Json, after: Json, path: string) returns (ops: seq<Op>)
    requires before.Obj? && after.Obj?
    ensures ops == DiffAt(before, after, path)
    decreases before
  {
    hide InOrder, AtMost, SortedKeys;
    ops := [];
    var keys := SortedKeys(before.members.Keys + after.members.Keys);
    for i := 0 to |keys|
      invariant ops == KeysOps(before, after, path, keys[..i])
    {
      KeysOpsGrow(before, after, path, keys, i);
      var pointer := path + "/" + keys[i];
      var b, a := Slot(before.members, keys[i]), Slot(after.members, keys[i]);
      hide KeysOps;
      if Recurses(pointer) && BothObjects(b, a) {
        var below := ComputeDiff(b.value, a.value, pointer);
        ops := ops + below;
      } else if !EqualUpToNull(b, a) {
        if Absent(a) {
          ops := ops + [Remove(pointer)];
        } else if Absent(b) {
          ops := ops + [Add(pointer, a.value)];
        } else {
          ops := ops + [Replace(pointer, a.value)];
        }
      }
    }
    assert keys[..|keys|] == keys;
  }

  lemma KeysOpsGrow(before: Json, after: Json, path: string, keys: seq<string>, i: nat)
    requires before.Obj? && after.Obj? && i < |keys|
    ensures KeysOps(before, after, path, keys[..i + 1])
      == KeysOps(before, after, path, keys[..i]) + KeyOps(before, after, path, keys[i])
  {
    hide KeyOps;
    assert keys[..i + 1][..i] == keys[..i];
  }

  // --- applying a patch ---------------------------------------------------------------

  function Unescape(s: string): string
  {
    if |s| >= 2 && s[0] == '~' && s[1] == '1' then "/" + Unescape(s[2..])
    else if |s| >= 2 && s[0] == '~' && s[1] == '0' then "~" + Unescape(s[2..])
    else if s == "" then ""
    else [s[0]] + Unescape(s[1..])
  }

  lemma {:induction false} SegmentIsPrefix(s: string)
    ensures BeforeSlash(s) <= s
    ensures '/' !in BeforeSlash(s)
    ensures |BeforeSlash(s)| < |s| ==> s[|BeforeSlash(s)|] == '/'
  {
    if s != "" && s[0] != '/' {
      SegmentIsPrefix(s[1..]);
    }
  }

  /** The reference tokens of a pointer (sections 3 and 4 of RFC 6901). */
  function Tokens(pointer: string): Option<seq<string>>
    decreases |pointer|
  {
    if pointer == "" then Some([])
    else if pointer[0] != '/' then None
    else
      var rest := pointer[1..];
      SegmentIsPrefix(rest);
      var below := Tokens(rest[|BeforeSlash(rest)|..]);
      if below.None? then None else Some([Unescape(BeforeSlash(rest))] + below.value)
  }

  predicate IsDigit(c: char)
  {
    '0' <= c <= '9'
  }

  function Digits(s: string): Option<nat>
  {
    if s == "" then Some(0)
    else
      var front, last := Digits(s[..|s| - 1]), s[|s| - 1];
      if front.None? || !IsDigit(last) then None else Some(10 * front.value + (last as int - '0' as int))
  }

  /** An array index (section 4 of RFC 6901): digits, without leading zeros. */
  function IndexOf(token: string): Option<nat>
  {
    if token == "" || (|token| > 1 && token[0] == '0') then None else Digits(token)
  }

  /** One operation at the tokens: `add` sets a member of an object or inserts into an
      array, `remove` and `replace` need the target to exist. */
  function ApplyAt(doc: Json, tokens: seq<string>, op: Op): Option<Json>
    decreases |tokens|, 1
  {
    if tokens == [] then (if op.Remove? then None else Some(op.value))
    else if doc.Arr? then ApplyInArray(doc.items, tokens, op)
    else if !doc.Obj? then None
    else if |tokens| == 1 then
      match op
      case Add(_, v) => Some(Obj(doc.members[tokens[0] := v]))
      case Remove(_) => if tokens[0] in doc.members then Some(Obj(doc.members - {tokens[0]})) else None
      case Replace(_, v) => if tokens[0] in doc.members then Some(Obj(doc.members[tokens[0] := v])) else None
    else if tokens[0] !in doc.members then None
    else
      var below := ApplyAt(doc.members[tokens[0]], tokens[1..], op);
      if below.None? then None else Some(Obj(doc.members[tokens[0] := below.value]))
  }

  function ApplyInArray(items: seq<Json>, tokens: seq<string>, op: Op): Option<Json>
    requires tokens != []
    decreases |tokens|, 0
  {
    var i := if tokens == ["-"] && op.Add? then Some(|items|) else IndexOf(tokens[0]);
    if i.None? || i.value > |items| then None
    else if |tokens| == 1 && op.Add? then Some(Arr(items[..i.value] + [op.value] + items[i.value..]))
    else if i.value == |items| then None
    else if |tokens| == 1 && op.Remove? then Some(Arr(items[..i.value] + items[i.value + 1..]))
    else if |tokens| == 1 then Some(Arr(items[i.value := op.value]))
    else
      var below := ApplyAt(items[i.value], tokens[1..], op);
      if below.None? then None else Some(Arr(items[i.value := below.value]))
  }

  function Apply(doc: Json, op: Op): Option<Json>
  {
    var tokens := Tokens(op.path);
    if tokens.None? then None else ApplyAt(doc, tokens.value, op)
  }

  function ApplyAll(doc: Json, ops: seq<Op>): Option<Json>
  {
    if ops == [] then Some(doc)
    else
      var front := ApplyAll(doc, ops[..|ops| - 1]);
      if front.None? then None else Apply(front.value, ops[|ops| - 1])
  }
}
