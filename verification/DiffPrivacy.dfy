/** A redacted `listing.updated` says which members of the contact changed and
    nothing of what they were or became (directory/patch.py:72-110,
    directory/services.py:752-765, audit/redaction.py:138-160). */
module DiffPrivacy {
  import opened Prelude
  import opened Json
  import opened Patch
  import opened PatchLaws
  import opened Redaction
  import opened RedactionLaws
  import opened PatchPrivacy
  import Listings
  import ListingLaws

  // --- operations that differ only in a private value --------------------------------------------

  /** An operation as the event carries it. */
  function OpJson(op: Op): Json
  {
    match op
    case Add(path, value) => Obj(map["op" := Str("add"), "path" := Str(path), "value" := value])
    case Remove(path) => Obj(map["op" := Str("remove"), "path" := Str(path)])
    case Replace(path, value) => Obj(map["op" := Str("replace"), "path" := Str(path), "value" := value])
  }

  function OpsJson(ops: seq<Op>): (r: seq<Json>)
    ensures |r| == |ops| && forall i :: 0 <= i < |ops| ==> r[i] == OpJson(ops[i])
  {
    seq(|ops|, i requires 0 <= i < |ops| => OpJson(ops[i]))
  }

  predicate Twins(a: Op, b: Op)
  {
    || a == b
    || (a.path == b.path && FirstToken(a.path, "contact") && ((a.Add? && b.Add?) || (a.Replace? && b.Replace?)))
  }

  ghost predicate TwinOps(a: seq<Op>, b: seq<Op>)
  {
    |a| == |b| && forall i :: 0 <= i < |a| ==> Twins(a[i], b[i])
  }

  /** The same change of a member, up to the values: none, an addition, a removal or a
      replacement on both sides. */
  predicate SameChange(before: Option<Json>, after: Option<Json>, before': Option<Json>, after': Option<Json>)
  {
    && (EqualUpToNull(before, after) <==> EqualUpToNull(before', after'))
    && (!EqualUpToNull(before, after) ==> (Absent(before) <==> Absent(before')) && (Absent(after) <==> Absent(after')))
  }

  lemma LeafTwins(pointer: string, b: Option<Json>, a: Option<Json>, b': Option<Json>, a': Option<Json>)
    requires SameChange(b, a, b', a') && FirstToken(pointer, "contact")
    ensures TwinOps(LeafOps(pointer, b, a), LeafOps(pointer, b', a'))
  {
    hide FirstToken;
  }

  lemma SelfTwins(ops: seq<Op>)
    ensures TwinOps(ops, ops)
  {
  }

  lemma {:induction false} KeysTwins(before: Json, after: Json, before': Json, after': Json, path: string, keys: seq<string>)
    requires before.Obj? && after.Obj? && before'.Obj? && after'.Obj?
    requires forall k :: k in keys ==> TwinOps(KeyOps(before, after, path, k), KeyOps(before', after', path, k))
    ensures TwinOps(KeysOps(before, after, path, keys), KeysOps(before', after', path, keys))
    decreases |keys|
  {
    hide KeyOps, Twins;
    if keys != [] {
      KeysTwins(before, after, before', after', path, keys[..|keys| - 1]);
    }
  }

  // --- the contact ---------------------------------------------------------------------------------

  lemma ContactPointer(j: string)
    ensures FirstToken("/contact" + "/" + j, "contact")
  {
    assert "/" + "contact" == "/contact" && '/' !in "contact" && '~' !in "contact";
    hide Pieces, FirstToken;
    PlainPieces("contact");
    PiecesJoin("/contact", j);
    FirstTokenIsPiece("/contact" + "/" + j, "contact");
  }

  /** The contacts differ in the same members. */
  ghost predicate SameMembersDiffer(before: Json, after: Json, before': Json, after': Json)
  {
    && before.Obj? && after.Obj? && before'.Obj? && after'.Obj?
    && before.members.Keys + after.members.Keys == before'.members.Keys + after'.members.Keys
    && forall j :: j in before.members.Keys + after.members.Keys ==>
         SameChange(Slot(before.members, j), Slot(after.members, j), Slot(before'.members, j), Slot(after'.members, j))
  }

  lemma ContactTwins(before: Json, after: Json, before': Json, after': Json)
    requires SameMembersDiffer(before, after, before', after')
    ensures TwinOps(DiffAt(before, after, "/contact"), DiffAt(before', after', "/contact"))
  {
    var keys := SortedKeys(before.members.Keys + after.members.Keys);
    hide SortedKeys, InOrder, TwinOps, LeafOps, SameChange, KeysOps, FirstToken, Recurses;
    forall j | j in keys ensures TwinOps(KeyOps(before, after, "/contact", j), KeyOps(before', after', "/contact", j)) {
      NoDeeper("/contact", j);
      ContactPointer(j);
      LeafTwins("/contact" + "/" + j, Slot(before.members, j), Slot(after.members, j), Slot(before'.members, j), Slot(after'.members, j));
    }
    KeysTwins(before, after, before', after', "/contact", keys);
  }

  /** Two pairs of documents that agree everywhere but in the contact. */
  ghost predicate AgreeButContact(a: Json, b: Json)
  {
    && a.Obj? && b.Obj? && a.members.Keys == b.members.Keys && "contact" in a.members
    && a.members["contact"].Obj? && b.members["contact"].Obj?
    && forall k :: k in a.members && k != "contact" ==> a.members[k] == b.members[k]
  }

  lemma TopTwins(before: Json, after: Json, before': Json, after': Json, k: string)
    requires AgreeButContact(before, before') && AgreeButContact(after, after')
    requires SameMembersDiffer(before.members["contact"], after.members["contact"], before'.members["contact"], after'.members["contact"])
    ensures TwinOps(KeyOps(before, after, "", k), KeyOps(before', after', "", k))
  {
    hide DiffAt, LeafOps, TwinOps, SameMembersDiffer;
    if k == "contact" {
      assert "" + "/" + "contact" == "/contact" && Recurses("/contact");
      ContactTwins(before.members[k], after.members[k], before'.members[k], after'.members[k]);
    } else {
      assert Slot(before.members, k) == Slot(before'.members, k) && Slot(after.members, k) == Slot(after'.members, k);
      SelfTwins(KeyOps(before, after, "", k));
    }
  }

  lemma DiffTwins(before: Json, after: Json, before': Json, after': Json)
    requires AgreeButContact(before, before') && AgreeButContact(after, after')
    requires SameMembersDiffer(before.members["contact"], after.members["contact"], before'.members["contact"], after'.members["contact"])
    ensures TwinOps(Diff(before, after), Diff(before', after'))
  {
    var keys := SortedKeys(before.members.Keys + after.members.Keys);
    hide SortedKeys, InOrder, TwinOps, KeyOps, KeysOps, SameMembersDiffer;
    forall k | k in keys ensures TwinOps(KeyOps(before, after, "", k), KeyOps(before', after', "", k)) {
      TopTwins(before, after, before', after', k);
    }
    KeysTwins(before, after, before', after', "", keys);
  }

  // --- the event -------------------------------------------------------------------------------------

  lemma ContactOpWithheld(path: string, granted: set<Scope>, hidden: set<string>)
    requires FirstToken(path, "contact") && Contact !in granted
    ensures ValueWithheld(path, [PatchRule("/contact", Contact)], granted, hidden)
  {
    var rules := [PatchRule("/contact", Contact)];
    assert PatchRulesFor("listing.updated") == Some(rules);
    hide FirstToken, Reached, UnderRule, PatchRulesFor;
    PrivateIsReached("listing.updated", path, granted);
    ReachedIsUnderRule(path, rules, granted);
  }

  lemma OpJsonShape(a: Op, b: Op)
    requires a.path == b.path && ((a.Add? && b.Add?) || (a.Replace? && b.Replace?))
    ensures var x, y := OpJson(a).members, OpJson(b).members;
      && x.Keys == y.Keys && "value" in x && PathText(x) == a.path
      && forall k :: k in x && k != "value" ==> x[k] == y[k]
  {
    var x, y := OpJson(a).members, OpJson(b).members;
    assert x.Keys == {"op", "path", "value"} && y.Keys == {"op", "path", "value"};
  }

  lemma TwinsAlike(a: Op, b: Op, granted: set<Scope>, hidden: set<string>)
    requires Twins(a, b) && Contact !in granted
    ensures AlikeOp(OpJson(a), OpJson(b), [PatchRule("/contact", Contact)], granted, hidden)
  {
    hide FirstToken, ValueWithheld, MembersWithheld, PathText;
    if a != b {
      assert OpJson(a).Obj? && OpJson(b).Obj?;
      OpJsonShape(a, b);
      hide OpJson;
      ContactOpWithheld(a.path, granted, hidden);
    }
  }

  /** The `listing.updated` event of a listing type. */
  function Updated(ops: seq<Op>, kind: string, rest: map<string, Json>): Envelope
  {
    Envelope("listing.updated", Some(map["changes" := Arr(OpsJson(ops)), "type" := Str(kind)]), None, rest)
  }

  lemma TwinEventsAlike(a: seq<Op>, b: seq<Op>, kind: string, rest: map<string, Json>, granted: set<Scope>, hidden: set<string>)
    requires TwinOps(a, b) && Contact !in granted
    ensures Redact(Updated(a, kind, rest), granted, hidden) == Redact(Updated(b, kind, rest), granted, hidden)
  {
    var x, y := Updated(a, kind, rest), Updated(b, kind, rest);
    var rules := [PatchRule("/contact", Contact)];
    assert PatchRulesFor("listing.updated") == Some(rules);
    forall i | 0 <= i < |a| ensures AlikeOp(OpsJson(a)[i], OpsJson(b)[i], rules, granted, hidden) {
      TwinsAlike(a[i], b[i], granted, hidden);
    }
    hide AlikeOp, Redact, PatchRulesFor, RulesFor, OpsJson, Covered, Blank, Agree;
    assert AlikeMember("listing.updated", "changes", Arr(OpsJson(a)), Arr(OpsJson(b)), granted, hidden);
    BlankHidesExactly(Str(kind), Str(kind), Tails(Covered("listing.updated", granted, hidden), "type"));
    assert AlikeMember("listing.updated", "type", Str(kind), Str(kind), granted, hidden);
    assert AlikeData("listing.updated", Data(x), Data(y), granted, hidden);
    RedactHidesExactly(x, y, granted, hidden);
  }

  lemma EarlyMembersAgree(a: Listings.Listing, c: Listings.Contact, k: string)
    requires k in {"slug", "name", "description", "categories", "location"}
    ensures Listings.Get(Listings.Project(a), k) == Listings.Get(Listings.Project(a.(contact := c)), k)
  {
    hide *;
    ListingLaws.ProjectMembers(a);
    ListingLaws.ProjectMembers(a.(contact := c));
  }

  lemma LateMembersAgree(a: Listings.Listing, c: Listings.Contact, k: string)
    requires k in {"external_profiles", "attributes", "media", "reviews_disabled", "custom_fields", "provenance"}
    ensures Listings.Get(Listings.Project(a), k) == Listings.Get(Listings.Project(a.(contact := c)), k)
  {
    assert Listings.ProjectProvenance(a) == Listings.ProjectProvenance(a.(contact := c));
    hide *;
    ListingLaws.ProjectMoreMembers(a);
    ListingLaws.ProjectMoreMembers(a.(contact := c));
  }

  lemma ContactMember(a: Listings.Listing)
    ensures Listings.Project(a).Obj? && "contact" in Listings.Project(a).members
    ensures Listings.Project(a).members["contact"] == Listings.ProjectContact(a.contact)
    ensures Listings.ProjectContact(a.contact).Obj?
  {
    hide Listings.ProjectLocation, Listings.ProjectMedia, Listings.ProjectProvenance, Listings.Strings, SortedKeys, InOrder;
  }

  lemma SameGetSameMember(a: Json, b: Json, k: string)
    requires a.Obj? && b.Obj? && k in a.members && k in b.members && Listings.Get(a, k) == Listings.Get(b, k)
    ensures a.members[k] == b.members[k]
  {
  }

  lemma ProjectionsAgree(a: Listings.Listing, c: Listings.Contact)
    ensures AgreeButContact(Listings.Project(a), Listings.Project(a.(contact := c)))
  {
    hide Listings.Project, Listings.ProjectContact, Listings.Get;
    var b := a.(contact := c);
    ContactMember(a);
    ContactMember(b);
    ListingLaws.TopKeys(a);
    ListingLaws.TopKeys(b);
    var pa, pb := Listings.Project(a), Listings.Project(b);
    forall k | k in pa.members && k != "contact" ensures pa.members[k] == pb.members[k] {
      if k in {"slug", "name", "description", "categories", "location"} {
        EarlyMembersAgree(a, c, k);
      } else {
        LateMembersAgree(a, c, k);
      }
      SameGetSameMember(pa, pb, k);
    }
  }

  /** Without the contact scope, the event of an update is the same for any two contacts
      before and any two after that differ in the same members: it carries nothing of
      the values. */
  lemma ContactIsPrivate(a: Listings.Listing, b: Listings.Listing, from: Listings.Contact, to: Listings.Contact,
                         kind: string, rest: map<string, Json>, granted: set<Scope>, hidden: set<string>)
    requires Contact !in granted
    requires SameMembersDiffer(Listings.ProjectContact(a.contact), Listings.ProjectContact(b.contact),
                               Listings.ProjectContact(from), Listings.ProjectContact(to))
    ensures var a', b' := a.(contact := from), b.(contact := to);
      Redact(Updated(Diff(Listings.Project(a), Listings.Project(b)), kind, rest), granted, hidden)
        == Redact(Updated(Diff(Listings.Project(a'), Listings.Project(b')), kind, rest), granted, hidden)
  {
    var a', b' := a.(contact := from), b.(contact := to);
    hide Listings.Project, Listings.ProjectContact, Diff, SameMembersDiffer, TwinOps, Redact, Updated;
    ProjectionsAgree(a, from);
    ProjectionsAgree(b, to);
    ContactMember(a);
    ContactMember(b);
    ContactMember(a');
    ContactMember(b');
    DiffTwins(Listings.Project(a), Listings.Project(b), Listings.Project(a'), Listings.Project(b'));
    TwinEventsAlike(Diff(Listings.Project(a), Listings.Project(b)), Diff(Listings.Project(a'), Listings.Project(b')), kind, rest, granted, hidden);
  }
}
