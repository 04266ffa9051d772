/** What a projection determines, and what writing the same payload again does. */
module ListingLaws {
  import opened Prelude
  import opened Json
  import opened Patch
  import opened PatchLaws
  import PatchExact
  import opened Listings
  import opened Upserts

  // --- the projection is faithful ---------------------------------------------------------

  lemma LocationRestores(a: Address, at: Point)
    ensures RestoredAddress(ProjectLocation(a, at)) == a && RestoredPoint(ProjectLocation(a, at)) == at
  {
  }

  lemma ContactRestores(c: Contact)
    ensures RestoredContact(ProjectContact(c)) == c
  {
  }

  lemma ProvenanceRestores(l: Listing)
    ensures TextOf(Get(ProjectProvenance(l), "source")) == l.source && TextOf(Get(ProjectProvenance(l), "notes")) == l.notes
  {
  }

  lemma CategoriesRestore(s: set<string>, known: set<string>)
    requires s <= known
    ensures RestoredCategories(Arr(Strings(SortedKeys(s))), known) == s
  {
  }

  lemma ProjectMembers(l: Listing)
    ensures var d := Project(l);
      && Get(d, "slug") == Str(l.slug) && Get(d, "name") == Str(l.name) && Get(d, "description") == TextOrNull(l.description)
      && Get(d, "categories") == Arr(Strings(SortedKeys(l.categories)))
      && Get(d, "location") == ProjectLocation(l.address, l.point) && Get(d, "contact") == ProjectContact(l.contact)
  {
    hide ProjectLocation, ProjectContact, ProjectMedia, ProjectProvenance, SortedKeys, InOrder, TextOrNull;
  }

  lemma ProjectMoreMembers(l: Listing)
    ensures var d := Project(l);
      && Get(d, "external_profiles") == Obj(l.externalProfiles) && Get(d, "attributes") == Obj(l.attributes)
      && Get(d, "custom_fields") == Obj(l.customFields) && Get(d, "reviews_disabled") == Bool(l.reviewsDisabled)
      && Get(d, "provenance") == ProjectProvenance(l) && Get(d, "media") == ProjectMedia(l.media)
  {
  }

  /** Restoring a projection gives the listing back, except for what a projection
      does not carry and for the media, which stay as they are. */
  lemma RestoreInvertsProject(x: Listing, l: Listing, known: set<string>)
    requires l.source != "" && l.categories <= known
    ensures Restored(x, Project(l), known) == l.(kind := x.kind, media := x.media, kept := x.kept)
  {
    ProjectMembers(l);
    ProjectMoreMembers(l);
    LocationRestores(l.address, l.point);
    ContactRestores(l.contact);
    ProvenanceRestores(l);
    CategoriesRestore(l.categories, known);
    hide Project, ProjectLocation, ProjectContact, ProjectProvenance, RestoredAddress, RestoredPoint, RestoredContact, SortedKeys;
  }

  /** No custom field holds null. */
  ghost predicate NoNulls(l: Listing)
  {
    forall k :: k in l.customFields ==> l.customFields[k] != Null
  }

  /** Equal up to null means the same `get` at every key and in every object. */
  lemma SameGet(a: Json, b: Json, k: string)
    requires a.Obj? && b.Obj? && SameUpToNull(a, b) && !Opens(a, b, k)
    ensures Get(a, k) == Get(b, k)
  {
  }

  lemma SameGetBelow(a: Json, b: Json, k: string, j: string)
    requires a.Obj? && b.Obj? && SameUpToNull(a, b)
    ensures Get(Get(a, k), j) == Get(Get(b, k), j)
  {
    if Opens(a, b, k) {
      assert EqualUpToNull(Slot(a.members[k].members, j), Slot(b.members[k].members, j));
    } else {
      SameGet(a, b, k);
    }
  }

  lemma SameLocation(a: Json, b: Json)
    requires a.Obj? && b.Obj? && SameUpToNull(a, b)
    ensures RestoredAddress(Get(a, "location")) == RestoredAddress(Get(b, "location"))
    ensures RestoredPoint(Get(a, "location")) == RestoredPoint(Get(b, "location"))
  {
    forall j ensures Get(Get(a, "location"), j) == Get(Get(b, "location"), j) {
      SameGetBelow(a, b, "location", j);
    }
    hide SameUpToNull, Get, GeoOf;
  }

  lemma SameContact(a: Json, b: Json)
    requires a.Obj? && b.Obj? && SameUpToNull(a, b)
    ensures RestoredContact(Get(a, "contact")) == RestoredContact(Get(b, "contact"))
  {
    forall j ensures Get(Get(a, "contact"), j) == Get(Get(b, "contact"), j) {
      SameGetBelow(a, b, "contact", j);
    }
    hide SameUpToNull, Get;
  }

  lemma SameLeaves(a: Json, b: Json)
    requires a.Obj? && b.Obj? && SameUpToNull(a, b)
    ensures Get(a, "slug") == Get(b, "slug") && Get(a, "name") == Get(b, "name")
    ensures Get(a, "description") == Get(b, "description") && Get(a, "categories") == Get(b, "categories")
    ensures Get(a, "external_profiles") == Get(b, "external_profiles") && Get(a, "attributes") == Get(b, "attributes")
    ensures Get(a, "reviews_disabled") == Get(b, "reviews_disabled")
  {
    hide SameUpToNull, Get;
    assert "/categories"[1] != "/provenance"[1] && "/attributes"[1] != "/provenance"[1];
    SameGet(a, b, "slug");
    SameGet(a, b, "name");
    SameGet(a, b, "description");
    SameGet(a, b, "categories");
    SameGet(a, b, "external_profiles");
    SameGet(a, b, "attributes");
    SameGet(a, b, "reviews_disabled");
  }

  lemma SameCustomFields(x: Listing, y: Listing)
    requires NoNulls(x) && NoNulls(y) && Project(x).Obj? && Project(y).Obj? && SameUpToNull(Project(x), Project(y))
    ensures x.customFields == y.customFields
  {
    ProjectMoreMembers(x);
    ProjectMoreMembers(y);
    hide Project;
    forall j ensures Slot(x.customFields, j) == Slot(y.customFields, j) {
      SameGetBelow(Project(x), Project(y), "custom_fields", j);
    }
    hide SameUpToNull;
    assert x.customFields.Keys == y.customFields.Keys by {
      forall j ensures j in x.customFields <==> j in y.customFields {
        assert Slot(x.customFields, j) == Slot(y.customFields, j);
      }
    }
    forall j | j in x.customFields ensures x.customFields[j] == y.customFields[j] {
      assert Slot(x.customFields, j) == Slot(y.customFields, j);
    }
  }

  /** Listings with the same projection up to null are the same in every projected
      field but the media and the source. */
  lemma SameProjectionSameListing(x: Listing, y: Listing)
    requires NoNulls(x) && NoNulls(y) && x.source == y.source && x.source != ""
    requires x.kind == y.kind && x.media == y.media && x.kept == y.kept
    requires Project(x).Obj? && Project(y).Obj? && SameUpToNull(Project(x), Project(y))
    ensures x == y
  {
    var known := x.categories + y.categories;
    RestoreInvertsProject(x, x, known);
    RestoreInvertsProject(x, y, known);
    SameCustomFields(x, y);
    ProjectMoreMembers(x);
    ProjectMoreMembers(y);
    SameLeaves(Project(x), Project(y));
    SameLocation(Project(x), Project(y));
    SameContact(Project(x), Project(y));
    SameGetBelow(Project(x), Project(y), "provenance", "source");
    SameGetBelow(Project(x), Project(y), "provenance", "notes");
    hide Project, SameUpToNull, Get, RestoredAddress, RestoredPoint, RestoredContact, RestoredCategories, ProjectProvenance;
  }

  lemma LocationKeysPlain(a: Address, at: Point)
    ensures forall j :: j in ProjectLocation(a, at).members ==> Plain(j)
  {
    assert Plain("address_line1") && Plain("address_line2") && Plain("locality") && Plain("region") && Plain("postal_code");
    assert Plain("country") && Plain("lat") && Plain("lon") && Plain("geo_precision");
    hide Plain, TextOrNull, NumberOrNull, GeoName;
  }

  lemma OtherKeysPlain(l: Listing)
    ensures forall j :: j in ProjectContact(l.contact).members ==> Plain(j)
    ensures forall j :: j in ProjectMedia(l.media).members ==> Plain(j)
    ensures forall j :: j in ProjectProvenance(l).members ==> Plain(j)
  {
    assert Plain("phone_e164") && Plain("email") && Plain("website") && Plain("social") && Plain("logo") && Plain("cover");
    assert Plain("gallery") && Plain("source") && Plain("notes");
    hide Plain, TextOrNull;
  }

  lemma TopWordsPlain()
    ensures Plain("slug") && Plain("name") && Plain("description") && Plain("categories") && Plain("location") && Plain("contact")
  {
  }

  lemma MoreTopWordsPlain()
    ensures Plain("external_profiles") && Plain("attributes") && Plain("media")
  {
  }

  lemma LastTopWordsPlain()
    ensures Plain("reviews_disabled") && Plain("custom_fields") && Plain("provenance")
  {
  }

  lemma TopKeysPlain(l: Listing)
    ensures forall k :: k in Project(l).members ==> Plain(k)
  {
    hide *;
    TopWordsPlain();
    MoreTopWordsPlain();
    LastTopWordsPlain();
    TopKeys(l);
  }

  lemma TopKeys(l: Listing)
    ensures Project(l).members.Keys == {"slug", "name", "description", "categories", "location", "contact", "external_profiles",
      "attributes", "media", "reviews_disabled", "custom_fields", "provenance"}
  {
  }

  /** All keys a diff looks at are plain. */
  predicate PlainDoc(d: Json)
  {
    && d.Obj?
    && forall k :: k in d.members ==>
         && Plain(k)
         && (d.members[k].Obj? && Recurses(TopPointer(k)) ==> forall j :: j in d.members[k].members ==> Plain(j))
  }

  ghost predicate FieldKeys(l: Listing)
  {
    forall k :: k in l.customFields ==> IsFieldKey(k)
  }

  lemma FieldKeyIsPlain(k: string)
    requires IsFieldKey(k)
    ensures Plain(k)
  {
  }

  lemma ProjectionIsPlain(l: Listing)
    requires FieldKeys(l)
    ensures PlainDoc(Project(l))
  {
    forall k | k in l.customFields ensures Plain(k) {
      FieldKeyIsPlain(k);
    }
    TopKeysPlain(l);
    LocationKeysPlain(l.address, l.point);
    OtherKeysPlain(l);
    ProjectMembers(l);
    ProjectMoreMembers(l);
    var d := Project(l);
    hide Plain, Project, ProjectLocation, ProjectContact, ProjectMedia, ProjectProvenance, Recurses, SortedKeys, IsFieldKey;
    forall k, j | k in d.members && Recurses(TopPointer(k)) && d.members[k].Obj? && j in d.members[k].members ensures Plain(j) {
      RecursesNames(k);
      assert Get(d, k) == d.members[k];
    }
  }

  lemma PlainDocsSafe(a: Json, b: Json)
    requires PlainDoc(a) && PlainDoc(b)
    ensures ChangedKeysSafe(a, b)
  {
    hide Plain, SafeKey;
    forall k | ChangedTop(a, b, k) ensures SafeKey(k) {
      assert k in a.members || k in b.members;
      PlainIsSafe(k);
    }
    forall k, j | ChangedNested(a, b, k, j) ensures SafeKey(j) {
      assert j in a.members[k].members || j in b.members[k].members;
      PlainIsSafe(j);
    }
  }

  // --- writing the same payload again --------------------------------------------------------

  lemma NoDiffWithItself(d: Json)
    requires d.Obj?
    ensures Diff(d, d) == []
  {
    DiffEmptyIffSame(d, d);
  }

  lemma UpdateAgain(t: Table, s: Schema, p: Payload, o: Options, id: nat, l: Listing, creating: bool)
    requires Sound(t) && id in t.rows && !o.mustCreate && CategoriesKnown(s, p)
    requires Acceptable(s, p, l.point, creating) && t.rows[id] == Applied(s, p, l) && l.kind == s.kind && !NullSlug(s, p)
    ensures Update(t, s, p, o, id) == Ok(Write(t, id, Unchanged, Some(Project(t.rows[id])), []))
  {
    var r := t.rows[id];
    AppliedTwice(s, p, l, creating);
    NoDiffWithItself(Project(r));
    assert Applied(s, p, l).kind == s.kind;
    hide Diff, Project, Acceptable, CategoriesKnown, Applied;
    assert !SlugTaken(t, s.kind, r.slug, id);
    assert t.rows[id := r] == t.rows;
  }

  /** The row a successful upsert wrote, and what it was made from. */
  lemma UpsertWrote(t: Table, s: Schema, p: Payload, o: Options) returns (l: Listing, creating: bool)
    requires Sound(t) && Upsert(t, s, p, o).Ok?
    ensures var w := Upsert(t, s, p, o).value;
      && w.id in w.table.rows && w.table.rows[w.id] == Applied(s, p, l)
      && l.kind == s.kind && Acceptable(s, p, l.point, creating) && CategoriesKnown(s, p) && !NullSlug(s, p) && !p.hasRejectedKey
      && (p.id.Some? ==> w.id == p.id.value && !creating)
      && (p.id.None? && MatchSlug(s, p) == "" ==> creating)
      && (!creating ==> w.id in t.rows && l == t.rows[w.id] && (p.id.None? ==> l.slug == MatchSlug(s, p) && MatchSlug(s, p) != ""))
      && (creating ==>
            && l == NewListing(s.kind, o.source) && NonEmpty(p.slug) && NonEmpty(p.name)
            && !(o.suppressionCheck && s.suppressed(p)) && w.table.next == w.id + 1 && t.next == w.id)
  {
    hide Diff, Project, Acceptable, CategoriesKnown, Applied;
    var w := Upsert(t, s, p, o).value;
    creating := Target(t, s, p).value.None?;
    if creating {
      l := NewListing(s.kind, o.source);
    } else {
      l := t.rows[w.id];
      if p.id.None? {
        assert Least(WithSlug(t, s.kind, MatchSlug(s, p))) in WithSlug(t, s.kind, MatchSlug(s, p));
      }
    }
  }

  /** A successful upsert, written again, finds its row unchanged, unless it was
      addressed by a slug that normalises to nothing: then it conflicts. */
  lemma UpsertAgain(t: Table, s: Schema, p: Payload, o: Options)
    requires Sound(t) && Upsert(t, s, p, o).Ok? && !o.mustCreate
    ensures var w := Upsert(t, s, p, o).value;
      Upsert(w.table, s, p, o) ==
        if p.id.Some? || MatchSlug(s, p) != ""
        then Ok(Write(w.table, w.id, Unchanged, Some(Project(w.table.rows[w.id])), []))
        else Err(Conflict)
  {
    UpsertSound(t, s, p, o);
    var w := Upsert(t, s, p, o).value;
    var l, creating := UpsertWrote(t, s, p, o);
    var r := w.table.rows[w.id];
    assert r.kind == s.kind && (p.slug.Given? ==> r.slug == MatchSlug(s, p));
    if p.id.Some? || MatchSlug(s, p) != "" {
      UpdateAgain(w.table, s, p, o, w.id, l, creating);
      if p.id.None? {
        OnlyWithSlug(w.table, s.kind, MatchSlug(s, p), w.id);
      }
      hide Update, Create, Diff, Project, Acceptable, CategoriesKnown, Applied, Sound;
      assert Target(w.table, s, p) == Ok(Some(w.id));
    } else {
      hide Update, Diff, Project, Acceptable, CategoriesKnown;
      assert SlugTaken(w.table, s.kind, "", w.table.next) by { assert r.slug == ""; }
      assert Applied(s, p, l).slug == "";
      assert WriteProblem(w.table, s, p, w.table.next, l, true) == Some(Conflict);
    }
  }

  // --- the patches of a directory ---------------------------------------------------------------

  ghost predicate AllFieldKeys(t: Table)
  {
    forall id :: id in t.rows ==> FieldKeys(t.rows[id])
  }

  lemma AppliedKeepsFieldKeys(s: Schema, p: Payload, l: Listing)
    requires Validated(s) && FieldKeys(l)
    ensures FieldKeys(Applied(s, p, l))
  {
    hide PointApplied, AddressApplied, ContactApplied, ObjectApplied, IsFieldKey;
  }

  lemma UpsertKeepsFieldKeys(t: Table, s: Schema, p: Payload, o: Options)
    requires Sound(t) && Validated(s) && AllFieldKeys(t) && Upsert(t, s, p, o).Ok?
    ensures AllFieldKeys(Upsert(t, s, p, o).value.table)
  {
    var l, creating := UpsertWrote(t, s, p, o);
    var w := Upsert(t, s, p, o).value;
    assert w.table.rows == t.rows[w.id := w.table.rows[w.id]] by {
      hide Applied, WriteProblem, Diff, Project;
    }
    hide Upsert, Applied, IsFieldKey, Sound, Validated;
    AppliedKeepsFieldKeys(s, p, l);
  }

  /** One upsert command, for any listing type. */
  datatype UpsertCommand = UpsertCommand(schema: Schema, payload: Payload, options: Options)

  function Upserted(t: Table, c: UpsertCommand): Table
  {
    var r := Upsert(t, c.schema, c.payload, c.options);
    if r.Ok? then r.value.table else t
  }

  function UpsertRun(t: Table, cs: seq<UpsertCommand>): Table
  {
    if cs == [] then t else Upserted(UpsertRun(t, cs[..|cs| - 1]), cs[|cs| - 1])
  }

  lemma {:induction false} RunKeepsFieldKeys(cs: seq<UpsertCommand>)
    requires forall i :: 0 <= i < |cs| ==> Validated(cs[i].schema)
    ensures Sound(UpsertRun(Table(map[], 0), cs)) && AllFieldKeys(UpsertRun(Table(map[], 0), cs))
    decreases |cs|
  {
    hide Upsert, Validated;
    if cs != [] {
      hide Sound, AllFieldKeys;
      var c, t := cs[|cs| - 1], UpsertRun(Table(map[], 0), cs[..|cs| - 1]);
      RunKeepsFieldKeys(cs[..|cs| - 1]);
      if Upsert(t, c.schema, c.payload, c.options).Ok? {
        UpsertSound(t, c.schema, c.payload, c.options);
        UpsertKeepsFieldKeys(t, c.schema, c.payload, c.options);
      }
    }
  }

  /** In every run of upserts from an empty directory, the changes an update announces,
      applied in any order to the projection before it, give the projection after it. */
  lemma AnnouncedChangesApply(cs: seq<UpsertCommand>, c: UpsertCommand, ops: seq<Op>)
    requires (forall i :: 0 <= i < |cs| ==> Validated(cs[i].schema)) && Validated(c.schema)
    requires var t := UpsertRun(Table(map[], 0), cs);
      && Upsert(t, c.schema, c.payload, c.options).Ok?
      && var w := Upsert(t, c.schema, c.payload, c.options).value;
         !w.outcome.Created? && multiset(ops) == multiset(w.changes)
    ensures var w := Upsert(UpsertRun(Table(map[], 0), cs), c.schema, c.payload, c.options).value;
      && w.before.Some? && w.before.value.Obj? && w.id in w.table.rows && Project(w.table.rows[w.id]).Obj?
      && PatchExact.Correct(w.before.value, Project(w.table.rows[w.id]), ops)
  {
    var t := UpsertRun(Table(map[], 0), cs);
    RunKeepsFieldKeys(cs);
    var w := Upsert(t, c.schema, c.payload, c.options).value;
    UpsertKeepsFieldKeys(t, c.schema, c.payload, c.options);
    UpdateAnnounces(t, c);
    var a, b := t.rows[w.id], w.table.rows[w.id];
    assert Project(a).Obj? && Project(b).Obj?;
    assert FieldKeys(a) && FieldKeys(b);
    hide Upsert, Project, UpsertRun, IsFieldKey, Diff, Validated, Sound;
    ProjectionIsPlain(a);
    ProjectionIsPlain(b);
    PlainDocsSafe(Project(a), Project(b));
    PatchExact.PatchCorrectIffKeysSafe(Project(a), Project(b), ops);
  }

  lemma UpdateAnnounces(t: Table, c: UpsertCommand)
    requires Upsert(t, c.schema, c.payload, c.options).Ok? && !Upsert(t, c.schema, c.payload, c.options).value.outcome.Created?
    ensures var w := Upsert(t, c.schema, c.payload, c.options).value;
      && w.id in t.rows && w.id in w.table.rows && w.before == Some(Project(t.rows[w.id]))
      && w.changes == Diff(Project(t.rows[w.id]), Project(w.table.rows[w.id]))
  {
    hide Diff, Project, Applied, WriteProblem;
  }
}
