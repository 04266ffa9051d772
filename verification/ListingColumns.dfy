/** Which place of the listing's document each key of a payload reaches: told on the
    projections before and after an upsert (directory/services.py:547-649, 652-766;
    directory/patch.py:33-69). */
module ListingColumns {
  import opened Prelude
  import opened Json
  import opened Patch
  import opened Listings
  import opened Upserts
  import opened ListingLaws

  // --- one key --------------------------------------------------------------------------------

  /** A text as the document shows it. */
  function Shown(t: string): Json
  {
    if t == "" then Null else Str(t)
  }

  /** The key holds the given value's normal form, or what it held. */
  predicate Reaches(was: Json, now: Json, key: string, g: Given<Text>, normal: Text -> string)
  {
    Get(now, key) == if g.Given? then Shown(normal(g.value)) else Get(was, key)
  }

  /** The document's own names, and the two a listing always has. */
  predicate LeavesReached(s: Schema, p: Payload, was: Json, now: Json)
  {
    && Get(now, "name") == (if p.name.Given? then Str(s.text(p.name.value)) else Get(was, "name"))
    && Get(now, "slug") == (if p.slug.Given? then Str(s.slug(p.slug.value)) else Get(was, "slug"))
    && Reaches(was, now, "description", p.description, s.text)
    && Get(now, "reviews_disabled") == (if p.reviewsDisabled.Given? then Bool(p.reviewsDisabled.value) else Get(was, "reviews_disabled"))
  }

  predicate AddressReached(s: Schema, p: AddressPayload, was: Json, now: Json)
  {
    && Reaches(was, now, "address_line1", p.line1, s.text) && Reaches(was, now, "address_line2", p.line2, s.text)
    && Reaches(was, now, "locality", p.locality, s.text) && Reaches(was, now, "region", p.region, s.text)
    && Reaches(was, now, "postal_code", p.postalCode, s.text) && Reaches(was, now, "country", p.country, s.country)
  }

  /** The coordinate the payload asks for, or the one there is. */
  function Wanted(s: Schema, g: Given<Text>, was: Json): Json
  {
    if g.Missing? || s.coordinate(g.value).None? then was
    else if s.coordinate(g.value).value.None? then Null else Num(s.coordinate(g.value).value.value)
  }

  /** A payload that says nothing of the point leaves it; one that leaves a coordinate
      out clears it; any other sets both, with the precision given, the one there was,
      or that of the locality. */
  predicate PointReached(s: Schema, p: Payload, was: Json, now: Json)
  {
    var lat, lon := Wanted(s, p.lat, Get(was, "lat")), Wanted(s, p.lon, Get(was, "lon"));
    if p.lat.Missing? && p.lon.Missing? && p.precision.Missing? then
      Get(now, "lat") == Get(was, "lat") && Get(now, "lon") == Get(was, "lon") && Get(now, "geo_precision") == Get(was, "geo_precision")
    else if lat == Null || lon == Null then
      Get(now, "lat") == Null && Get(now, "lon") == Null && Get(now, "geo_precision") == Str("none")
    else
      && Get(now, "lat") == lat && Get(now, "lon") == lon
      && Get(now, "geo_precision") ==
         (if p.precision.Given? && p.precision.value.Some? then Str(GeoName(p.precision.value.value))
          else if Get(was, "geo_precision") == Str("none") then Str("locality") else Get(was, "geo_precision"))
  }

  predicate ContactReached(s: Schema, p: Payload, was: Json, now: Json)
  {
    && Get(now, "phone_e164") ==
       (if p.phone.Given? && s.phone(p.phone.value).Some? then Shown(s.phone(p.phone.value).value) else Get(was, "phone_e164"))
    && Reaches(was, now, "email", p.email, s.email) && Reaches(was, now, "website", p.website, s.website)
    && Get(now, "social") ==
       (if p.social.Missing? then Get(was, "social") else if p.social.value.IsList? then Arr(p.social.value.items) else Arr([]))
  }

  /** A null object empties the key. */
  predicate ObjectReached(g: Given<ObjectValue>, was: Json, now: Json)
  {
    now == if g.Missing? then was else if g.value.IsObject? then Obj(g.value.members) else Obj(map[])
  }

  /** A custom field given a value has it, one given null is gone, the others stay. */
  ghost predicate FieldsReached(s: Schema, p: Payload, was: Json, now: Json)
  {
    var cleaned := if p.customFields.Given? && s.clean(p.customFields.value).Some? then s.clean(p.customFields.value).value else map[];
    && was.Obj? && now.Obj?
    && forall k ::
         && (k in now.members <==> if k in cleaned then cleaned[k] != Null else k in was.members)
         && Get(now, k) == if k in cleaned then cleaned[k] else Get(was, k)
  }

  /** The categories given, in order, without the empty one. */
  ghost predicate CategoriesReached(p: Payload, was: Json, now: Json)
  {
    if p.categories.Missing? then now == was
    else
      && now.Arr? && (forall i :: 0 <= i < |now.items| ==> now.items[i].Str?)
      && InOrder(seq(|now.items|, i requires 0 <= i < |now.items| => TextOf(now.items[i])))
      && forall c :: Str(c) in now.items <==> c in p.categories.value && c != ""
  }

  /** Every place of the document, after the payload. */
  ghost predicate DocumentReached(s: Schema, p: Payload, was: Json, now: Json)
  {
    && LeavesReached(s, p, was, now)
    && AddressReached(s, p.address, Get(was, "location"), Get(now, "location"))
    && PointReached(s, p, Get(was, "location"), Get(now, "location"))
    && ContactReached(s, p, Get(was, "contact"), Get(now, "contact"))
    && ObjectReached(p.externalProfiles, Get(was, "external_profiles"), Get(now, "external_profiles"))
    && ObjectReached(p.attributes, Get(was, "attributes"), Get(now, "attributes"))
    && FieldsReached(s, p, Get(was, "custom_fields"), Get(now, "custom_fields"))
    && CategoriesReached(p, Get(was, "categories"), Get(now, "categories"))
    && Get(now, "media") == Get(was, "media") && Get(now, "provenance") == Get(was, "provenance")
  }

  // --- the write reaches them -----------------------------------------------------------------

  lemma LocationParts(a: Address, at: Point)
    ensures var d := ProjectLocation(a, at);
      && Get(d, "address_line1") == Shown(a.line1) && Get(d, "address_line2") == Shown(a.line2)
      && Get(d, "locality") == Shown(a.locality) && Get(d, "region") == Shown(a.region)
      && Get(d, "postal_code") == Shown(a.postalCode) && Get(d, "country") == Shown(a.country)
      && Get(d, "lat") == NumberOrNull(at.lat) && Get(d, "lon") == NumberOrNull(at.lon)
      && Get(d, "geo_precision") == Str(GeoName(at.geo))
  {
  }

  lemma ContactParts(c: Contact)
    ensures var d := ProjectContact(c);
      && Get(d, "phone_e164") == Shown(c.phone) && Get(d, "email") == Shown(c.email) && Get(d, "website") == Shown(c.website)
      && Get(d, "social") == Arr(c.social)
  {
  }

  lemma AddressWritten(s: Schema, p: AddressPayload, a: Address, at: Point, to: Point)
    ensures AddressReached(s, p, ProjectLocation(a, at), ProjectLocation(AddressApplied(s, p, a), to))
  {
    hide ProjectLocation, Get, Shown;
    LocationParts(a, at);
    LocationParts(AddressApplied(s, p, a), to);
  }

  /** The document shows the point. */
  predicate ShowsPoint(d: Json, at: Point)
  {
    Get(d, "lat") == NumberOrNull(at.lat) && Get(d, "lon") == NumberOrNull(at.lon) && Get(d, "geo_precision") == Str(GeoName(at.geo))
  }

  lemma PointWritten(s: Schema, p: Payload, at: Point, was: Json, now: Json)
    requires PointGiven(p) ==> PointAcceptable(s, p, at)
    requires ShowsPoint(was, at) && ShowsPoint(now, PointApplied(s, p, at))
    ensures PointReached(s, p, was, now)
  {
    hide Get, GeoName;
    PrecisionNames(at.geo);
    PrecisionNames(NoPrecision);
    assert GeoName(LocalityCentre) == "locality" by { LocalityName(); }
  }

  lemma LocalityName()
    ensures GeoName(LocalityCentre) == "locality"
  {
  }

  /** The media as the document shows them. */
  lemma MediaShown(l: Listing)
    ensures var d := Get(Project(l), "media");
      Get(d, "logo") == l.media.logo && Get(d, "cover") == l.media.cover && Get(d, "gallery") == Arr(l.media.gallery)
  {
    assert Get(ProjectMedia(l.media), "logo") == l.media.logo && Get(ProjectMedia(l.media), "cover") == l.media.cover;
    assert Get(ProjectMedia(l.media), "gallery") == Arr(l.media.gallery);
    hide Project, ProjectMedia, ProjectProvenance, Get;
    ProjectMoreMembers(l);
  }

  lemma LocationReached(s: Schema, p: Payload, a: Address, at: Point)
    requires PointGiven(p) ==> PointAcceptable(s, p, at)
    ensures var was, now := ProjectLocation(a, at), ProjectLocation(AddressApplied(s, p.address, a), PointApplied(s, p, at));
      AddressReached(s, p.address, was, now) && PointReached(s, p, was, now)
  {
    var b, to := AddressApplied(s, p.address, a), PointApplied(s, p, at);
    AddressWritten(s, p.address, a, at, to);
    hide ProjectLocation, Get, AddressApplied, PointApplied, PointReached, AddressReached, PointAcceptable;
    LocationParts(a, at);
    LocationParts(b, to);
    PointWritten(s, p, at, ProjectLocation(a, at), ProjectLocation(b, to));
  }

  lemma PrecisionNames(g: Geo)
    ensures GeoName(g) == "none" <==> g == NoPrecision
  {
  }

  lemma ContactWritten(s: Schema, p: Payload, c: Contact)
    ensures ContactReached(s, p, ProjectContact(c), ProjectContact(ContactApplied(s, p, c)))
  {
    ContactParts(c);
    ContactParts(ContactApplied(s, p, c));
    hide ProjectContact, Get;
  }

  lemma FieldsWritten(s: Schema, p: Payload, current: map<string, Json>)
    ensures FieldsReached(s, p, Obj(current), Obj(CustomApplied(s, p, current)))
  {
  }

  lemma StringsHold(keys: seq<string>, c: string)
    ensures Str(c) in Strings(keys) <==> c in keys
  {
    if c in keys {
      var i :| 0 <= i < |keys| && keys[i] == c;
      assert Strings(keys)[i] == Str(c);
    }
  }

  lemma StringsTexts(keys: seq<string>)
    ensures var items := Strings(keys); seq(|items|, i requires 0 <= i < |items| => TextOf(items[i])) == keys
  {
  }

  lemma CategoriesWritten(p: Payload, chosen: set<string>, current: set<string>)
    requires chosen == if p.categories.Given? then p.categories.value - {""} else current
    ensures CategoriesReached(p, Arr(Strings(SortedKeys(current))), Arr(Strings(SortedKeys(chosen))))
  {
    var keys := SortedKeys(chosen);
    hide SortedKeys, InOrder, Strings, TextOf;
    StringsTexts(keys);
    forall c ensures Str(c) in Strings(keys) <==> c in chosen {
      StringsHold(keys, c);
    }
  }

  lemma SetShown(g: Given<Text>, f: Text -> string, current: string)
    ensures TextOrNull(Set(g, f, current)) == if g.Given? then Shown(f(g.value)) else TextOrNull(current)
  {
  }

  lemma LeavesWritten(s: Schema, p: Payload, l: Listing)
    ensures LeavesReached(s, p, Project(l), Project(Applied(s, p, l)))
  {
    var r := Applied(s, p, l);
    assert r.name == Set(p.name, s.text, l.name) && r.slug == Set(p.slug, s.slug, l.slug);
    assert r.description == Set(p.description, s.text, l.description);
    assert r.reviewsDisabled == if p.reviewsDisabled.Given? then p.reviewsDisabled.value else l.reviewsDisabled;
    hide Applied, Project, Get, SortedKeys, InOrder, ProjectLocation, ProjectContact;
    ProjectMembers(l);
    ProjectMembers(r);
    ProjectMoreMembers(l);
    ProjectMoreMembers(r);
    SetShown(p.description, s.text, l.description);
  }

  /** The rest of the document, part by part. */
  lemma PartsWritten(s: Schema, p: Payload, l: Listing)
    requires PointGiven(p) ==> PointAcceptable(s, p, l.point)
    ensures var was, now := Project(l), Project(Applied(s, p, l));
      && AddressReached(s, p.address, Get(was, "location"), Get(now, "location"))
      && PointReached(s, p, Get(was, "location"), Get(now, "location"))
      && ContactReached(s, p, Get(was, "contact"), Get(now, "contact"))
      && CategoriesReached(p, Get(was, "categories"), Get(now, "categories"))
  {
    var r := Applied(s, p, l);
    assert r.address == AddressApplied(s, p.address, l.address) && r.point == PointApplied(s, p, l.point);
    assert r.contact == ContactApplied(s, p, l.contact);
    assert r.categories == if p.categories.Given? then p.categories.value - {""} else l.categories;
    hide *;
    ProjectMembers(l);
    ProjectMembers(r);
    LocationReached(s, p, l.address, l.point);
    ContactWritten(s, p, l.contact);
    CategoriesWritten(p, r.categories, l.categories);
  }

  lemma ObjectsWritten(s: Schema, p: Payload, l: Listing)
    ensures var was, now := Project(l), Project(Applied(s, p, l));
      && ObjectReached(p.externalProfiles, Get(was, "external_profiles"), Get(now, "external_profiles"))
      && ObjectReached(p.attributes, Get(was, "attributes"), Get(now, "attributes"))
      && FieldsReached(s, p, Get(was, "custom_fields"), Get(now, "custom_fields"))
      && Get(now, "media") == Get(was, "media") && Get(now, "provenance") == Get(was, "provenance")
  {
    var r := Applied(s, p, l);
    assert r.externalProfiles == ObjectApplied(p.externalProfiles, l.externalProfiles);
    assert r.attributes == ObjectApplied(p.attributes, l.attributes) && r.customFields == CustomApplied(s, p, l.customFields);
    assert ProjectMedia(r.media) == ProjectMedia(l.media) && ProjectProvenance(r) == ProjectProvenance(l);
    ObjectWritten(p.externalProfiles, l.externalProfiles);
    ObjectWritten(p.attributes, l.attributes);
    FieldsWritten(s, p, l.customFields);
    hide *;
    ProjectMoreMembers(l);
    ProjectMoreMembers(r);
  }

  lemma ObjectWritten(g: Given<ObjectValue>, current: map<string, Json>)
    ensures ObjectReached(g, Obj(current), Obj(ObjectApplied(g, current)))
  {
  }

  lemma PayloadReaches(s: Schema, p: Payload, l: Listing, creating: bool)
    requires Acceptable(s, p, l.point, creating)
    ensures DocumentReached(s, p, Project(l), Project(Applied(s, p, l)))
  {
    assert PointGiven(p) ==> PointAcceptable(s, p, l.point);
    hide Acceptable, PointAcceptable, Project, Applied, LeavesReached, AddressReached, PointReached, ContactReached;
    hide ObjectReached, FieldsReached, CategoriesReached, Get;
    LeavesWritten(s, p, l);
    PartsWritten(s, p, l);
    ObjectsWritten(s, p, l);
  }

  // --- on the table ----------------------------------------------------------------------------

  /** The document an upsert starts from: the row's, or a blank one of the source. */
  function DocumentBefore(t: Table, o: Options, w: Write, kind: nat): Json
  {
    if w.id in t.rows then Project(t.rows[w.id]) else Project(NewListing(kind, o.source))
  }

  /** A blank document: no text, no point, no entry anywhere, only the source. */
  lemma BlankDocument(kind: nat, source: string)
    ensures var d := Project(NewListing(kind, source));
      && Get(d, "slug") == Str("") && Get(d, "name") == Str("") && Get(d, "description") == Null
      && Get(d, "categories") == Arr([]) && Get(d, "external_profiles") == Obj(map[]) && Get(d, "attributes") == Obj(map[])
      && Get(d, "custom_fields") == Obj(map[]) && Get(d, "reviews_disabled") == Bool(false)
      && Get(Get(d, "provenance"), "source") == Str(source) && Get(Get(d, "provenance"), "notes") == Null
  {
    var l := NewListing(kind, source);
    assert SortedKeys({}) == [] && Strings([]) == [];
    assert Get(ProjectProvenance(l), "source") == Str(source) && Get(ProjectProvenance(l), "notes") == Null;
    hide Project, ProjectProvenance, ProjectMedia, ProjectLocation, ProjectContact, SortedKeys, InOrder;
    ProjectMembers(l);
    ProjectMoreMembers(l);
  }

  lemma BlankLocation(kind: nat, source: string, j: string)
    requires j != "geo_precision"
    ensures var d := Project(NewListing(kind, source));
      Get(Get(d, "location"), j) == Null && Get(Get(d, "location"), "geo_precision") == Str("none")
  {
    var l := NewListing(kind, source);
    assert Get(ProjectLocation(l.address, l.point), j) == Null;
    hide Project, ProjectLocation, ProjectContact, SortedKeys, InOrder, Get, Strings;
    LocationParts(l.address, l.point);
    ProjectMembers(l);
  }

  lemma BlankContact(kind: nat, source: string, j: string)
    requires j != "social"
    ensures var d := Project(NewListing(kind, source));
      Get(Get(d, "contact"), j) == Null && Get(Get(d, "contact"), "social") == Arr([])
  {
    var l := NewListing(kind, source);
    assert Get(ProjectContact(l.contact), j) == Null;
    hide Project, ProjectLocation, ProjectContact, SortedKeys, InOrder, Get, Strings;
    ContactParts(l.contact);
    ProjectMembers(l);
  }

  /** After a successful upsert every place of the row's document holds the normal form
      of the payload's own key, where it gives one, and what it held before otherwise;
      no other row moves. */
  lemma UpsertReaches(t: Table, s: Schema, p: Payload, o: Options)
    requires Sound(t) && Upsert(t, s, p, o).Ok?
    ensures var w := Upsert(t, s, p, o).value;
      && w.id in w.table.rows && w.table.rows.Keys == t.rows.Keys + {w.id}
      && (forall id :: id in t.rows && id != w.id ==> w.table.rows[id] == t.rows[id])
      && (w.outcome.Created? <==> w.id !in t.rows) && w.table.rows[w.id].kind == s.kind
      && DocumentReached(s, p, DocumentBefore(t, o, w, s.kind), Project(w.table.rows[w.id]))
  {
    hide Upsert, Project, Applied, Acceptable, DocumentReached, CategoriesKnown, Sound, NullSlug, MatchSlug, NonEmpty;
    var l, creating := UpsertWrote(t, s, p, o);
    UpsertKeepsOthers(t, s, p, o);
    PayloadReaches(s, p, l, creating);
    AppliedKind(s, p, l);
    UpsertIds(t, s, p, o);
  }

  lemma AppliedKind(s: Schema, p: Payload, l: Listing)
    ensures Applied(s, p, l).kind == l.kind
  {
  }

  lemma UpsertIds(t: Table, s: Schema, p: Payload, o: Options)
    requires Sound(t) && Upsert(t, s, p, o).Ok?
    ensures var w := Upsert(t, s, p, o).value; w.outcome.Created? <==> w.id !in t.rows
    ensures var w := Upsert(t, s, p, o).value; w.outcome.Created? <==> w.id == t.next
  {
    hide Diff, Project, Acceptable, CategoriesKnown, Applied;
    if Target(t, s, p).value.Some? && p.id.None? {
      assert Least(WithSlug(t, s.kind, MatchSlug(s, p))) in WithSlug(t, s.kind, MatchSlug(s, p));
    }
  }

  lemma UpsertKeepsOthers(t: Table, s: Schema, p: Payload, o: Options)
    requires Upsert(t, s, p, o).Ok?
    ensures var w := Upsert(t, s, p, o).value;
      w.id in w.table.rows && w.table.rows == t.rows[w.id := w.table.rows[w.id]]
  {
    hide Diff, Project, Acceptable, CategoriesKnown, Applied;
  }

  // --- which row, and whether -------------------------------------------------------------------

  /** The row the payload names by its id, or by a slug that normalises to something. */
  ghost predicate Names(t: Table, s: Schema, p: Payload, id: nat)
  {
    && id in t.rows && t.rows[id].kind == s.kind
    && if p.id.Some? then p.id.value == id
       else p.slug.Given? && s.text(p.slug.value) != "" && s.slug(p.slug.value) != "" && t.rows[id].slug == s.slug(p.slug.value)
  }

  /** An upsert writes the row its payload names, and a new one only when it names none:
      never when it gives an id, never of a suppressed payload under the check, never
      without a name and a slug. Where the row must be new it never writes another. */
  lemma UpsertAddresses(t: Table, s: Schema, p: Payload, o: Options)
    requires Sound(t) && Upsert(t, s, p, o).Ok?
    ensures var w := Upsert(t, s, p, o).value;
      && (w.id in t.rows ==> Names(t, s, p, w.id) && !o.mustCreate)
      && (w.id !in t.rows ==>
            && (forall id :: !Names(t, s, p, id)) && p.id.None?
            && NonEmpty(p.slug) && NonEmpty(p.name) && !(o.suppressionCheck && s.suppressed(p)))
  {
    var l, creating := UpsertWrote(t, s, p, o);
    UpsertIds(t, s, p, o);
    hide Diff, Project, Acceptable, CategoriesKnown, Applied;
    var w := Upsert(t, s, p, o).value;
    if w.id !in t.rows {
      forall id ensures !Names(t, s, p, id) {
        assert id in t.rows && t.rows[id].kind == s.kind && t.rows[id].slug == MatchSlug(s, p) ==>
          id in WithSlug(t, s.kind, MatchSlug(s, p));
      }
    }
  }

  /** Values the type's normalisers take, and categories it has. */
  ghost predicate WellFormed(s: Schema, p: Payload)
  {
    && (p.name.Given? ==> s.text(p.name.value) != "")
    && (p.slug.Given? ==> s.text(p.slug.value) != "" && !s.reserved(p.slug.value))
    && (p.phone.Given? ==> s.phone(p.phone.value).Some?)
    && (p.lat.Given? ==> s.coordinate(p.lat.value).Some?) && (p.lon.Given? ==> s.coordinate(p.lon.value).Some?)
    && (p.social.Given? ==> !p.social.value.NotList?) && (p.externalProfiles.Given? ==> !p.externalProfiles.value.NotObject?)
    && (p.attributes.Given? ==> !p.attributes.value.NotObject?)
    && (p.customFields.Given? ==> s.clean(p.customFields.value).Some?)
    && (p.categories.Given? ==> forall c :: c in p.categories.value && c != "" ==> c in s.categories)
  }

  /** A precision of none is refused for a row that has, or gets, both coordinates. */
  predicate PointFits(s: Schema, p: Payload, at: Point)
  {
    !(&& p.precision == Given(Some(NoPrecision))
      && (if p.lat.Given? then s.coordinate(p.lat.value).Some? && s.coordinate(p.lat.value).value.Some? else at.lat.Some?)
      && (if p.lon.Given? then s.coordinate(p.lon.value).Some? && s.coordinate(p.lon.value).value.Some? else at.lon.Some?))
  }

  /** No other row of the type has the slug the row is to have. */
  ghost predicate SlugFree(t: Table, s: Schema, p: Payload, id: nat, current: string)
  {
    forall other :: other in t.rows && other != id && t.rows[other].kind == s.kind ==>
      t.rows[other].slug != if p.slug.Given? then s.slug(p.slug.value) else current
  }

  lemma ProblemExactly(t: Table, s: Schema, p: Payload, id: nat, l: Listing, creating: bool)
    ensures WriteProblem(t, s, p, id, l, creating).None? <==>
      && WellFormed(s, p) && PointFits(s, p, l.point) && SlugFree(t, s, p, id, l.slug)
      && !(creating && p.customFields.Given? && s.requiredMissing(p.customFields.value))
    ensures WriteProblem(t, s, p, id, l, creating) != Some(Suppressed)
  {
    assert Applied(s, p, l).slug == if p.slug.Given? then s.slug(p.slug.value) else l.slug;
    hide Applied;
    AcceptableExactly(s, p, l.point, creating);
    hide Acceptable, PointFits;
  }

  lemma AcceptableExactly(s: Schema, p: Payload, at: Point, creating: bool)
    ensures Acceptable(s, p, at, creating) && !NullSlug(s, p) && CategoriesKnown(s, p) <==>
      && WellFormed(s, p) && PointFits(s, p, at)
      && !(creating && p.customFields.Given? && s.requiredMissing(p.customFields.value))
  {
  }

  lemma TargetIsNamed(t: Table, s: Schema, p: Payload, id: nat)
    requires Sound(t) && Names(t, s, p, id)
    ensures Target(t, s, p) == Ok(Some(id))
  {
    if p.id.None? {
      OnlyWithSlug(t, s.kind, MatchSlug(s, p), id);
    }
  }

  lemma TargetOrNone(t: Table, s: Schema, p: Payload)
    requires p.id.None?
    ensures Target(t, s, p) == Ok(None) || exists id :: Names(t, s, p, id)
  {
    if WithSlug(t, s.kind, MatchSlug(s, p)) != {} && MatchSlug(s, p) != "" {
      var id :| id in WithSlug(t, s.kind, MatchSlug(s, p));
      assert Names(t, s, p, id);
    }
  }

  /** An update of the row the payload names is accepted exactly when the payload is
      well formed and fits the row, its slug is free and the row need not be new. */
  lemma UpdateAcceptedIff(t: Table, s: Schema, p: Payload, o: Options, id: nat)
    requires Sound(t) && Names(t, s, p, id)
    ensures Upsert(t, s, p, o).Ok? <==>
      && !p.hasRejectedKey && !o.mustCreate
      && WellFormed(s, p) && PointFits(s, p, t.rows[id].point) && SlugFree(t, s, p, id, t.rows[id].slug)
  {
    TargetIsNamed(t, s, p, id);
    hide Target, Names, WriteProblem, WellFormed, PointFits, SlugFree, Diff, Project, Applied, Sound;
    ProblemExactly(t, s, p, id, t.rows[id], false);
  }

  /** A payload that names no row creates one exactly when it is complete, well formed,
      with a free slug, and not suppressed; the suppression list is asked only then. */
  lemma CreationAcceptedIff(t: Table, s: Schema, p: Payload, o: Options)
    requires Sound(t) && p.id.None? && forall id :: !Names(t, s, p, id)
    ensures Upsert(t, s, p, o).Ok? <==>
      && !p.hasRejectedKey && NonEmpty(p.slug) && NonEmpty(p.name) && !(o.suppressionCheck && s.suppressed(p))
      && WellFormed(s, p) && PointFits(s, p, Point(None, None, NoPrecision)) && SlugFree(t, s, p, t.next, "")
      && !(p.customFields.Given? && s.requiredMissing(p.customFields.value))
    ensures Upsert(t, s, p, o) == Err(Suppressed) <==>
      !p.hasRejectedKey && NonEmpty(p.slug) && NonEmpty(p.name) && o.suppressionCheck && s.suppressed(p)
  {
    TargetOrNone(t, s, p);
    hide Target, Names, WriteProblem, WellFormed, PointFits, SlugFree, Diff, Project, Applied, Sound;
    ProblemExactly(t, s, p, t.next, NewListing(s.kind, o.source), true);
  }

  /** An id that names no row of the type refuses the payload. */
  lemma StrayIdRefused(t: Table, s: Schema, p: Payload, o: Options)
    requires p.id.Some? && !p.hasRejectedKey
    ensures p.id.value !in t.rows ==> Upsert(t, s, p, o) == Err(SchemaError)
    ensures p.id.value in t.rows && t.rows[p.id.value].kind != s.kind ==> Upsert(t, s, p, o) == Err(RejectedField)
  {
  }
}
