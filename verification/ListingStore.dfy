/** The listing write path as it runs: a row object whose fields are assigned one
    after another, and the table it is saved to. */
module ListingStore {
  import opened Prelude
  import opened Json
  import opened Patch
  import opened Listings
  import opened Upserts

  // --- the parts of a payload --------------------------------------------------------------

  predicate CoreOk(s: Schema, p: Payload, at: Point)
  {
    && (p.name.Given? ==> s.text(p.name.value) != "") && (p.slug.Given? ==> !s.reserved(p.slug.value))
    && (PointGiven(p) ==> PointAcceptable(s, p, at))
  }

  function CorePart(s: Schema, p: Payload, l: Listing): Listing
  {
    l.(name := Set(p.name, s.text, l.name), slug := Set(p.slug, s.slug, l.slug),
       description := Set(p.description, s.text, l.description),
       reviewsDisabled := if p.reviewsDisabled.Given? then p.reviewsDisabled.value else l.reviewsDisabled,
       address := AddressApplied(s, p.address, l.address), point := PointApplied(s, p, l.point))
  }

  predicate ContactOk(s: Schema, p: Payload)
  {
    (p.phone.Given? ==> s.phone(p.phone.value).Some?) && (p.social.Given? ==> !p.social.value.NotList?)
  }

  function ContactPart(s: Schema, p: Payload, l: Listing): Listing
  {
    l.(contact := ContactApplied(s, p, l.contact))
  }

  predicate ObjectsOk(p: Payload)
  {
    && (p.externalProfiles.Given? ==> !p.externalProfiles.value.NotObject?)
    && (p.attributes.Given? ==> !p.attributes.value.NotObject?)
  }

  function ObjectsPart(p: Payload, l: Listing): Listing
  {
    l.(externalProfiles := ObjectApplied(p.externalProfiles, l.externalProfiles),
       attributes := ObjectApplied(p.attributes, l.attributes))
  }

  predicate CustomOk(s: Schema, p: Payload, creating: bool)
  {
    p.customFields.Given? ==>
      s.clean(p.customFields.value).Some? && !(creating && s.requiredMissing(p.customFields.value))
  }

  function CustomPart(s: Schema, p: Payload, l: Listing): Listing
  {
    l.(customFields := CustomApplied(s, p, l.customFields))
  }

  lemma AcceptableParts(s: Schema, p: Payload, at: Point, creating: bool)
    ensures Acceptable(s, p, at, creating) <==> CoreOk(s, p, at) && ContactOk(s, p) && ObjectsOk(p) && CustomOk(s, p, creating)
  {
    hide PointAcceptable, PointGiven;
  }

  lemma AppliedParts(s: Schema, p: Payload, l: Listing)
    ensures Applied(s, p, l).(categories := l.categories) == CustomPart(s, p, ObjectsPart(p, ContactPart(s, p, CorePart(s, p, l))))
  {
    hide PointApplied, AddressApplied, ContactApplied, CustomApplied, ObjectApplied, Set;
  }

  class Row {
    var l: Listing

    constructor (l: Listing)
      ensures this.l == l
    {
      this.l := l;
    }

    method ApplyGeo(s: Schema, p: Payload) returns (ok: bool)
      requires PointGiven(p)
      modifies this
      ensures ok == PointAcceptable(s, p, old(l.point))
      ensures ok ==> l == old(l).(point := PointApplied(s, p, old(l.point)))
    {
      var lat, lon := l.point.lat, l.point.lon;
      if p.lat.Given? {
        if s.coordinate(p.lat.value).None? { return false; }
        lat := s.coordinate(p.lat.value).value;
      }
      if p.lon.Given? {
        if s.coordinate(p.lon.value).None? { return false; }
        lon := s.coordinate(p.lon.value).value;
      }
      l := l.(point := l.point.(lat := lat, lon := lon));
      if lat.None? || lon.None? {
        l := l.(point := Point(None, None, NoPrecision));
        return true;
      }
      var explicit := if p.precision.Given? then p.precision.value else None;
      if explicit == Some(NoPrecision) { return false; }
      if explicit.Some? {
        l := l.(point := l.point.(geo := explicit.value));
      } else if l.point.geo == NoPrecision {
        l := l.(point := l.point.(geo := LocalityCentre));
      }
      return true;
    }

    method SetAddress(s: Schema, a: AddressPayload)
      modifies this
      ensures l == old(l).(address := AddressApplied(s, a, old(l.address)))
    {
      var to := l.address;
      if a.line1.Given? { to := to.(line1 := s.text(a.line1.value)); }
      if a.line2.Given? { to := to.(line2 := s.text(a.line2.value)); }
      if a.locality.Given? { to := to.(locality := s.text(a.locality.value)); }
      if a.region.Given? { to := to.(region := s.text(a.region.value)); }
      if a.postalCode.Given? { to := to.(postalCode := s.text(a.postalCode.value)); }
      if a.country.Given? { to := to.(country := s.country(a.country.value)); }
      l := l.(address := to);
    }

    method SetContact(s: Schema, p: Payload) returns (ok: bool)
      modifies this
      ensures ok == ContactOk(s, p)
      ensures ok ==> l == ContactPart(s, p, old(l))
    {
      var c := l.contact;
      if p.phone.Given? {
        if s.phone(p.phone.value).None? { return false; }
        c := c.(phone := s.phone(p.phone.value).value);
      }
      if p.email.Given? { c := c.(email := s.email(p.email.value)); }
      if p.website.Given? { c := c.(website := s.website(p.website.value)); }
      if p.social.Given? {
        match p.social.value
        case NullList => c := c.(social := []);
        case IsList(items) => c := c.(social := items);
        case NotList => return false;
      }
      l := l.(contact := c);
      return true;
    }

    /** Cleared keys are popped, the others set, one at a time. */
    method MergeCustomFields(cleaned: map<string, Json>)
      modifies this
      ensures l == old(l).(customFields := Merged(old(l.customFields), cleaned))
    {
      var current := l.customFields;
      var todo := cleaned.Keys;
      while todo != {}
        invariant todo <= cleaned.Keys && l == old(l)
        invariant forall k :: k in current <==>
          if k in cleaned && k !in todo then cleaned[k] != Null else k in l.customFields
        invariant forall k :: k in current ==> current[k] == if k in cleaned && k !in todo then cleaned[k] else l.customFields[k]
      {
        var k :| k in todo;
        if cleaned[k] == Null {
          current := current - {k};
        } else {
          current := current[k := cleaned[k]];
        }
        todo := todo - {k};
      }
      assert current == Merged(l.customFields, cleaned);
      l := l.(customFields := current);
    }

    /** Name, slug, description, flags, address and coordinates. */
    method ApplyCore(s: Schema, p: Payload) returns (ok: bool)
      modifies this
      ensures ok == CoreOk(s, p, old(l.point))
      ensures ok ==> l == CorePart(s, p, old(l))
    {
      if p.name.Given? {
        if s.text(p.name.value) == "" { return false; }
        l := l.(name := s.text(p.name.value));
      }
      if p.slug.Given? {
        if s.reserved(p.slug.value) { return false; }
        l := l.(slug := s.slug(p.slug.value));
      }
      if p.description.Given? { l := l.(description := s.text(p.description.value)); }
      if p.reviewsDisabled.Given? { l := l.(reviewsDisabled := p.reviewsDisabled.value); }
      SetAddress(s, p.address);
      ok := true;
      if PointGiven(p) {
        hide PointAcceptable, AddressApplied;
        ok := ApplyGeo(s, p);
      }
    }

    method SetObjects(p: Payload) returns (ok: bool)
      modifies this
      ensures ok == ObjectsOk(p)
      ensures ok ==> l == ObjectsPart(p, old(l))
    {
      if p.externalProfiles.Given? {
        if p.externalProfiles.value.NotObject? { return false; }
        l := l.(externalProfiles := if p.externalProfiles.value.IsObject? then p.externalProfiles.value.members else map[]);
      }
      if p.attributes.Given? {
        if p.attributes.value.NotObject? { return false; }
        l := l.(attributes := if p.attributes.value.IsObject? then p.attributes.value.members else map[]);
      }
      return true;
    }

    method SetCustomFields(s: Schema, p: Payload, creating: bool) returns (ok: bool)
      modifies this
      ensures ok == CustomOk(s, p, creating)
      ensures ok ==> l == CustomPart(s, p, old(l))
    {
      hide Merged;
      if p.customFields.Given? {
        var cleaned := s.clean(p.customFields.value);
        if cleaned.None? || (creating && s.requiredMissing(p.customFields.value)) { return false; }
        MergeCustomFields(cleaned.value);
      }
      return true;
    }

    /** `_apply_payload`; the categories are set after the row is saved. */
    method ApplyPayload(s: Schema, p: Payload, creating: bool) returns (ok: bool)
      modifies this
      ensures ok == Acceptable(s, p, old(l.point), creating)
      ensures ok ==> l == Applied(s, p, old(l)).(categories := old(l.categories))
    {
      AcceptableParts(s, p, l.point, creating);
      AppliedParts(s, p, l);
      hide *;
      ok := ApplyCore(s, p);
      if ok {
        ok := SetContact(s, p);
      }
      if ok {
        ok := SetObjects(p);
      }
      if ok {
        ok := SetCustomFields(s, p, creating);
      }
    }

    method Restore(pre: Json, known: set<string>)
      modifies this
      ensures l == Restored(old(l), pre, known)
    {
      var loc, contact, prov := Get(pre, "location"), Get(pre, "contact"), Get(pre, "provenance");
      l := l.(slug := TextOf(Get(pre, "slug")), name := TextOf(Get(pre, "name")));
      l := l.(description := TextOf(Get(pre, "description")), reviewsDisabled := Get(pre, "reviews_disabled") == Bool(true));
      l := l.(address := RestoredAddress(loc), point := RestoredPoint(loc), contact := RestoredContact(contact));
      l := l.(externalProfiles := MembersOf(Get(pre, "external_profiles")), attributes := MembersOf(Get(pre, "attributes")));
      l := l.(customFields := MembersOf(Get(pre, "custom_fields")), notes := TextOf(Get(prov, "notes")));
      if TextOf(Get(prov, "source")) != "" {
        l := l.(source := TextOf(Get(prov, "source")));
      }
      l := l.(categories := RestoredCategories(Get(pre, "categories"), known));
    }
  }

  class Store {
    var table: Table

    constructor (t: Table)
      ensures table == t
    {
      table := t;
    }

    /** `_apply_upsert`: find or make the row, write the payload, save, compare. */
    method ApplyUpsert(s: Schema, p: Payload, o: Options) returns (r: Result<Write, Failure>)
      modifies this
      ensures r == Upsert(old(table), s, p, o)
      ensures table == if r.Ok? then r.value.table else old(table)
    {
      if p.hasRejectedKey { return Err(RejectedField); }
      var target := Target(table, s, p);
      if target.Err? { return Err(target.error); }
      hide Diff, Project, Acceptable, Applied, SlugTaken, CategoriesKnown;
      var creating := target.value.None?;
      var id: nat;
      var before: Listing;
      if creating {
        if !NonEmpty(p.slug) || !NonEmpty(p.name) { return Err(SchemaError); }
        if o.suppressionCheck && s.suppressed(p) { return Err(Suppressed); }
        id, before := table.next, NewListing(s.kind, o.source);
      } else {
        if o.mustCreate { return Err(SchemaError); }
        id, before := target.value.value, table.rows[target.value.value];
      }
      var row := new Row(before);
      var ok := row.ApplyPayload(s, p, creating);
      if !ok { return Err(SchemaError); }
      SlugUnaffected(s, p, before);
      if NullSlug(s, p) || SlugTaken(table, s.kind, row.l.slug, id) { return Err(Conflict); }
      if !CategoriesKnown(s, p) { return Err(SchemaError); }
      if p.categories.Given? {
        row.l := row.l.(categories := p.categories.value - {""});
      }
      WholeRow(s, p, before);
      if creating {
        table := Table(table.rows[id := row.l], table.next + 1);
        return Ok(Write(table, id, Created, None, []));
      }
      var changes := Diff(Project(before), Project(row.l));
      table := table.(rows := table.rows[id := row.l]);
      return Ok(Write(table, id, if changes == [] then Unchanged else Updated, Some(Project(before)), changes));
    }
  }

  lemma SlugUnaffected(s: Schema, p: Payload, l: Listing)
    ensures Applied(s, p, l).(categories := l.categories).slug == Applied(s, p, l).slug
  {
  }

  lemma WholeRow(s: Schema, p: Payload, l: Listing)
    ensures var r := Applied(s, p, l).(categories := l.categories);
      Applied(s, p, l) == if p.categories.Given? then r.(categories := p.categories.value - {""}) else r
  {
  }
}
