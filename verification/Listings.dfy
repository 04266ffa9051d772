/** The listing record: writing a payload onto it, projecting it, restoring it from
    a projection (directory/services.py:481-779, 950-1002; directory/patch.py:33-69).
    Coordinates count micro-degrees. The normalisers, the custom-field schema and
    the suppression list are parameters of the tenant and listing type. */
module Listings {
  import opened Prelude
  import opened Json
  import opened Patch

  datatype Geo = Rooftop | Street | LocalityCentre | NoPrecision

  datatype Address = Address(line1: string, line2: string, locality: string, region: string, postalCode: string, country: string)

  datatype Point = Point(lat: Option<int>, lon: Option<int>, geo: Geo)

  datatype Contact = Contact(phone: string, email: string, website: string, social: seq<Json>)

  datatype Media = Media(logo: Json, cover: Json, gallery: seq<Json>)

  /** `kept` stands for what neither a payload nor a projection carries: owner,
      status, visibility, tier, dates. */
  datatype Listing = Listing(
    kind: nat, slug: string, name: string, description: string, categories: set<string>,
    address: Address, point: Point, contact: Contact,
    externalProfiles: map<string, Json>, attributes: map<string, Json>, customFields: map<string, Json>,
    media: Media, reviewsDisabled: bool, source: string, notes: string, kept: nat)

  // --- payloads ----------------------------------------------------------------------

  /** Whether the payload holds a key, and what it holds. */
  datatype Given<T> = Missing | Given(value: T)

  /** A text cell; `None` is null. */
  type Text = Option<string>

  datatype ListValue = NullList | IsList(items: seq<Json>) | NotList

  datatype ObjectValue = NullObject | IsObject(members: map<string, Json>) | NotObject

  datatype AddressPayload = AddressPayload(
    line1: Given<Text>, line2: Given<Text>, locality: Given<Text>, region: Given<Text>, postalCode: Given<Text>, country: Given<Text>)

  datatype Payload = Payload(
    hasRejectedKey: bool, id: Option<nat>, name: Given<Text>, slug: Given<Text>, description: Given<Text>,
    reviewsDisabled: Given<bool>, address: AddressPayload, lat: Given<Text>, lon: Given<Text>, precision: Given<Option<Geo>>,
    phone: Given<Text>, email: Given<Text>, website: Given<Text>, social: Given<ListValue>,
    externalProfiles: Given<ObjectValue>, attributes: Given<ObjectValue>, customFields: Given<map<string, Json>>,
    categories: Given<set<string>>)

  /** A listing type as the write path sees it. A normaliser gives "" for nothing;
      `phone` and `coordinate` give `None` for a malformed value, and so does `clean`
      for custom fields that do not fit the schema. */
  datatype Schema = Schema(
    kind: nat, text: Text -> string, country: Text -> string, email: Text -> string, website: Text -> string,
    slug: Text -> string, reserved: Text -> bool, phone: Text -> Option<string>, coordinate: Text -> Option<Option<int>>,
    fields: set<string>, clean: map<string, Json> -> Option<map<string, Json>>, requiredMissing: map<string, Json> -> bool,
    categories: set<string>, suppressed: Payload -> bool)

  predicate IsLower(c: char)
  {
    'a' <= c <= 'z'
  }

  /** `^[a-z][a-z0-9_]*$`, which also lets a final newline pass. */
  predicate IsFieldKey(k: string)
  {
    && k != "" && IsLower(k[0])
    && forall i :: 0 < i < |k| ==>
         IsLower(k[i]) || '0' <= k[i] <= '9' || k[i] == '_' || (i == |k| - 1 && k[i] == '\n')
  }

  /** The type's field keys were validated, and cleaning keeps to them. */
  ghost predicate Validated(s: Schema)
  {
    && (forall k :: k in s.fields ==> IsFieldKey(k))
    && (forall values :: s.clean(values).Some? ==> s.clean(values).value.Keys <= s.fields)
  }

  function Set<T>(g: Given<T>, f: T -> string, current: string): string
  {
    if g.Given? then f(g.value) else current
  }

  predicate PointGiven(p: Payload)
  {
    p.lat.Given? || p.lon.Given? || p.precision.Given?
  }

  function Coordinate(s: Schema, g: Given<Text>, current: Option<int>): Option<int>
  {
    if g.Given? && s.coordinate(g.value).Some? then s.coordinate(g.value).value else current
  }

  predicate HasPoint(s: Schema, p: Payload, at: Point)
  {
    Coordinate(s, p.lat, at.lat).Some? && Coordinate(s, p.lon, at.lon).Some?
  }

  function ExplicitPrecision(p: Payload): Option<Geo>
  {
    if p.precision.Given? then p.precision.value else None
  }

  /** `_apply_geo` accepts the coordinates. */
  predicate PointAcceptable(s: Schema, p: Payload, at: Point)
  {
    && (p.lat.Given? ==> s.coordinate(p.lat.value).Some?)
    && (p.lon.Given? ==> s.coordinate(p.lon.value).Some?)
    && !(HasPoint(s, p, at) && ExplicitPrecision(p) == Some(NoPrecision))
  }

  function PointApplied(s: Schema, p: Payload, at: Point): Point
  {
    if !PointGiven(p) then at
    else if !HasPoint(s, p, at) then Point(None, None, NoPrecision)
    else Point(Coordinate(s, p.lat, at.lat), Coordinate(s, p.lon, at.lon),
               if ExplicitPrecision(p).Some? then ExplicitPrecision(p).value
               else if at.geo == NoPrecision then LocalityCentre else at.geo)
  }

  /** Whether `_apply_payload` raises no `SchemaError`. */
  predicate Acceptable(s: Schema, p: Payload, at: Point, creating: bool)
  {
    && (p.name.Given? ==> s.text(p.name.value) != "")
    && (p.slug.Given? ==> !s.reserved(p.slug.value))
    && (PointGiven(p) ==> PointAcceptable(s, p, at))
    && (p.phone.Given? ==> s.phone(p.phone.value).Some?)
    && (p.social.Given? ==> !p.social.value.NotList?)
    && (p.externalProfiles.Given? ==> !p.externalProfiles.value.NotObject?)
    && (p.attributes.Given? ==> !p.attributes.value.NotObject?)
    && (p.customFields.Given? ==>
          s.clean(p.customFields.value).Some? && !(creating && s.requiredMissing(p.customFields.value)))
  }

  function AddressApplied(s: Schema, a: AddressPayload, to: Address): Address
  {
    Address(Set(a.line1, s.text, to.line1), Set(a.line2, s.text, to.line2), Set(a.locality, s.text, to.locality),
            Set(a.region, s.text, to.region), Set(a.postalCode, s.text, to.postalCode), Set(a.country, s.country, to.country))
  }

  function ContactApplied(s: Schema, p: Payload, to: Contact): Contact
  {
    Contact(if p.phone.Given? && s.phone(p.phone.value).Some? then s.phone(p.phone.value).value else to.phone,
            Set(p.email, s.email, to.email), Set(p.website, s.website, to.website),
            if p.social.Missing? then to.social else if p.social.value.IsList? then p.social.value.items else [])
  }

  function ObjectApplied(g: Given<ObjectValue>, current: map<string, Json>): map<string, Json>
  {
    if g.Missing? then current else if g.value.IsObject? then g.value.members else map[]
  }

  /** Cleared keys go, the others are set. */
  function Merged(current: map<string, Json>, cleaned: map<string, Json>): map<string, Json>
  {
    map k | k in current.Keys + cleaned.Keys && (k in cleaned ==> cleaned[k] != Null) ::
      if k in cleaned then cleaned[k] else current[k]
  }

  function CustomApplied(s: Schema, p: Payload, current: map<string, Json>): map<string, Json>
  {
    if p.customFields.Given? && s.clean(p.customFields.value).Some?
    then Merged(current, s.clean(p.customFields.value).value) else current
  }

  /** `_apply_payload`, and the categories when they are given. */
  function Applied(s: Schema, p: Payload, l: Listing): Listing
  {
    l.(name := Set(p.name, s.text, l.name), slug := Set(p.slug, s.slug, l.slug),
       description := Set(p.description, s.text, l.description),
       reviewsDisabled := if p.reviewsDisabled.Given? then p.reviewsDisabled.value else l.reviewsDisabled,
       address := AddressApplied(s, p.address, l.address), point := PointApplied(s, p, l.point),
       contact := ContactApplied(s, p, l.contact),
       externalProfiles := ObjectApplied(p.externalProfiles, l.externalProfiles),
       attributes := ObjectApplied(p.attributes, l.attributes),
       customFields := CustomApplied(s, p, l.customFields),
       categories := if p.categories.Given? then p.categories.value - {""} else l.categories)
  }

  predicate CategoriesKnown(s: Schema, p: Payload)
  {
    p.categories.Given? ==> p.categories.value - {""} <= s.categories
  }

  // --- projection and restore ------------------------------------------------------------

  function TextOrNull(t: string): Json
  {
    if t == "" then Null else Str(t)
  }

  function NumberOrNull(n: Option<int>): Json
  {
    if n.Some? then Num(n.value) else Null
  }

  function GeoName(g: Geo): string
  {
    match g case Rooftop => "rooftop" case Street => "street" case LocalityCentre => "locality" case NoPrecision => "none"
  }

  function Strings(s: seq<string>): (r: seq<Json>)
    ensures |r| == |s| && forall i :: 0 <= i < |s| ==> r[i] == Str(s[i])
  {
    seq(|s|, i requires 0 <= i < |s| => Str(s[i]))
  }

  function ProjectLocation(a: Address, at: Point): Json
  {
    Obj(map["address_line1" := TextOrNull(a.line1), "address_line2" := TextOrNull(a.line2),
            "locality" := TextOrNull(a.locality), "region" := TextOrNull(a.region),
            "postal_code" := TextOrNull(a.postalCode), "country" := TextOrNull(a.country),
            "lat" := NumberOrNull(at.lat), "lon" := NumberOrNull(at.lon), "geo_precision" := Str(GeoName(at.geo))])
  }

  function ProjectContact(c: Contact): Json
  {
    Obj(map["phone_e164" := TextOrNull(c.phone), "email" := TextOrNull(c.email),
            "website" := TextOrNull(c.website), "social" := Arr(c.social)])
  }

  function ProjectMedia(m: Media): Json
  {
    Obj(map["logo" := m.logo, "cover" := m.cover, "gallery" := Arr(m.gallery)])
  }

  function ProjectProvenance(l: Listing): Json
  {
    Obj(map["source" := Str(l.source), "notes" := TextOrNull(l.notes)])
  }

  /** The canonical nested document of a listing. */
  function Project(l: Listing): Json
  {
    Obj(map["slug" := Str(l.slug), "name" := Str(l.name), "description" := TextOrNull(l.description),
            "categories" := Arr(Strings(SortedKeys(l.categories))),
            "location" := ProjectLocation(l.address, l.point), "contact" := ProjectContact(l.contact),
            "external_profiles" := Obj(l.externalProfiles), "attributes" := Obj(l.attributes),
            "media" := ProjectMedia(l.media), "reviews_disabled" := Bool(l.reviewsDisabled),
            "custom_fields" := Obj(l.customFields), "provenance" := ProjectProvenance(l)])
  }

  /** `pre.get(key)`, with null for a missing key. */
  function Get(d: Json, key: string): Json
  {
    if d.Obj? && key in d.members then d.members[key] else Null
  }

  /** `value or ""`. */
  function TextOf(v: Json): string
  {
    if v.Str? then v.s else ""
  }

  function NumberOf(v: Json): Option<int>
  {
    if v.Num? then Some(v.n) else None
  }

  function GeoOf(v: Json): Geo
  {
    if v == Str("rooftop") then Rooftop else if v == Str("street") then Street
    else if v == Str("locality") then LocalityCentre else NoPrecision
  }

  function ItemsOf(v: Json): seq<Json>
  {
    if v.Arr? then v.items else []
  }

  function MembersOf(v: Json): map<string, Json>
  {
    if v.Obj? then v.members else map[]
  }

  function RestoredAddress(loc: Json): Address
  {
    Address(TextOf(Get(loc, "address_line1")), TextOf(Get(loc, "address_line2")), TextOf(Get(loc, "locality")),
            TextOf(Get(loc, "region")), TextOf(Get(loc, "postal_code")), TextOf(Get(loc, "country")))
  }

  function RestoredPoint(loc: Json): Point
  {
    Point(NumberOf(Get(loc, "lat")), NumberOf(Get(loc, "lon")), GeoOf(Get(loc, "geo_precision")))
  }

  function RestoredContact(c: Json): Contact
  {
    Contact(TextOf(Get(c, "phone_e164")), TextOf(Get(c, "email")), TextOf(Get(c, "website")), ItemsOf(Get(c, "social")))
  }

  /** The categories of the type that the projection names. */
  function RestoredCategories(v: Json, known: set<string>): set<string>
  {
    set c | c in known && Str(c) in ItemsOf(v)
  }

  /** `_restore_listing`: everything the projection carries except the media. */
  function Restored(l: Listing, pre: Json, known: set<string>): Listing
  {
    var source := TextOf(Get(Get(pre, "provenance"), "source"));
    l.(slug := TextOf(Get(pre, "slug")), name := TextOf(Get(pre, "name")), description := TextOf(Get(pre, "description")),
       reviewsDisabled := Get(pre, "reviews_disabled") == Bool(true),
       address := RestoredAddress(Get(pre, "location")), point := RestoredPoint(Get(pre, "location")),
       contact := RestoredContact(Get(pre, "contact")),
       externalProfiles := MembersOf(Get(pre, "external_profiles")), attributes := MembersOf(Get(pre, "attributes")),
       customFields := MembersOf(Get(pre, "custom_fields")),
       source := if source != "" then source else l.source,
       notes := TextOf(Get(Get(pre, "provenance"), "notes")),
       categories := RestoredCategories(Get(pre, "categories"), known))
  }
}
