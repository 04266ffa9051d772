/** Creating or updating a listing from a payload (directory/services.py:652-779). */
module Upserts {
  import opened Prelude
  import opened Json
  import opened Patch
  import opened Listings

  /** The listing rows by primary key; keys at `next` and above are unused. */
  datatype Table = Table(rows: map<nat, Listing>, next: nat)

  /** `Conflict`: the database refuses the save, for a null slug or one that is taken. */
  datatype Failure = SchemaError | RejectedField | Suppressed | Conflict

  datatype Outcome = Created | Updated | Unchanged

  /** The write of one upsert. `before` is the projection the row had. */
  datatype Write = Write(table: Table, id: nat, outcome: Outcome, before: Option<Json>, changes: seq<Op>)

  datatype Options = Options(source: string, mustCreate: bool, suppressionCheck: bool)

  /** One row per slug of a listing type, and keys below `next`. */
  ghost predicate Sound(t: Table)
  {
    && (forall id :: id in t.rows ==> id < t.next)
    && (forall a, b :: a in t.rows && b in t.rows && t.rows[a].kind == t.rows[b].kind && t.rows[a].slug == t.rows[b].slug ==> a == b)
  }

  predicate SlugTaken(t: Table, kind: nat, slug: string, except: nat)
  {
    exists id :: id in t.rows && id != except && t.rows[id].kind == kind && t.rows[id].slug == slug
  }

  function WithSlug(t: Table, kind: nat, slug: string): set<nat>
  {
    set id | id in t.rows && t.rows[id].kind == kind && t.rows[id].slug == slug
  }

  /** A slug given as null or blank normalises to null, which the column refuses. */
  predicate NullSlug(s: Schema, p: Payload)
  {
    p.slug.Given? && s.text(p.slug.value) == ""
  }

  function MatchSlug(s: Schema, p: Payload): string
  {
    if p.slug.Given? && !NullSlug(s, p) then s.slug(p.slug.value) else ""
  }

  /** The row the payload addresses; `None` when there is none yet. */
  function Target(t: Table, s: Schema, p: Payload): Result<Option<nat>, Failure>
  {
    if p.id.Some? then
      if p.id.value !in t.rows then Err(SchemaError)
      else if t.rows[p.id.value].kind != s.kind then Err(RejectedField)
      else Ok(p.id)
    else if MatchSlug(s, p) == "" || WithSlug(t, s.kind, MatchSlug(s, p)) == {} then Ok(None)
    else Ok(Some(Least(WithSlug(t, s.kind, MatchSlug(s, p)))))
  }

  predicate NonEmpty(g: Given<Text>)
  {
    g.Given? && g.value.Some? && g.value.value != ""
  }

  function NewListing(kind: nat, source: string): Listing
  {
    Listing(kind, "", "", "", {}, Address("", "", "", "", "", ""), Point(None, None, NoPrecision), Contact("", "", "", []),
            map[], map[], map[], Media(Null, Null, []), false, source, "", 0)
  }

  /** What stops the write of row `l` at key `id`, in the source's order. */
  function WriteProblem(t: Table, s: Schema, p: Payload, id: nat, l: Listing, creating: bool): Option<Failure>
  {
    if !Acceptable(s, p, l.point, creating) then Some(SchemaError)
    else if NullSlug(s, p) || SlugTaken(t, s.kind, Applied(s, p, l).slug, id) then Some(Conflict)
    else if !CategoriesKnown(s, p) then Some(SchemaError)
    else None
  }

  function Create(t: Table, s: Schema, p: Payload, o: Options): Result<Write, Failure>
  {
    if !NonEmpty(p.slug) || !NonEmpty(p.name) then Err(SchemaError)
    else if o.suppressionCheck && s.suppressed(p) then Err(Suppressed)
    else
      var l := NewListing(s.kind, o.source);
      var problem := WriteProblem(t, s, p, t.next, l, true);
      if problem.Some? then Err(problem.value)
      else Ok(Write(Table(t.rows[t.next := Applied(s, p, l)], t.next + 1), t.next, Created, None, []))
  }

  function Update(t: Table, s: Schema, p: Payload, o: Options, id: nat): Result<Write, Failure>
    requires id in t.rows
  {
    if o.mustCreate then Err(SchemaError)
    else
      var l := t.rows[id];
      var problem := WriteProblem(t, s, p, id, l, false);
      if problem.Some? then Err(problem.value)
      else
        var r := Applied(s, p, l);
        var changes := Diff(Project(l), Project(r));
        Ok(Write(t.(rows := t.rows[id := r]), id, if changes == [] then Unchanged else Updated, Some(Project(l)), changes))
  }

  /** `_apply_upsert`; any failure writes nothing. */
  function Upsert(t: Table, s: Schema, p: Payload, o: Options): Result<Write, Failure>
  {
    if p.hasRejectedKey then Err(RejectedField)
    else
      var target := Target(t, s, p);
      if target.Err? then Err(target.error)
      else if target.value.None? then Create(t, s, p, o)
      else Update(t, s, p, o, target.value.value)
  }

  // --- writing a payload twice ------------------------------------------------------------

  lemma PointTwice(s: Schema, p: Payload, at: Point)
    requires PointGiven(p) ==> PointAcceptable(s, p, at)
    ensures PointGiven(p) ==> PointAcceptable(s, p, PointApplied(s, p, at))
    ensures PointApplied(s, p, PointApplied(s, p, at)) == PointApplied(s, p, at)
  {
  }

  lemma PartsTwice(s: Schema, p: Payload, l: Listing)
    ensures AddressApplied(s, p.address, AddressApplied(s, p.address, l.address)) == AddressApplied(s, p.address, l.address)
    ensures ContactApplied(s, p, ContactApplied(s, p, l.contact)) == ContactApplied(s, p, l.contact)
    ensures CustomApplied(s, p, CustomApplied(s, p, l.customFields)) == CustomApplied(s, p, l.customFields)
  {
  }

  /** A payload already written is accepted again and changes nothing. */
  lemma AppliedTwice(s: Schema, p: Payload, l: Listing, creating: bool)
    requires Acceptable(s, p, l.point, creating)
    ensures Acceptable(s, p, Applied(s, p, l).point, false)
    ensures Applied(s, p, Applied(s, p, l)) == Applied(s, p, l)
  {
    PointTwice(s, p, l.point);
    PartsTwice(s, p, l);
    hide PointApplied, PointAcceptable, AddressApplied, ContactApplied, CustomApplied;
  }

  lemma OnlyWithSlug(t: Table, kind: nat, slug: string, id: nat)
    requires Sound(t) && id in t.rows && t.rows[id].kind == kind && t.rows[id].slug == slug
    ensures WithSlug(t, kind, slug) == {id}
  {
  }

  /** Every upsert keeps the table sound. */
  lemma UpsertSound(t: Table, s: Schema, p: Payload, o: Options)
    requires Sound(t) && Upsert(t, s, p, o).Ok?
    ensures Sound(Upsert(t, s, p, o).value.table)
  {
    hide Diff, Project, Acceptable, CategoriesKnown;
    var w := Upsert(t, s, p, o).value;
    assert w.table.rows == t.rows[w.id := w.table.rows[w.id]] && w.table.rows[w.id].kind == s.kind by {
      if Target(t, s, p).value.Some? && p.id.None? {
        assert Least(WithSlug(t, s.kind, MatchSlug(s, p))) in WithSlug(t, s.kind, MatchSlug(s, p));
      }
    }
    assert !SlugTaken(t, s.kind, w.table.rows[w.id].slug, w.id);
    hide Upsert;
  }
}
