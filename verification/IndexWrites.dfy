/** What each step writes, table by table, and what a fresh vector says
    (directory/search.py:96-125, directory/services.py:223-259, 377-438). */
module IndexWrites {
  import opened Prelude
  import opened SearchIndex
  import opened IndexLaws

  /** A fresh vector is the analysis of the listing's own text, of the current tag of
      each of its categories and of the current fields of its type. */
  lemma FreshMeans(s: Index, id: nat)
    requires id in s.entries && IsFresh(s, id)
    ensures exists i: Inputs :: s.analyse(i) == s.entries[id].vector && ReadOf(s, s.entries[id], i)
  {
    var i := Read(s, s.entries[id], s.entries[id].categories);
    assert ReadOf(s, s.entries[id], i);
  }

  ghost predicate ReadOf(s: Index, e: Entry, i: Inputs)
  {
    && i.text == e.text && i.tags.Keys == e.categories
    && (forall c :: c in e.categories && c in s.tags ==> i.tags[c] == s.tags[c])
    && (e.kind in s.fields ==> i.fields == s.fields[e.kind])
  }

  /** An edit of a type's fields sets those fields, and nothing else sets any. */
  lemma FieldsAfter(s: Index, a: Action, kind: nat)
    ensures FieldsOf(Step(s, a), kind) == if a.EditFields? && a.kind == kind then a.fields else FieldsOf(s, kind)
    ensures Step(s, a).analyse == s.analyse
  {
    hide Subtree, Chunk, Oldest;
  }

  /** No listing and no category has the id yet. */
  ghost predicate Unused(s: Index, category: nat)
  {
    category !in s.tags && forall id :: id in s.entries ==> category !in s.entries[id].categories
  }

  /** An edit or a creation sets its category's tag, a deletion takes its category and
      everything below it, and nothing else touches a tag. */
  lemma TagsAfter(s: Index, a: Action, c: nat)
    ensures var t := Step(s, a); var set_ := (a.EditCategory? && a.category in s.tags) || (a.CreateCategory? && Unused(s, a.category));
      var gone := if a.DeleteCategory? then Subtree(s.parents, {a.category}) else {};
      && (c in t.tags <==> (set_ && c == a.category) || (c in s.tags && c !in gone))
      && (c in t.tags ==> t.tags[c] == if set_ && c == a.category then a.tag else s.tags[c])
      && (c in t.parents <==> if set_ && c == a.category then a.parent.Some? else c in s.parents && c !in gone)
      && (c in t.parents ==> t.parents[c] == if set_ && c == a.category then a.parent.value else s.parents[c])
  {
    hide Subtree, Chunk, Oldest;
    if a.CreateCategory? && !Unused(s, a.category) && a.category !in s.tags {
      assert exists id :: id in s.entries && a.category in s.entries[id].categories;
    }
  }

  /** A write sets its listing's type, categories and text, a deletion removes its
      listing, a category's deletion drops the association, and no other step touches
      what a listing is. */
  lemma EntriesAfter(s: Index, a: Action, id: nat)
    ensures var t := Step(s, a);
      && (id in t.entries <==> (a.Write? && a.id == id) || (id in s.entries && !(a.Delete? && a.id == id)))
      && (id in t.entries ==>
            if a.Write? && a.id == id then
              t.entries[id].kind == a.kind && t.entries[id].text == a.text && t.entries[id].categories == a.categories
            else
              && t.entries[id].kind == s.entries[id].kind && t.entries[id].text == s.entries[id].text
              && t.entries[id].categories ==
                 s.entries[id].categories - if a.DeleteCategory? then Subtree(s.parents, {a.category}) else {})
  {
    hide Subtree, Chunk, Oldest, Recomputed;
  }

  /** A vector is written by its listing's own write and by a drain's recompute of it,
      fresh both times, and by nothing else. */
  lemma VectorsAfter(s: Index, a: Action, id: nat)
    requires id in s.entries && id in Step(s, a).entries
    ensures var t := Step(s, a);
      if a.Write? && a.id == id then IsFresh(t, id)
      else if a.RecomputeOne? && a.id == id && a.worker in s.drains && id in s.drains[a.worker].todo then IsFresh(t, id)
      else t.entries[id].vector == s.entries[id].vector
  {
    hide Subtree, Chunk, Oldest;
    var t := Step(s, a);
    if a.Write? && a.id == id {
      SameInputs(s, t, t.entries[id]);
      IgnoresVector(s, Entry(a.kind, a.categories, a.text, ""), t.entries[id]);
    } else if a.RecomputeOne? {
      SameInputs(s, t, t.entries[id]);
      IgnoresVector(s, s.entries[id], t.entries[id]);
    }
  }

  /** A changed field schema leaves one new marker for its type, a changed category name
      one for its category, and no other step leaves any. */
  lemma MarkersAfter(s: Index, a: Action)
    requires !a.FinishDrain?
    ensures Step(s, a).markers == s.markers +
      (if a.EditFields? && FieldsOf(s, a.kind) != a.fields then [Marker(OfType(a.kind), 0, false)]
       else if a.EditCategory? && a.category in s.tags && a.tag.name != s.tags[a.category].name
         then [Marker(InCategory(a.category), 0, false)]
       else [])
  {
    hide Subtree, Chunk, Oldest;
  }

  /** The last text written for a listing in a run, unless it was deleted since. */
  function LastText(actions: seq<Action>, id: nat): Option<string>
  {
    if actions == [] then None
    else
      var a := actions[|actions| - 1];
      if a.Write? && a.id == id then Some(a.text)
      else if a.Delete? && a.id == id then None
      else LastText(actions[..|actions| - 1], id)
  }

  /** In every run from an empty index, interleaved and crashing as it may, each listing
      has the text last written, and once its vector is fresh a search sees that text. */
  lemma {:induction false} SearchSeesLastText(s: Index, actions: seq<Action>, id: nat)
    requires s.entries == map[]
    ensures var t := Run(s, actions);
      && (id in t.entries <==> LastText(actions, id).Some?)
      && (id in t.entries ==> Some(t.entries[id].text) == LastText(actions, id))
      && (id in t.entries && IsFresh(t, id) ==>
            exists i: Inputs :: t.analyse(i) == t.entries[id].vector && Some(i.text) == LastText(actions, id))
    decreases |actions|
  {
    hide Step, Read, IsFresh;
    if actions != [] {
      var early, a := actions[..|actions| - 1], actions[|actions| - 1];
      SearchSeesLastText(s, early, id);
      EntriesAfter(Run(s, early), a, id);
    }
    var t := Run(s, actions);
    if id in t.entries && IsFresh(t, id) {
      FreshMeans(t, id);
      var i :| t.analyse(i) == t.entries[id].vector && ReadOf(t, t.entries[id], i);
      assert Some(i.text) == LastText(actions, id);
    }
  }
}
