/** The search vectors as a cache (directory/search.py:97-194, with the writers of
    markers in directory/services.py:223-259, 377-438). A vector is an arbitrary
    function of what a recompute reads. Each recompute is one step; a drain may be
    interleaved with anything, including other drains, and may crash. */
module SearchIndex {
  import opened Prelude

  /** What a category contributes: its name, at the place its order gives it. */
  datatype Tag = Tag(name: string, order: int)

  /** What a recompute reads: the listing's own text, the tags of its categories and
      the searchable fields of its type. */
  datatype Inputs = Inputs(text: string, tags: map<nat, Tag>, fields: string)

  datatype Entry = Entry(kind: nat, categories: set<nat>, text: string, vector: string)

  datatype Scope = OfType(kind: nat) | InCategory(category: nat) | WholeTenant

  datatype Marker = Marker(scope: Scope, cursor: nat, done: bool)

  /** A drain that has chosen its chunk: the ids still to recompute, the cursor it
      will write, and whether its chunk came back short. */
  datatype Drain = Drain(marker: nat, todo: set<nat>, last: nat, finished: bool)

  /** `analyse` is the text search; it never changes. `parents` is the category tree. */
  datatype Index = Index(
    analyse: Inputs -> string,
    entries: map<nat, Entry>, fields: map<nat, string>, tags: map<nat, Tag>, parents: map<nat, nat>,
    markers: seq<Marker>, drains: map<nat, Drain>)

  function FieldsOf(s: Index, kind: nat): string
  {
    if kind in s.fields then s.fields[kind] else ""
  }

  function TagOf(s: Index, category: nat): Tag
  {
    if category in s.tags then s.tags[category] else Tag("", 0)
  }

  /** What a recompute reads of an entry with these categories. */
  function Read(s: Index, e: Entry, categories: set<nat>): Inputs
  {
    Inputs(e.text, map c | c in categories :: TagOf(s, c), FieldsOf(s, e.kind))
  }

  function Recomputed(s: Index, e: Entry): string
  {
    s.analyse(Read(s, e, e.categories))
  }

  predicate IsFresh(s: Index, id: nat)
  {
    id in s.entries ==> s.entries[id].vector == Recomputed(s, s.entries[id])
  }

  /** `_marker_listings`. */
  predicate Covers(scope: Scope, e: Entry)
  {
    match scope case OfType(k) => e.kind == k case InCategory(c) => c in e.categories case WholeTenant => true
  }

  /** The covered ids past the cursor. */
  function Candidates(s: Index, m: Marker): set<nat>
  {
    set id | id in s.entries && Covers(m.scope, s.entries[id]) && id > m.cursor
  }

  /** The first `limit` of them, in id order. */
  function Chunk(s: Index, m: Marker, limit: nat): seq<nat>
  {
    Take(Sorted(Candidates(s, m)), limit)
  }

  function LastOf(ids: seq<nat>, m: Marker): nat
  {
    if ids == [] then m.cursor else ids[|ids| - 1]
  }

  /** The oldest pending marker at or after `from`. */
  function Oldest(markers: seq<Marker>, from: nat): (r: nat)
    requires from <= |markers|
    ensures from <= r <= |markers|
    ensures r < |markers| ==> !markers[r].done
    ensures forall i :: from <= i < r ==> markers[i].done
    decreases |markers| - from
  {
    if from == |markers| || !markers[from].done then from else Oldest(markers, from + 1)
  }

  // --- the steps ------------------------------------------------------------------------

  /** An upsert or a restore: the row and its vector are written together. */
  function Wrote(s: Index, id: nat, kind: nat, categories: set<nat>, text: string): Index
  {
    var e := Entry(kind, categories, text, "");
    s.(entries := s.entries[id := e.(vector := Recomputed(s, e))])
  }

  function Deleted(s: Index, id: nat): Index
  {
    s.(entries := s.entries - {id})
  }

  /** A changed field schema leaves a marker for the type. */
  function FieldsEdited(s: Index, kind: nat, fields: string): Index
  {
    if FieldsOf(s, kind) == fields then s
    else s.(fields := s.fields[kind := fields], markers := s.markers + [Marker(OfType(kind), 0, false)])
  }

  function Placed(parents: map<nat, nat>, category: nat, parent: Option<nat>): map<nat, nat>
  {
    if parent.Some? then parents[category := parent.value] else parents - {category}
  }

  /** `_update_category`: name, order and parent are written; only a changed name leaves
      a marker for the category. */
  function CategoryEdited(s: Index, category: nat, tag: Tag, parent: Option<nat>): Index
  {
    if category !in s.tags then s
    else
      s.(tags := s.tags[category := tag], parents := Placed(s.parents, category, parent),
         markers := if tag.name == TagOf(s, category).name then s.markers
                    else s.markers + [Marker(InCategory(category), 0, false)])
  }

  /** `_create_category`, under an id nothing uses yet; no marker. */
  function CategoryCreated(s: Index, category: nat, tag: Tag, parent: Option<nat>): Index
  {
    if category in s.tags || exists id :: id in s.entries && category in s.entries[id].categories then s
    else s.(tags := s.tags[category := tag], parents := Placed(s.parents, category, parent))
  }

  /** A drain takes the oldest pending marker and chooses its chunk. */
  function Started(s: Index, worker: nat, limit: nat): Index
  {
    var i := Oldest(s.markers, 0);
    if worker in s.drains || i == |s.markers| then s
    else
      var ids := Chunk(s, s.markers[i], limit);
      s.(drains := s.drains[worker := Drain(i, Elements(ids), LastOf(ids, s.markers[i]), |ids| < limit)])
  }

  function Refreshed(s: Index, id: nat): map<nat, Entry>
  {
    if id in s.entries then s.entries[id := s.entries[id].(vector := Recomputed(s, s.entries[id]))] else s.entries
  }

  function Advanced(s: Index, worker: nat, id: nat): Index
  {
    if worker !in s.drains || id !in s.drains[worker].todo then s
    else
      var d := s.drains[worker];
      s.(entries := Refreshed(s, id), drains := s.drains[worker := d.(todo := d.todo - {id})])
  }

  /** The cursor is written only while the marker is pending. */
  function MarkerAfter(m: Marker, last: nat, finished: bool): Marker
  {
    if m.done then m else Marker(m.scope, last, finished)
  }

  function Finished(s: Index, worker: nat): Index
  {
    if worker !in s.drains || s.drains[worker].todo != {} || s.drains[worker].marker >= |s.markers| then s
    else
      var d := s.drains[worker];
      s.(markers := s.markers[d.marker := MarkerAfter(s.markers[d.marker], d.last, d.finished)], drains := s.drains - {worker})
  }

  function Crashed(s: Index, worker: nat): Index
  {
    s.(drains := s.drains - {worker})
  }

  function ChildrenOf(parents: map<nat, nat>, of: set<nat>): set<nat>
  {
    set c | c in parents && parents[c] in of
  }

  /** The categories a cascading delete of `from` takes with it. */
  function Subtree(parents: map<nat, nat>, from: set<nat>): (r: set<nat>)
    ensures from <= r && ChildrenOf(parents, r) <= r
    decreases |parents.Keys - from|
  {
    var more := ChildrenOf(parents, from) - from;
    if more == {} then from
    else
      StrictSubset(parents.Keys - (from + more), parents.Keys - from, more);
      Subtree(parents, from + more)
  }

  lemma StrictSubset(a: set<nat>, b: set<nat>, more: set<nat>)
    requires more != {} && more <= b && a == b - more
    ensures |a| < |b|
  {
    assert b == a + more;
  }

  /** `_delete_category`: the children go too, the associations drop, and no marker is
      left. */
  function CategoryDeleted(s: Index, category: nat): Index
  {
    var gone := Subtree(s.parents, {category});
    s.(tags := s.tags - gone, parents := s.parents - gone,
       entries := map id | id in s.entries :: s.entries[id].(categories := s.entries[id].categories - gone))
  }

  /** A whole call of `drain_reindex_markers`, uninterrupted. */
  function RefreshedAll(s: Index, ids: set<nat>): map<nat, Entry>
  {
    map id | id in s.entries ::
      if id in ids then s.entries[id].(vector := Recomputed(s, s.entries[id])) else s.entries[id]
  }

  function Drained(s: Index, limit: nat): Index
  {
    var i := Oldest(s.markers, 0);
    if i == |s.markers| then s
    else
      var ids := Chunk(s, s.markers[i], limit);
      s.(entries := RefreshedAll(s, Elements(ids)),
         markers := s.markers[i := MarkerAfter(s.markers[i], LastOf(ids, s.markers[i]), |ids| < limit)])
  }

  datatype Result = Result(listings: nat, markersDone: nat, more: bool)

  class SearchStore {
    var s: Index

    constructor (s: Index)
      ensures this.s == s
    {
      this.s := s;
    }

    method RecomputeVector(id: nat)
      modifies this
      ensures s == old(s).(entries := Refreshed(old(s), id))
    {
      if id in s.entries {
        s := s.(entries := s.entries[id := s.entries[id].(vector := Recomputed(s, s.entries[id]))]);
      }
    }

    method DrainReindexMarkers(limit: nat) returns (r: Result)
      modifies this
      ensures s == Drained(old(s), limit)
      ensures r.more <==> exists i :: 0 <= i < |s.markers| && !s.markers[i].done
      ensures r.markersDone == 1 <==> Oldest(old(s).markers, 0) < |s.markers| && s.markers[Oldest(old(s).markers, 0)].done
      ensures r.markersDone <= 1
      ensures r.listings == var i := Oldest(old(s).markers, 0);
        if i == |old(s).markers| then 0 else |Chunk(old(s), old(s).markers[i], limit)|
    {
      hide Chunk, Elements, RefreshedAll;
      var i := OldestPending();
      if i == |s.markers| {
        return Result(0, 0, false);
      }
      var marker := s.markers[i];
      var ids := Chunk(s, marker, limit);
      RecomputeEach(ids);
      var finished := |ids| < limit;
      s := s.(markers := s.markers[i := Marker(marker.scope, if ids == [] then marker.cursor else ids[|ids| - 1], finished)]);
      var others := OtherPending(i);
      assert s.markers[i].done <==> finished;
      r := Result(|ids|, if finished then 1 else 0, !finished || others);
    }

    method OldestPending() returns (i: nat)
      ensures i == Oldest(s.markers, 0)
    {
      i := 0;
      while i < |s.markers| && s.markers[i].done
        invariant i <= |s.markers| && Oldest(s.markers, 0) == Oldest(s.markers, i)
      {
        i := i + 1;
      }
    }

    method RecomputeEach(ids: seq<nat>)
      modifies this
      ensures s == old(s).(entries := RefreshedAll(old(s), Elements(ids)))
    {
      assert RefreshedAll(s, Elements(ids[..0])) == s.entries;
      for k := 0 to |ids|
        invariant s == old(s).(entries := RefreshedAll(old(s), Elements(ids[..k])))
      {
        RecomputeVector(ids[k]);
        RefreshMore(old(s), ids, k);
      }
      assert ids[..|ids|] == ids;
    }

    method OtherPending(i: nat) returns (found: bool)
      ensures found <==> exists k :: 0 <= k < |s.markers| && k != i && !s.markers[k].done
    {
      for j := 0 to |s.markers|
        invariant forall k :: 0 <= k < j && k != i ==> s.markers[k].done
      {
        if j != i && !s.markers[j].done {
          return true;
        }
      }
      return false;
    }
  }

  lemma SameInputs(s: Index, t: Index, e: Entry)
    requires t.analyse == s.analyse && t.fields == s.fields && t.tags == s.tags
    ensures Recomputed(t, e) == Recomputed(s, e)
  {
    assert Read(t, e, e.categories) == Read(s, e, e.categories);
  }

  /** Recomputing in turn reads nothing an earlier recompute wrote. */
  lemma RefreshMore(s: Index, ids: seq<nat>, k: nat)
    requires k < |ids|
    ensures var t := s.(entries := RefreshedAll(s, Elements(ids[..k])));
      Refreshed(t, ids[k]) == RefreshedAll(s, Elements(ids[..k + 1]))
  {
    var t := s.(entries := RefreshedAll(s, Elements(ids[..k])));
    assert Elements(ids[..k + 1]) == Elements(ids[..k]) + {ids[k]};
    forall e ensures Recomputed(t, e) == Recomputed(s, e) { SameInputs(s, t, e); }
    if ids[k] !in s.entries {
      assert Refreshed(t, ids[k]) == RefreshedAll(s, Elements(ids[..k + 1]));
    }
  }
}
