/** Every stored vector is fresh or scheduled to be recomputed. */
module IndexLaws {
  import opened Prelude
  import opened SearchIndex

  datatype Action =
    | Write(id: nat, kind: nat, categories: set<nat>, text: string)
    | Delete(id: nat)
    | EditFields(kind: nat, fields: string)
    | EditCategory(category: nat, tag: Tag, parent: Option<nat>)
    | CreateCategory(category: nat, tag: Tag, parent: Option<nat>)
    | StartDrain(worker: nat, limit: nat)
    | RecomputeOne(worker: nat, id: nat)
    | FinishDrain(worker: nat)
    | CrashDrain(worker: nat)
    | DeleteCategory(category: nat)

  function Step(s: Index, a: Action): Index
  {
    match a
    case Write(id, kind, categories, text) => Wrote(s, id, kind, categories, text)
    case Delete(id) => Deleted(s, id)
    case EditFields(kind, fields) => FieldsEdited(s, kind, fields)
    case EditCategory(c, tag, p) => CategoryEdited(s, c, tag, p)
    case CreateCategory(c, tag, p) => CategoryCreated(s, c, tag, p)
    case StartDrain(w, limit) => Started(s, w, limit)
    case RecomputeOne(w, id) => Advanced(s, w, id)
    case FinishDrain(w) => Finished(s, w)
    case CrashDrain(w) => Crashed(s, w)
    case DeleteCategory(c) => CategoryDeleted(s, c)
  }

  /** Database ids start at one, as cursors start below them. */
  predicate Allowed(a: Action)
  {
    a.Write? ==> a.id > 0
  }

  function Run(s: Index, actions: seq<Action>): Index
    decreases |actions|
  {
    if actions == [] then s else Step(Run(s, actions[..|actions| - 1]), actions[|actions| - 1])
  }

  /** Whether the drain still leaves the marker responsible for `id`. */
  predicate LeavesToDo(d: Drain, marker: int, id: nat)
  {
    d.marker == marker ==> id in d.todo || (!d.finished && d.last < id)
  }

  /** A pending marker covers the listing with its cursor below it, and no running
      drain of that marker is about to step over it. */
  ghost predicate ScheduledBy(s: Index, id: nat, m: int)
    requires id in s.entries
  {
    && 0 <= m < |s.markers| && !s.markers[m].done
    && Covers(s.markers[m].scope, s.entries[id]) && s.markers[m].cursor < id
    && forall w :: w in s.drains ==> LeavesToDo(s.drains[w], m, id)
  }

  ghost predicate Maintained(s: Index, id: nat)
  {
    id in s.entries ==> IsFresh(s, id) || exists m :: ScheduledBy(s, id, m)
  }

  /** The invariant of the cache. */
  ghost predicate Cached(s: Index)
  {
    && 0 !in s.entries
    && (forall w :: w in s.drains ==> s.drains[w].marker < |s.markers|)
    && forall id :: Maintained(s, id)
  }

  // --- selection ----------------------------------------------------------------------------

  /** A covered id past the cursor is in the chunk, or past its end when the chunk is
      full. */
  lemma ChunkLeaves(s: Index, m: Marker, limit: nat, id: nat)
    requires id in Candidates(s, m)
    ensures var ids := Chunk(s, m, limit);
      id in ids || (|ids| == limit && LastOf(ids, m) < id)
  {
  }

  // --- steps --------------------------------------------------------------------------------

  lemma WriteKeeps(s: Index, id: nat, kind: nat, categories: set<nat>, text: string)
    requires Cached(s) && id > 0
    ensures Cached(Wrote(s, id, kind, categories, text))
  {
    var t := Wrote(s, id, kind, categories, text);
    forall e ensures Recomputed(t, e) == Recomputed(s, e) { SameInputs(s, t, e); }
    forall x ensures Maintained(t, x) {
      assert Maintained(s, x);
      if x in t.entries && x != id && !IsFresh(t, x) {
        var m :| ScheduledBy(s, x, m);
        assert ScheduledBy(t, x, m);
      }
    }
  }

  lemma DeleteKeeps(s: Index, id: nat)
    requires Cached(s)
    ensures Cached(Deleted(s, id))
  {
    var t := Deleted(s, id);
    forall e ensures Recomputed(t, e) == Recomputed(s, e) { SameInputs(s, t, e); }
    forall x ensures Maintained(t, x) {
      assert Maintained(s, x);
      if x in t.entries && !IsFresh(t, x) {
        var m :| ScheduledBy(s, x, m);
        assert ScheduledBy(t, x, m);
      }
    }
  }

  /** An edit that leaves a marker covering every listing whose inputs it changed. */
  lemma EditKeeps(s: Index, t: Index, scope: Scope)
    requires Cached(s) && t.entries == s.entries && t.drains == s.drains && t.markers == s.markers + [Marker(scope, 0, false)]
    requires forall id :: id in s.entries && !Covers(scope, s.entries[id]) ==> Recomputed(t, s.entries[id]) == Recomputed(s, s.entries[id])
    ensures Cached(t)
  {
    hide Recomputed, Covers;
    forall x ensures Maintained(t, x) {
      assert Maintained(s, x);
      if x in t.entries && !IsFresh(t, x) {
        if Covers(scope, t.entries[x]) {
          assert ScheduledBy(t, x, |s.markers|);
        } else {
          var m :| ScheduledBy(s, x, m);
          assert ScheduledBy(t, x, m);
        }
      }
    }
  }

  lemma EditFieldsKeeps(s: Index, kind: nat, fields: string)
    requires Cached(s)
    ensures Cached(FieldsEdited(s, kind, fields))
  {
    if FieldsOf(s, kind) != fields {
      var t := FieldsEdited(s, kind, fields);
      forall id | id in s.entries && s.entries[id].kind != kind ensures Recomputed(t, s.entries[id]) == Recomputed(s, s.entries[id]) {
        var e := s.entries[id];
        assert Read(t, e, e.categories) == Read(s, e, e.categories);
      }
      EditKeeps(s, t, OfType(kind));
    }
  }

  /** A rename leaves a marker, whatever else the edit changes. */
  lemma RenameKeeps(s: Index, category: nat, tag: Tag, parent: Option<nat>)
    requires Cached(s) && category in s.tags && tag.name != TagOf(s, category).name
    ensures Cached(CategoryEdited(s, category, tag, parent))
  {
    var t := CategoryEdited(s, category, tag, parent);
    forall id | id in s.entries && category !in s.entries[id].categories
      ensures Recomputed(t, s.entries[id]) == Recomputed(s, s.entries[id])
    {
      var e := s.entries[id];
      assert Read(t, e, e.categories) == Read(s, e, e.categories);
    }
    EditKeeps(s, t, InCategory(category));
  }

  /** A drain that starts on the marker takes the listing or stops before it. */
  lemma NewDrainLeaves(s: Index, i: nat, limit: nat, x: nat)
    requires i < |s.markers| && x in Candidates(s, s.markers[i])
    ensures var ids := Chunk(s, s.markers[i], limit);
      LeavesToDo(Drain(i, Elements(ids), LastOf(ids, s.markers[i]), |ids| < limit), i, x)
  {
  }

  lemma StartStillSchedules(s: Index, worker: nat, limit: nat, x: nat, m: int)
    requires x in s.entries && ScheduledBy(s, x, m)
    ensures ScheduledBy(Started(s, worker, limit), x, m)
  {
    hide Chunk, LastOf, Elements, Covers, LeavesToDo;
    var i := Oldest(s.markers, 0);
    var t := Started(s, worker, limit);
    forall w | w in t.drains ensures LeavesToDo(t.drains[w], m, x) {
      if w in s.drains {
        assert LeavesToDo(s.drains[w], m, x);
      } else if m == i {
        NewDrainLeaves(s, i, limit, x);
      } else {
        OtherDrain(t.drains[w], m, x);
      }
    }
  }

  lemma OtherDrain(d: Drain, m: int, x: nat)
    requires d.marker != m
    ensures LeavesToDo(d, m, x)
  {
  }

  /** A step that leaves the entries and what they read alone keeps the cache if it
      leaves every schedule in force. */
  lemma SameEntriesKeep(s: Index, t: Index)
    requires Cached(s) && t.entries == s.entries && t.analyse == s.analyse && t.fields == s.fields && t.tags == s.tags
    requires forall w :: w in t.drains ==> t.drains[w].marker < |t.markers|
    requires forall x, m :: x in s.entries && ScheduledBy(s, x, m) ==> ScheduledBy(t, x, m)
    ensures Cached(t)
  {
    hide Recomputed, ScheduledBy;
    forall x ensures Maintained(t, x) {
      assert Maintained(s, x);
      if x in t.entries && !IsFresh(t, x) {
        SameInputs(s, t, s.entries[x]);
        var m :| ScheduledBy(s, x, m);
        assert ScheduledBy(t, x, m);
      }
    }
  }

  lemma StartKeeps(s: Index, worker: nat, limit: nat)
    requires Cached(s)
    ensures Cached(Started(s, worker, limit))
  {
    hide Maintained, Chunk, ScheduledBy, Elements, LastOf;
    var t := Started(s, worker, limit);
    forall x, m | x in s.entries && ScheduledBy(s, x, m) ensures ScheduledBy(t, x, m) {
      StartStillSchedules(s, worker, limit, x, m);
    }
    SameEntriesKeep(s, t);
  }

  lemma RecomputeKeeps(s: Index, worker: nat, id: nat)
    requires Cached(s)
    ensures Cached(Advanced(s, worker, id))
  {
    var t := Advanced(s, worker, id);
    forall e ensures Recomputed(t, e) == Recomputed(s, e) { SameInputs(s, t, e); }
    forall x ensures Maintained(t, x) {
      assert Maintained(s, x);
      if x in t.entries && !IsFresh(t, x) {
        var m :| ScheduledBy(s, x, m);
        assert ScheduledBy(t, x, m);
      }
    }
  }

  lemma FinishKeeps(s: Index, worker: nat)
    requires Cached(s)
    ensures Cached(Finished(s, worker))
  {
    hide Maintained, Covers;
    var t := Finished(s, worker);
    forall x, m | x in s.entries && ScheduledBy(s, x, m) ensures ScheduledBy(t, x, m) {
      if worker in s.drains {
        assert LeavesToDo(s.drains[worker], m, x);
      }
    }
    SameEntriesKeep(s, t);
  }

  lemma CrashKeeps(s: Index, worker: nat)
    requires Cached(s)
    ensures Cached(Crashed(s, worker))
  {
    hide Maintained;
    SameEntriesKeep(s, Crashed(s, worker));
  }

  // --- edits that leave no marker ---------------------------------------------------------------

  /** The listing's vector is what the edited tag gives, or a marker still has to visit it. */
  ghost predicate SurvivesEdit(s: Index, category: nat, tag: Tag, id: nat)
    requires id in s.entries
  {
    var e := s.entries[id];
    || e.vector == s.analyse(Read(s.(tags := s.tags[category := tag]), e, e.categories))
    || exists m :: ScheduledBy(s, id, m)
  }

  /** What to check before an edit: it renames, or every listing in the category survives. */
  ghost predicate SafeToEdit(s: Index, category: nat, tag: Tag)
  {
    || category !in s.tags || tag.name != TagOf(s, category).name
    || forall id :: id in s.entries && category in s.entries[id].categories ==> SurvivesEdit(s, category, tag, id)
  }

  lemma SilentEditMaintains(s: Index, category: nat, tag: Tag, parent: Option<nat>, id: nat)
    requires id in s.entries && category in s.tags && tag.name == TagOf(s, category).name
    ensures Maintained(CategoryEdited(s, category, tag, parent), id) <==> SurvivesEdit(s, category, tag, id)
  {
    var t := CategoryEdited(s, category, tag, parent);
    var e := s.entries[id];
    assert Read(t, e, e.categories) == Read(s.(tags := s.tags[category := tag]), e, e.categories);
    hide Read;
    assert forall m :: ScheduledBy(t, id, m) <==> ScheduledBy(s, id, m);
  }

  lemma OthersSurviveEdit(s: Index, category: nat, tag: Tag, id: nat)
    requires id in s.entries && Maintained(s, id) && category !in s.entries[id].categories
    ensures SurvivesEdit(s, category, tag, id)
  {
    var e := s.entries[id];
    assert Read(s.(tags := s.tags[category := tag]), e, e.categories) == Read(s, e, e.categories);
    hide Read;
  }

  /** From every state of the cache, an edit of a category's name, order or parent keeps
      the cache right exactly when it is safe. */
  lemma CategoryEditKeepsIffSafe(s: Index, category: nat, tag: Tag, parent: Option<nat>)
    requires Cached(s)
    ensures Cached(CategoryEdited(s, category, tag, parent)) <==> SafeToEdit(s, category, tag)
  {
    if category in s.tags && tag.name != TagOf(s, category).name {
      RenameKeeps(s, category, tag, parent);
    } else if category in s.tags {
      var t := CategoryEdited(s, category, tag, parent);
      assert t.entries == s.entries;
      hide Maintained, SurvivesEdit;
      forall id | id in s.entries
        ensures Maintained(t, id) <==> SurvivesEdit(s, category, tag, id)
        ensures category !in s.entries[id].categories ==> SurvivesEdit(s, category, tag, id)
      {
        SilentEditMaintains(s, category, tag, parent, id);
        if category !in s.entries[id].categories {
          OthersSurviveEdit(s, category, tag, id);
        }
      }
      forall id | id !in s.entries ensures Maintained(t, id) {
        NotThere(t, id);
      }
    }
  }

  /** Moving a category in the tree is always safe. */
  lemma MoveIsSafe(s: Index, category: nat)
    requires Cached(s) && category in s.tags
    ensures SafeToEdit(s, category, s.tags[category])
  {
    assert s.tags[category := s.tags[category]] == s.tags;
    forall id | id in s.entries ensures SurvivesEdit(s, category, s.tags[category], id) {
      assert Maintained(s, id);
    }
  }

  lemma CreateKeeps(s: Index, category: nat, tag: Tag, parent: Option<nat>)
    requires Cached(s)
    ensures Cached(CategoryCreated(s, category, tag, parent))
  {
    var t := CategoryCreated(s, category, tag, parent);
    forall x ensures Maintained(t, x) {
      assert Maintained(s, x);
      if x in s.entries {
        var e := s.entries[x];
        assert t == s || category !in e.categories;
        assert Read(t, e, e.categories) == Read(s, e, e.categories);
        assert forall m :: ScheduledBy(t, x, m) <==> ScheduledBy(s, x, m);
      }
    }
  }

  lemma NotThere(s: Index, id: nat)
    requires id !in s.entries
    ensures Maintained(s, id)
  {
  }

  /** Whether the step leaves nothing behind: the two writers without a marker are safe
      under a condition, the others always. */
  ghost predicate Safe(s: Index, a: Action)
  {
    match a
    case EditCategory(c, tag, _) => SafeToEdit(s, c, tag)
    case DeleteCategory(c) => SafeToDelete(s, c)
    case _ => true
  }

  lemma StepKeepsIffSafe(s: Index, a: Action)
    requires Cached(s) && Allowed(a)
    ensures Cached(Step(s, a)) <==> Safe(s, a)
  {
    hide Cached, SafeToDelete, SafeToEdit;
    match a
    case Write(id, kind, categories, text) => WriteKeeps(s, id, kind, categories, text);
    case Delete(id) => DeleteKeeps(s, id);
    case EditFields(kind, fields) => EditFieldsKeeps(s, kind, fields);
    case EditCategory(c, tag, p) => CategoryEditKeepsIffSafe(s, c, tag, p);
    case CreateCategory(c, tag, p) => CreateKeeps(s, c, tag, p);
    case StartDrain(w, limit) => StartKeeps(s, w, limit);
    case RecomputeOne(w, id) => RecomputeKeeps(s, w, id);
    case FinishDrain(w) => FinishKeeps(s, w);
    case CrashDrain(w) => CrashKeeps(s, w);
    case DeleteCategory(c) => CategoryDeletionKeepsIffSafe(s, c);
  }

  // --- deleting a category ----------------------------------------------------------------------

  /** A delete takes no more than the categories a cascade must: its set lies within
      every set that holds the category and, with each category, its children. */
  lemma {:induction false} SubtreeIsLeast(parents: map<nat, nat>, from: set<nat>, closed: set<nat>)
    requires from <= closed && ChildrenOf(parents, closed) <= closed
    ensures Subtree(parents, from) <= closed
    decreases |parents.Keys - from|
  {
    var more := ChildrenOf(parents, from) - from;
    if more != {} {
      StrictSubset(parents.Keys - (from + more), parents.Keys - from, more);
      forall c | c in more ensures c in closed {
        assert c in ChildrenOf(parents, closed);
      }
      SubtreeIsLeast(parents, from + more, closed);
    }
  }

  /** The marker is for a category that goes. */
  predicate ForDeleted(m: Marker, gone: set<nat>)
  {
    m.scope.InCategory? && m.scope.category in gone
  }

  /** The listing's vector is what it would be without the deleted categories, or a
      marker that is not for one of them still has to visit it. */
  ghost predicate Survives(s: Index, gone: set<nat>, id: nat)
    requires id in s.entries
  {
    var e := s.entries[id];
    || e.vector == s.analyse(Read(s, e, e.categories - gone))
    || exists m :: ScheduledBy(s, id, m) && !ForDeleted(s.markers[m], gone)
  }

  /** What to check before deleting a category: every listing in it or below it survives. */
  ghost predicate SafeToDelete(s: Index, category: nat)
  {
    var gone := Subtree(s.parents, {category});
    forall id :: id in s.entries && s.entries[id].categories * gone != {} ==> Survives(s, gone, id)
  }

  lemma DeletedReads(s: Index, category: nat, id: nat)
    requires id in s.entries
    ensures var gone, t := Subtree(s.parents, {category}), CategoryDeleted(s, category);
      Recomputed(t, t.entries[id]) == s.analyse(Read(s, s.entries[id], s.entries[id].categories - gone))
  {
    var gone, t := Subtree(s.parents, {category}), CategoryDeleted(s, category);
    var e := s.entries[id];
    assert Read(t, t.entries[id], e.categories - gone) == Read(s, e, e.categories - gone);
  }

  /** Schedules that survive are those of the remaining scopes. */
  lemma DeletedSchedules(s: Index, category: nat, id: nat, m: int)
    requires id in s.entries
    ensures var gone, t := Subtree(s.parents, {category}), CategoryDeleted(s, category);
      ScheduledBy(t, id, m) <==> ScheduledBy(s, id, m) && !ForDeleted(s.markers[m], gone)
  {
    var gone, t := Subtree(s.parents, {category}), CategoryDeleted(s, category);
    assert t.entries[id].categories == s.entries[id].categories - gone && t.entries[id].kind == s.entries[id].kind;
    hide Subtree;
  }

  lemma DeletedMaintains(s: Index, category: nat, id: nat)
    requires id in s.entries
    ensures Maintained(CategoryDeleted(s, category), id) <==> Survives(s, Subtree(s.parents, {category}), id)
  {
    var gone, t := Subtree(s.parents, {category}), CategoryDeleted(s, category);
    DeletedReads(s, category, id);
    assert t.entries[id].vector == s.entries[id].vector;
    hide Subtree, ScheduledBy, Recomputed, Read, ForDeleted;
    forall m ensures ScheduledBy(t, id, m) <==> ScheduledBy(s, id, m) && !ForDeleted(s.markers[m], gone) {
      DeletedSchedules(s, category, id, m);
    }
  }

  /** A listing outside the deleted categories is not concerned. */
  lemma OthersSurvive(s: Index, gone: set<nat>, id: nat)
    requires id in s.entries && Maintained(s, id) && s.entries[id].categories * gone == {}
    ensures Survives(s, gone, id)
  {
    var e := s.entries[id];
    forall c | c in e.categories ensures c !in gone {
      assert c !in e.categories * gone;
    }
    assert e.categories - gone == e.categories;
    if !IsFresh(s, id) {
      var m :| ScheduledBy(s, id, m);
      assert !ForDeleted(s.markers[m], gone);
    }
  }

  /** From every state of the cache, with any markers pending and any drains running,
      deleting a category keeps the cache right exactly when it is safe to delete. */
  lemma CategoryDeletionKeepsIffSafe(s: Index, category: nat)
    requires Cached(s)
    ensures Cached(CategoryDeleted(s, category)) <==> SafeToDelete(s, category)
  {
    var gone, t := Subtree(s.parents, {category}), CategoryDeleted(s, category);
    assert t.entries.Keys == s.entries.Keys;
    hide Survives, Maintained;
    forall id | id in s.entries
      ensures Maintained(t, id) <==> Survives(s, gone, id)
      ensures s.entries[id].categories * gone == {} ==> Survives(s, gone, id)
    {
      DeletedMaintains(s, category, id);
      if s.entries[id].categories * gone == {} {
        OthersSurvive(s, gone, id);
      }
    }
    forall id | id !in s.entries ensures Maintained(t, id) {
      NotThere(t, id);
    }
  }

  ghost predicate CachedThroughout(s: Index, actions: seq<Action>)
  {
    forall k :: 0 <= k <= |actions| ==> Cached(Run(s, actions[..k]))
  }

  ghost predicate SafeThroughout(s: Index, actions: seq<Action>)
  {
    forall k :: 0 <= k < |actions| ==> Safe(Run(s, actions[..k]), actions[k])
  }

  lemma RunSteps(s: Index, actions: seq<Action>, k: nat)
    requires k < |actions|
    ensures Run(s, actions[..k + 1]) == Step(Run(s, actions[..k]), actions[k])
  {
    hide Step;
    assert actions[..k + 1][..k] == actions[..k];
  }

  /** In every run of writes, edits of any kind, category deletions and interleaved or
      crashed drains, each listing's vector is a fresh recompute, or a pending marker
      covers it with its cursor below its id, in every state if and only if each edit and
      deletion of a category was safe at its moment. */
  lemma {:induction false} FreshOrScheduled(s: Index, actions: seq<Action>)
    requires Cached(s) && forall i :: 0 <= i < |actions| ==> Allowed(actions[i])
    ensures CachedThroughout(s, actions) <==> SafeThroughout(s, actions)
    ensures SafeThroughout(s, actions) ==> Cached(Run(s, actions))
  {
    hide Cached, Step, Safe;
    if SafeThroughout(s, actions) {
      SafeRun(s, actions, |actions|);
      assert actions[..|actions|] == actions;
      forall k | 0 <= k <= |actions| ensures Cached(Run(s, actions[..k])) {
        SafeRun(s, actions, k);
      }
    }
    if CachedThroughout(s, actions) {
      forall k | 0 <= k < |actions| ensures Safe(Run(s, actions[..k]), actions[k]) {
        RunSteps(s, actions, k);
        assert Cached(Run(s, actions[..k])) && Cached(Run(s, actions[..k + 1]));
        StepKeepsIffSafe(Run(s, actions[..k]), actions[k]);
      }
    }
  }

  lemma {:induction false} SafeRun(s: Index, actions: seq<Action>, k: nat)
    requires Cached(s) && k <= |actions| && SafeThroughout(s, actions)
    requires forall i :: 0 <= i < |actions| ==> Allowed(actions[i])
    ensures Cached(Run(s, actions[..k]))
    decreases k
  {
    hide Cached, Step, Safe;
    if k > 0 {
      SafeRun(s, actions, k - 1);
      RunSteps(s, actions, k - 1);
      StepKeepsIffSafe(Run(s, actions[..k - 1]), actions[k - 1]);
    }
  }

  /** A listing only in the category `child`, fresh, with nothing pending. */
  ghost predicate OnlyIn(s: Index, id: nat, child: nat)
  {
    && Cached(s) && id in s.entries && s.entries[id].categories == {child} && IsFresh(s, id)
    && (forall m :: 0 <= m < |s.markers| ==> s.markers[m].done)
    && s.analyse(Read(s, s.entries[id], {child})) != s.analyse(Read(s, s.entries[id], {}))
  }

  /** Deleting a parent in which there is no listing loses the listings of a child. */
  lemma ParentDeletionLosesChild(s: Index, id: nat, child: nat, parent: nat)
    requires OnlyIn(s, id, child) && child in s.parents && s.parents[child] == parent
    ensures !Cached(CategoryDeleted(s, parent))
  {
    var gone := Subtree(s.parents, {parent});
    assert parent in gone && child in ChildrenOf(s.parents, gone);
    assert s.entries[id].categories * gone == {child} && s.entries[id].categories - gone == {};
    assert !Survives(s, gone, id);
    CategoryDeletionKeepsIffSafe(s, parent);
  }

  /** A rename schedules the listing, and deleting the renamed category before the
      drain loses it again. */
  lemma RenameThenDeleteLoses(s: Index, id: nat, child: nat, name: string, parent: Option<nat>)
    requires OnlyIn(s, id, child) && child in s.tags && s.tags[child].name != name
    ensures var t := CategoryEdited(s, child, s.tags[child].(name := name), parent);
      Cached(t) && !Cached(CategoryDeleted(t, child))
  {
    var tag := s.tags[child].(name := name);
    var t := CategoryEdited(s, child, tag, parent);
    RenameKeeps(s, child, tag, parent);
    var gone := Subtree(t.parents, {child});
    var e := s.entries[id];
    assert Read(t, e, {}) == Read(s, e, {});
    assert e.categories * gone == {child} && e.categories - gone == {};
    assert !Survives(t, gone, id);
    CategoryDeletionKeepsIffSafe(t, child);
  }

  /** Moving a category among its siblings leaves a listing's vector out of date, with
      nothing to bring it up to date, whenever the vector depends on the place. */
  lemma ReorderLoses(s: Index, id: nat, category: nat, order: int, parent: Option<nat>)
    requires Cached(s) && id in s.entries && category in s.entries[id].categories && IsFresh(s, id) && category in s.tags
    requires forall m :: 0 <= m < |s.markers| ==> s.markers[m].done
    requires var e := s.entries[id];
      s.analyse(Read(s.(tags := s.tags[category := s.tags[category].(order := order)]), e, e.categories))
        != s.analyse(Read(s, e, e.categories))
    ensures !Cached(CategoryEdited(s, category, s.tags[category].(order := order), parent))
  {
    var tag := s.tags[category].(order := order);
    assert !SurvivesEdit(s, category, tag, id);
    CategoryEditKeepsIffSafe(s, category, tag, parent);
  }

  // --- draining to the end ---------------------------------------------------------------------

  lemma DrainStillSchedules(s: Index, limit: nat, x: nat, m: int)
    requires x in s.entries && ScheduledBy(s, x, m)
    requires x !in Chunk(s, s.markers[Oldest(s.markers, 0)], limit)
    ensures ScheduledBy(Drained(s, limit), x, m)
  {
    var i := Oldest(s.markers, 0);
    hide Chunk, Recomputed;
    if m == i {
      ChunkLeaves(s, s.markers[i], limit, x);
    }
  }

  /** A whole call keeps the invariant too, beside whatever drains are running. */
  lemma DrainKeeps(s: Index, limit: nat)
    requires Cached(s)
    ensures Cached(Drained(s, limit))
  {
    var t := Drained(s, limit);
    var i := Oldest(s.markers, 0);
    if i < |s.markers| {
      hide IsFresh, Chunk, ScheduledBy, RefreshedAll;
      forall x ensures Maintained(t, x) {
        assert Maintained(s, x);
        DrainedEntry(s, limit, x);
        if x in t.entries && !IsFresh(t, x) {
          var m :| ScheduledBy(s, x, m);
          DrainStillSchedules(s, limit, x, m);
        }
      }
      DrainedEntry(s, limit, 0);
    }
  }

  /** A call refreshes the listings of its chunk and touches no other. */
  lemma DrainedEntry(s: Index, limit: nat, x: nat)
    requires Oldest(s.markers, 0) < |s.markers|
    ensures var t, ids := Drained(s, limit), Chunk(s, s.markers[Oldest(s.markers, 0)], limit);
      && (x in t.entries <==> x in s.entries)
      && (x in ids ==> IsFresh(t, x))
      && (x !in ids && x in s.entries ==> t.entries[x] == s.entries[x] && IsFresh(t, x) == IsFresh(s, x))
  {
    var t := Drained(s, limit);
    hide Chunk;
    if x in s.entries {
      SameInputs(s, t, s.entries[x]);
      SameInputs(s, t, t.entries[x]);
      hide Recomputed;
      if x in Chunk(s, s.markers[Oldest(s.markers, 0)], limit) {
        assert Recomputed(t, t.entries[x]) == Recomputed(s, s.entries[x]) by { IgnoresVector(s, s.entries[x], t.entries[x]); }
      }
    }
  }

  lemma IgnoresVector(s: Index, a: Entry, b: Entry)
    requires b == a.(vector := b.vector)
    ensures Recomputed(s, a) == Recomputed(s, b)
  {
  }

  function MarkerWork(s: Index, m: Marker): nat
  {
    if m.done then 0 else 1 + |Candidates(s, m)|
  }

  /** The pending markers and the listings they still have to visit. */
  function PendingWork(s: Index, markers: seq<Marker>): nat
  {
    if markers == [] then 0 else PendingWork(s, markers[..|markers| - 1]) + MarkerWork(s, markers[|markers| - 1])
  }

  lemma {:induction false} WorkUpdate(s: Index, markers: seq<Marker>, i: nat, m: Marker)
    requires i < |markers|
    ensures PendingWork(s, markers[i := m]) == PendingWork(s, markers) - MarkerWork(s, markers[i]) + MarkerWork(s, m)
    decreases |markers|
  {
    hide Candidates;
    var n := |markers| - 1;
    if i == n {
      assert markers[i := m][..n] == markers[..n];
    } else {
      assert markers[i := m][..n] == markers[..n][i := m];
      WorkUpdate(s, markers[..n], i, m);
    }
  }

  lemma LastIsCandidate(s: Index, m: Marker, limit: nat)
    requires Chunk(s, m, limit) != []
    ensures LastOf(Chunk(s, m, limit), m) in Candidates(s, m)
  {
  }

  lemma CandidatesShrink(s: Index, m: Marker, n: Marker)
    requires n.scope == m.scope && n.cursor in Candidates(s, m)
    ensures |Candidates(s, n)| < |Candidates(s, m)|
  {
    assert n.cursor !in Candidates(s, n);
    assert Candidates(s, n) <= Candidates(s, m) - {n.cursor};
    SubsetSize(Candidates(s, n), Candidates(s, m) - {n.cursor});
  }

  /** Advancing the cursor past a chunk leaves fewer candidates. */
  lemma ChunkShrinks(s: Index, m: Marker, limit: nat)
    requires !m.done && limit > 0
    ensures var ids := Chunk(s, m, limit);
      MarkerWork(s, MarkerAfter(m, LastOf(ids, m), |ids| < limit)) < MarkerWork(s, m)
  {
    hide Chunk, Candidates;
    var ids := Chunk(s, m, limit);
    if |ids| >= limit {
      LastIsCandidate(s, m, limit);
      CandidatesShrink(s, m, MarkerAfter(m, LastOf(ids, m), false));
    }
  }

  lemma {:induction false} WorkIgnoresVectors(s: Index, t: Index, markers: seq<Marker>)
    requires forall m :: Candidates(t, m) == Candidates(s, m)
    ensures PendingWork(t, markers) == PendingWork(s, markers)
    decreases |markers|
  {
    if markers != [] {
      WorkIgnoresVectors(s, t, markers[..|markers| - 1]);
    }
  }

  lemma DrainedCoverage(s: Index, limit: nat, id: nat)
    ensures var t := Drained(s, limit);
      && (id in t.entries <==> id in s.entries)
      && (id in s.entries ==> t.entries[id].kind == s.entries[id].kind && t.entries[id].categories == s.entries[id].categories)
  {
    hide Recomputed, Chunk, MarkerAfter, LastOf;
  }

  lemma SameCandidates(s: Index, limit: nat, m: Marker)
    ensures Candidates(Drained(s, limit), m) == Candidates(s, m)
  {
    hide Drained;
    forall id: nat ensures id in Candidates(Drained(s, limit), m) <==> id in Candidates(s, m) {
      DrainedCoverage(s, limit, id);
    }
  }

  lemma DrainShrinks(s: Index, limit: nat)
    requires limit > 0 && Oldest(s.markers, 0) < |s.markers|
    ensures var t := Drained(s, limit); PendingWork(t, t.markers) < PendingWork(s, s.markers)
  {
    var t := Drained(s, limit);
    var i := Oldest(s.markers, 0);
    forall m ensures Candidates(t, m) == Candidates(s, m) {
      SameCandidates(s, limit, m);
    }
    hide Candidates, Chunk, RefreshedAll;
    WorkIgnoresVectors(s, t, t.markers);
    WorkUpdate(s, s.markers, i, t.markers[i]);
    ChunkShrinks(s, s.markers[i], limit);
  }

  function DrainedTimes(s: Index, limit: nat, n: nat): Index
    decreases n
  {
    if n == 0 then s else DrainedTimes(Drained(s, limit), limit, n - 1)
  }

  ghost predicate AllFresh(s: Index)
  {
    forall id :: id in s.entries ==> IsFresh(s, id)
  }

  lemma NothingPending(s: Index)
    requires Cached(s) && Oldest(s.markers, 0) == |s.markers|
    ensures AllFresh(s)
  {
    forall id | id in s.entries ensures IsFresh(s, id) {
      assert Maintained(s, id);
    }
  }

  /** Repeated calls, each of at least one listing, empty the queue in a bounded
      number of calls, and then every vector is fresh. */
  lemma {:induction false} DrainsTerminateFresh(s: Index, limit: nat, n: nat)
    requires Cached(s) && limit > 0 && n >= PendingWork(s, s.markers)
    ensures var t := DrainedTimes(s, limit, n); AllFresh(t) && Oldest(t.markers, 0) == |t.markers|
    decreases n
  {
    hide Cached, AllFresh, Drained;
    if n == 0 {
      if Oldest(s.markers, 0) < |s.markers| {
        DrainShrinks(s, limit);
      }
      NothingPending(s);
    } else {
      DrainKeeps(s, limit);
      if Oldest(s.markers, 0) < |s.markers| {
        DrainShrinks(s, limit);
      } else {
        DrainIdle(s, limit);
        NoWork(s, s.markers);
      }
      DrainsTerminateFresh(Drained(s, limit), limit, n - 1);
    }
  }

  lemma DrainIdle(s: Index, limit: nat)
    requires Oldest(s.markers, 0) == |s.markers|
    ensures Drained(s, limit) == s
  {
  }

  lemma {:induction false} NoWork(s: Index, markers: seq<Marker>)
    requires forall i :: 0 <= i < |markers| ==> markers[i].done
    ensures PendingWork(s, markers) == 0
    decreases |markers|
  {
    if markers != [] {
      NoWork(s, markers[..|markers| - 1]);
    }
  }
}
