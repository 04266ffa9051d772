/** The rollback command as it runs: the checks, the deletes, the restores, and the
    batch's own bookkeeping (directory/services.py:1057-1163). */
module RollbackJob {
  import opened Prelude
  import opened Json
  import opened ListingStore
  import opened Imports
  import opened Rollback

  datatype BatchStatus = BatchPending | BatchProcessing | BatchCompleted | BatchFailed | BatchRolledBack

  class Batches {
    var rows: Rows
    var status: BatchStatus
    var touched: map<nat, Touch>
    var preImagesNulled: bool

    constructor (rows: Rows, status: BatchStatus, touched: map<nat, Touch>, nulled: bool)
      ensures this.rows == rows && this.status == status && this.touched == touched && preImagesNulled == nulled
    {
      this.rows, this.status, this.touched, preImagesNulled := rows, status, touched, nulled;
    }

    /** Some row the batch created is among `ids`. */
    method CreatedAmong(ids: set<nat>) returns (found: bool)
      ensures found == (MadeIds(touched) * ids != {})
    {
      var todo := touched.Keys;
      while todo != {}
        invariant todo <= touched.Keys
        invariant forall id :: id in touched && id !in todo ==> !(touched[id].Made? && id in ids)
      {
        var id :| id in todo;
        if touched[id].Made? && id in ids {
          assert id in MadeIds(touched) * ids;
          return true;
        }
        todo := todo - {id};
      }
      return false;
    }

    /** Restores the rows in order in a working copy; a failure discards it. */
    method RestoreRows(from: Rows, order: seq<nat>, known: Categories) returns (r: Result<Rows, Refusal>)
      ensures r == RestoreEach(from, touched, order, known)
    {
      var out := from;
      for i := 0 to |order|
        invariant RestoreEach(from, touched, order[..i], known) == Ok(out)
      {
        assert order[..i + 1][..i] == order[..i];
        var id := order[i];
        if id in touched && touched[id].Changed? && !touched[id].preImage.Null? {
          if id !in out {
            RestoreEachFails(from, touched, order, i + 1, known);
            return Err(RowMissing);
          }
          var row := new Row(out[id]);
          row.Restore(touched[id].preImage, known(out[id].kind));
          if TakenByOther(out, id, row.l) {
            RestoreEachFails(from, touched, order, i + 1, known);
            return Err(SlugConflict);
          }
          out := out[id := row.l];
        }
      }
      assert order[..|order|] == order;
      return Ok(out);
    }

    /** Refused commands write nothing; a rollback also nulls its pre-images, so it
        can never run twice. */
    method DoRollback(order: seq<nat>, known: Categories, claimed: set<nat>, withLeads: set<nat>) returns (refused: Option<Refusal>)
      modifies this
      ensures old(status) !in {BatchCompleted, BatchFailed} ==> refused == Some(NotRollbackable)
      ensures old(status) in {BatchCompleted, BatchFailed} && old(preImagesNulled) ==> refused == Some(PastWindow)
      ensures old(status) in {BatchCompleted, BatchFailed} && !old(preImagesNulled) ==>
        match RolledBack(old(rows), old(touched), order, known, claimed, withLeads)
        case Ok(after) => refused == None && rows == after
        case Err(e) => refused == Some(e)
      ensures refused == None ==> status == BatchRolledBack && preImagesNulled
      ensures refused == None ==> touched == map id | id in ChangedIds(old(touched)) :: Changed(Null)
      ensures refused != None ==>
        rows == old(rows) && status == old(status) && touched == old(touched) && preImagesNulled == old(preImagesNulled)
    {
      if status != BatchCompleted && status != BatchFailed { return Some(NotRollbackable); }
      if preImagesNulled { return Some(PastWindow); }
      var found := CreatedAmong(claimed);
      if found { return Some(CreatedListingClaimed); }
      found := CreatedAmong(withLeads);
      if found { return Some(CreatedListingHasLeads); }
      hide RestoreEach;
      var made := set id | id in touched && touched[id].Made?;
      var r := RestoreRows(rows - made, order, known);
      if r.Err? { return Some(r.error); }
      rows := r.value;
      touched := map id | id in ChangedIds(touched) :: Changed(Null);
      status, preImagesNulled := BatchRolledBack, true;
      return None;
    }
  }

  lemma {:induction false} RestoreEachFails(rows: Rows, touched: map<nat, Touch>, ids: seq<nat>, n: nat, known: Categories)
    requires n <= |ids| && RestoreEach(rows, touched, ids[..n], known).Err?
    ensures RestoreEach(rows, touched, ids, known) == RestoreEach(rows, touched, ids[..n], known)
    decreases |ids|
  {
    hide RestoreOne;
    if n < |ids| {
      var m := |ids| - 1;
      assert ids[..m][..n] == ids[..n];
      RestoreEachFails(rows, touched, ids[..m], n, known);
    } else {
      assert ids[..n] == ids;
    }
  }
}
