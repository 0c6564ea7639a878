/** Why each statement of the erasure is accepted: what is already gone when it runs, what it takes
    with it, and why the order of the tables leaves nothing for a later cascade to remove. */
module ErasureSteps {
  import opened Wrappers
  import opened Schema
  import opened ErasureSpec

  /** Tables whose rows go only by cascade, with the row that holds them. */
  predicate CascadedOnly(t: Table) {
    t.LineItems? || t.ProposalOtps? || t.Attachments?
  }

  /** The erasure so far: `gone` holds only doomed rows, all of those of the tables in `cleared`, and
      with every row also its cascade children. */
  ghost predicate Progress(db: Database, client: Id, gone: set<Key>, cleared: set<Table>) {
    && gone <= DoomedRows(db, client)
    && (forall k | k in gone :: k.table in cleared || CascadedOnly(k.table))
    && (forall t | t in cleared :: DoomedIn(db, client, t) <= gone)
    && (forall k, c | k in db && c in db[k].refs && Cascades(k.table, c) && Names(k, db[k], c, gone) ::
          k in gone)
  }

  /** Table `t` may be emptied once every table owned through it has been. */
  ghost predicate Ready(t: Table, cleared: set<Table>) {
    && t !in {Uploads, ContractSignatures}
    && t !in cleared && !CascadedOnly(t)
    && forall child: Table, c: Column ::
         ForeignKeyOf(child, c).Some? && ForeignKeyOf(child, c).value.parent == t && Owning(child, c) ==>
           child in cleared || CascadedOnly(child)
  }

  ghost predicate NoDoomedSignatures(db: Database, client: Id) {
    DoomedIn(db, client, ContractSignatures) == {}
  }

  lemma NothingNamesCascadedOnly(t: Table, c: Column)
    ensures ForeignKeyOf(t, c).Some? ==> !CascadedOnly(ForeignKeyOf(t, c).value.parent)
  {
  }

  lemma CascadesAreOwning(t: Table, c: Column)
    requires Cascades(t, c) && !ForeignKeyOf(t, c).value.parent.Uploads?
    ensures Owning(t, c)
  {
  }

  /** A row still there, owned through a row of the table being emptied, is a cascaded-only one. */
  lemma OwnedChildIsCascadedOnly(
    db: Database, client: Id, gone: set<Key>, cleared: set<Table>, t: Table, k: Key, c: Column)
    requires ReferencesHold(db) && Progress(db, client, gone, cleared) && Ready(t, cleared)
    requires k in db && k !in gone && c in db[k].refs && Owning(k.table, c)
    requires Names(k, db[k], c, DoomedRows(db, client)) && Target(k, db[k], c).value.table == t
    ensures Doomed(db, client, k) && CascadedOnly(k.table)
  {
    OwnedByDoomed(db, client, k, c);
    assert k in DoomedIn(db, client, k.table);
  }

  /** What one statement deletes: its own rows, and attachments, line items and codes hanging off
      them. */
  lemma {:induction false} ClosureStaysInTable(
    db: Database, client: Id, gone: set<Key>, cleared: set<Table>, t: Table, k: Key)
    requires ReferencesHold(db) && Progress(db, client, gone, cleared) && Ready(t, cleared)
    requires k in CascadeClosure(Without(db, gone), DoomedIn(db, client, t))
    ensures k in db && k !in gone && Doomed(db, client, k)
    ensures k.table == t || CascadedOnly(k.table)
    decreases Rank(k.table)
  {
    var before := Without(db, gone);
    var start := DoomedIn(db, client, t);
    if k !in start {
      var c := CascadeParent(before, start, k);
      var parent := Target(k, before[k], c).value;
      ClosureStaysInTable(db, client, gone, cleared, t, parent);
      NothingNamesCascadedOnly(k.table, c);
      CascadesAreOwning(k.table, c);
      assert Target(k, db[k], c) == Some(parent);
      OwnedChildIsCascadedOnly(db, client, gone, cleared, t, k, c);
    }
  }

  lemma SetNullColumns(t: Table, c: Column)
    requires ForeignKeyOf(t, c).Some? && !Cascades(t, c)
    ensures Owning(t, c) ==> !CascadedOnly(t)
    ensures t.ContractSignatures? ==> ForeignKeyOf(t, c).value.parent.Uploads?
  {
  }

  lemma ScrubKeepsTargets(k: Key, row: Row, gone: set<Key>, c: Column)
    requires c in Scrub(k, row, gone).refs
    ensures c in row.refs && Target(k, row, c) == Target(k, Scrub(k, row, gone), c)
  {
  }

  /** A reference a statement sets to NULL is never a client or project column. */
  lemma NulledColumnsAreSoft(
    db: Database, client: Id, gone: set<Key>, cleared: set<Table>, t: Table, k: Key, c: Column)
    requires ReferencesHold(db) && Progress(db, client, gone, cleared) && Ready(t, cleared)
    requires k in Without(db, gone)
    requires
      c in NulledColumns(k, Without(db, gone)[k],
                         CascadeClosure(Without(db, gone), DoomedIn(db, client, t)))
    ensures !Owning(k.table, c) && !k.table.ContractSignatures?
  {
    var before := Without(db, gone);
    var parent := Target(k, before[k], c).value;
    ScrubKeepsTargets(k, db[k], gone, c);
    ClosureStaysInTable(db, client, gone, cleared, t, parent);
    NothingNamesCascadedOnly(k.table, c);
    SetNullColumns(k.table, c);
    if Owning(k.table, c) {
      OwnedChildIsCascadedOnly(db, client, gone, cleared, t, k, c);
    }
  }

  lemma SoftColumnsAreUnchecked(t: Table, row: Row, columns: set<Column>)
    requires RowOk(t, row)
    requires forall c | c in columns :: ForeignKeyOf(t, c).Some? && !Cascades(t, c) && !Owning(t, c)
    ensures RowOk(t, Drop(row, columns))
  {
  }

  /** One statement of the erasure: accepted, and the closed form moves on by exactly its rows. */
  lemma StatementAccepted(
    db: Database, client: Id, gone: set<Key>, cleared: set<Table>, t: Table)
    returns (closure: set<Key>)
    requires Valid(db) && Valid(Without(db, gone)) && NoDoomedSignatures(db, client)
    requires Progress(db, client, gone, cleared) && Ready(t, cleared)
    ensures
      Delete(Without(db, gone), DoomedIn(db, client, t)) == Applied(Without(db, gone + closure))
    ensures Progress(db, client, gone + closure, cleared + {t})
    ensures Valid(Without(db, gone + closure))
  {
    var before := Without(db, gone);
    var start := DoomedIn(db, client, t);
    closure := CascadeClosure(before, start);
    forall k | k in closure ensures k in DoomedRows(db, client) && !k.table.ContractSignatures? {
      ClosureStaysInTable(db, client, gone, cleared, t, k);
      assert k in DoomedIn(db, client, k.table);
    }
    forall k | k in before ensures !NullingRejected(k, before[k], closure) {
      forall c | c in NulledColumns(k, before[k], closure)
        ensures !Owning(k.table, c) && !k.table.ContractSignatures?
      {
        NulledColumnsAreSoft(db, client, gone, cleared, t, k, c);
      }
      forall columns: set<Column> | columns <= NulledColumns(k, before[k], closure)
        ensures RowOk(k.table, Drop(before[k], columns))
      {
        SoftColumnsAreUnchecked(k.table, before[k], columns);
      }
    }
    WithoutTwice(db, gone, closure);
    DeletePreservesValid(before, start);
    ProgressMade(db, client, gone, cleared, t);
  }

  lemma ProgressMade(db: Database, client: Id, gone: set<Key>, cleared: set<Table>, t: Table)
    requires Valid(db) && Progress(db, client, gone, cleared) && Ready(t, cleared)
    ensures
      Progress(db, client, gone + CascadeClosure(Without(db, gone), DoomedIn(db, client, t)),
               cleared + {t})
  {
    var before := Without(db, gone);
    var start := DoomedIn(db, client, t);
    var closure := CascadeClosure(before, start);
    forall k | k in closure ensures k in DoomedRows(db, client) && (k.table == t || CascadedOnly(k.table)) {
      ClosureStaysInTable(db, client, gone, cleared, t, k);
    }
    ClosureContainsStart(before, start);
    forall k, c | k in db && c in db[k].refs && Cascades(k.table, c) && Names(k, db[k], c, gone + closure)
      ensures k in gone + closure
    {
      if k !in gone {
        assert Target(k, before[k], c) == Target(k, db[k], c);
        ClosureIsClosed(before, start, k, c);
      }
    }
  }

  /** The tables a client's erasure empties statement by statement. */
  ghost predicate AllCleared(cleared: set<Table>) {
    forall t: Table ::
      t in cleared || CascadedOnly(t) || t in {Uploads, Templates, Users, Settings, Leads}
  }

  lemma OwningCascades(t: Table, c: Column)
    requires ForeignKeyOf(t, c).Some? && Owning(t, c)
    requires CascadedOnly(t) || t in {Uploads, Templates, Users, Settings, Leads}
    ensures Cascades(t, c)
  {
  }

  /** Once every table is cleared, exactly the doomed rows are gone: the children followed their
      parents. */
  lemma {:induction false} ChildrenFollowed(
    db: Database, client: Id, gone: set<Key>, cleared: set<Table>, k: Key)
    requires Progress(db, client, gone, cleared) && AllCleared(cleared)
    requires k in DoomedRows(db, client)
    ensures k in gone
    decreases Rank(k.table)
  {
    if k.table in cleared {
      assert k in DoomedIn(db, client, k.table);
    } else {
      var c := OwningParent(db, client, k);
      ChildrenFollowed(db, client, gone, cleared, Target(k, db[k], c).value);
      OwningCascades(k.table, c);
    }
  }

  lemma ErasureComplete(db: Database, client: Id, gone: set<Key>, cleared: set<Table>)
    requires Valid(db) && Progress(db, client, gone, cleared) && AllCleared(cleared)
    ensures gone == DoomedRows(db, client)
  {
    forall k | k in DoomedRows(db, client) ensures k in gone {
      ChildrenFollowed(db, client, gone, cleared, k);
    }
  }

  /** No cascade took a row of a table before that table's own statement ran, so the rows the
      statement counts are the rows the table lost. */
  lemma StatementFindsAllRows(
    db: Database, client: Id, gone: set<Key>, cleared: set<Table>, t: Table)
    requires Progress(db, client, gone, cleared) && t !in cleared && !CascadedOnly(t)
    ensures DoomedIn(db, client, t) <= Without(db, gone).Keys
  {
  }

  lemma ReleasedUnnamed(before: Database, after: Database, k: Key, c: Column)
    requires k in after
    ensures !Names(k, after[k], c, ReleasedUploads(before, after))
  {
    UploadColumnOnly(k.table, c);
    if UploadId in after[k].refs {
      assert after[k].refs[UploadId] in UploadReferences(after);
    }
  }

  /** Rows nothing names are deleted alone. */
  lemma {:induction false} UnnamedRowsDeletedAlone(db: Database, start: set<Key>, k: Key)
    requires k in db && CascadeHit(db, start, k)
    requires forall child, c | child in db :: !Names(child, db[child], c, start)
    ensures k in start
    decreases Rank(k.table)
  {
    if k !in start {
      var c := CascadeParent(db, start, k);
      assert !Names(k, db[k], c, start);
      UnnamedRowsDeletedAlone(db, start, Target(k, db[k], c).value);
    }
  }

  lemma UnnamedClosure(db: Database, start: set<Key>)
    requires start <= db.Keys
    requires forall child, c | child in db :: !Names(child, db[child], c, start)
    ensures CascadeClosure(db, start) == start
  {
    forall k | k in db && CascadeHit(db, start, k) ensures k in start {
      UnnamedRowsDeletedAlone(db, start, k);
    }
  }

  lemma UnnamedDeleteAccepted(db: Database, start: set<Key>)
    requires ChecksHold(db) && start <= db.Keys
    requires forall k | k in start :: !k.table.ContractSignatures?
    requires forall child, c | child in db :: !Names(child, db[child], c, start)
    ensures Delete(db, start) == Applied(Without(db, start))
  {
    UnnamedClosure(db, start);
    forall k | k in db ensures !NullingRejected(k, db[k], start) {
      assert NulledColumns(k, db[k], start) == {};
      assert Drop(db[k], {}) == db[k];
    }
  }

  /** Deleting uploads no row names any more takes nothing else along. */
  lemma ReleaseAccepted(before: Database, after: Database)
    requires ChecksHold(after)
    ensures
      Delete(after, ReleasedUploads(before, after)) ==
      Applied(Without(after, ReleasedUploads(before, after)))
  {
    forall child, c | child in after
      ensures !Names(child, after[child], c, ReleasedUploads(before, after))
    {
      ReleasedUnnamed(before, after, child, c);
    }
    UnnamedDeleteAccepted(after, ReleasedUploads(before, after));
  }
}
