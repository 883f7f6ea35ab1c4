/**
 * UnitOfWork: the change tracker, the database behind it, and the one transaction
 * it may hold open (_transaction).
 */
module Persistence {
  import opened Wrappers
  import opened Domain

  class UnitOfWork {
    /** What the database holds, including writes of the open transaction not yet committed. */
    var database: Store
    /** The change tracker's view: the database plus the changes not yet saved. */
    var context: Store
    /** The open transaction, with the database as it stood when the transaction began. */
    var transaction: Option<Store>

    constructor (db: Store)
      ensures database == db && context == db && transaction == None
    {
      database := db;
      context := db;
      transaction := None;
    }

    /** What other connections see: the database without the open transaction's writes. */
    function Committed(): Store
      reads this
    {
      if transaction.Some? then transaction.value else database
    }

    /** Between requests: no transaction open and nothing left unsaved. */
    predicate Idle()
      reads this
    {
      transaction.None? && context == database
    }

    /** SaveChangesAsync: writes the pending changes and leaves any transaction open. */
    method SaveChanges()
      modifies this
      ensures database == old(context) && context == old(context)
      ensures transaction == old(transaction)
      ensures transaction.Some? ==> Committed() == old(Committed())
    {
      database := context;
    }

    /** BeginTransactionAsync: nothing is written yet; the current database is what a rollback returns to. */
    method BeginTransaction()
      requires transaction.None?
      modifies this
      ensures transaction == Some(old(database))
      ensures database == old(database) && context == old(context)
      ensures Committed() == old(Committed())
    {
      transaction := Some(database);
    }

    /**
     * CommitTransactionAsync: saves, then commits the open transaction if there is one.
     * storageFails stands for an exception from either step; the catch then rolls back.
     * Either way no transaction is left open.
     */
    method CommitTransaction(storageFails: bool) returns (ok: bool)
      modifies this
      ensures ok == !storageFails
      ensures transaction.None?
      ensures ok ==> database == old(context) && context == old(context)
      ensures !ok ==> database == old(Committed())
      ensures !ok && old(transaction).Some? ==> context == database
      ensures !ok && old(transaction).None? ==> context == old(context)
    {
      if storageFails {
        RollbackTransaction();
        ok := false;
      } else {
        database := context;
        ok := true;
      }
      transaction := None;
    }

    /**
     * RollbackTransactionAsync: with a transaction open, the database returns to where it
     * stood at begin and the pending changes are dropped; with none open it does nothing.
     */
    method RollbackTransaction()
      modifies this
      ensures transaction.None?
      ensures old(transaction).None? ==> database == old(database) && context == old(context)
      ensures old(transaction).Some? ==> database == old(transaction.value) && context == database
      ensures database == old(Committed())
    {
      if transaction.Some? {
        database := transaction.value;
        context := database;
        transaction := None;
      }
    }
  }
}
