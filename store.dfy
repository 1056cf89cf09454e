/**
 * The collaborators of the task's commit step, reduced to what the task observes of
 * them: the extensions table (its lock, the parameters stored in the plugin's row, and
 * the calls made on it) and the page-cache store.  Whether each call throws or fails is
 * a caller-supplied outcome.
 */
module ExtensionStore {
  import opened Settings

  /** One call made on the extensions table. */
  datatype DbCall = LockCall | ExecuteCall(blob: Params) | UnlockCall

  /** What the UPDATE's `execute` does: return a truthy or falsy result, or throw. */
  datatype ExecOutcome = Returns(truthy: bool) | Throws

  /** A cache group of one client (0 = site, 1 = administrator). */
  datatype CacheTarget = CacheTarget(group: string, client: int)

  class Database {
    var locked: bool      // the table lock is held
    var stored: Params    // the parameters persisted in the plugin's row
    var calls: seq<DbCall>

    constructor (stored: Params)
      ensures !locked && this.stored == stored && calls == []
    {
      locked := false;
      this.stored := stored;
      calls := [];
    }

    /** Locks the table; when the lock cannot be taken it throws and nothing changes. */
    method LockTable(throws: bool) returns (ok: bool)
      modifies this
      ensures ok == !throws
      ensures locked == (if throws then old(locked) else true)
      ensures stored == old(stored)
      ensures calls == old(calls) + [LockCall]
    {
      ok := !throws;
      if !throws {
        locked := true;
      }
      calls := calls + [LockCall];
    }

    /** Runs the UPDATE writing `blob` into the plugin's row; only a truthy result wrote it. */
    method Execute(blob: Params, outcome: ExecOutcome) returns (result: bool, threw: bool)
      modifies this
      ensures threw == outcome.Throws?
      ensures result == (outcome == Returns(true))
      ensures stored == (if result then blob else old(stored))
      ensures locked == old(locked)
      ensures calls == old(calls) + [ExecuteCall(blob)]
    {
      threw := outcome.Throws?;
      result := outcome == Returns(true);
      if result {
        stored := blob;
      }
      calls := calls + [ExecuteCall(blob)];
    }

    /** Releases the table lock; when it throws the lock state is left as it was. */
    method UnlockTables(throws: bool) returns (threw: bool)
      modifies this
      ensures threw == throws
      ensures locked == (if throws then old(locked) else false)
      ensures stored == old(stored)
      ensures calls == old(calls) + [UnlockCall]
    {
      threw := throws;
      if !throws {
        locked := false;
      }
      calls := calls + [UnlockCall];
    }
  }

  class CacheStore {
    var cleaned: seq<CacheTarget>  // the cache groups cleaned, in order

    constructor ()
      ensures cleaned == []
    {
      cleaned := [];
    }

    /** Cleans one cache group; a clean that throws has no effect. */
    method Clean(t: CacheTarget, throws: bool) returns (threw: bool)
      modifies this
      ensures threw == throws
      ensures cleaned == old(cleaned) + (if throws then [] else [t])
    {
      threw := throws;
      if !throws {
        cleaned := cleaned + [t];
      }
    }
  }
}
