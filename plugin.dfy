/**
 * The log rotation plugin: after every page render it checks the schedule, records the
 * run in its parameters under the table lock, and only when that commit went through
 * rotates (or purges) the log folder.
 */
module LogRotation {
  import opened Paths
  import opened Settings
  import opened ExtensionStore
  import opened LogFolder

  /** How each database call of one invocation turns out. */
  datatype DbOutcomes = DbOutcomes(
    lockThrows: bool,            // `lockTable` throws
    execute: ExecOutcome,        // the UPDATE's result
    recoveryUnlockThrows: bool,  // the `unlockTables` in the catch of a failed UPDATE throws
    unlockThrows: bool           // the final `unlockTables` throws
  )

  /** How `onAfterRender` ends: it returns, or an exception escapes it. */
  datatype Exit = Returned | Raised

  /** The table row was rewritten with the new parameters. */
  predicate Writes(o: DbOutcomes)
    ensures Writes(o) ==> CleansCache(o) && !Escapes(o)
  {
    !o.lockThrows && o.execute == Returns(true)
  }

  /** The cache clean runs: the lock was taken and the UPDATE did not throw. */
  predicate CleansCache(o: DbOutcomes)
    ensures CleansCache(o) ==> !o.lockThrows && !Escapes(o)
  {
    !o.lockThrows && o.execute.Returns?
  }

  /** The unlock inside the catch of a failed UPDATE throws, and nothing catches it. */
  predicate Escapes(o: DbOutcomes)
    ensures Escapes(o) ==> LeavesLocked(o)
  {
    !o.lockThrows && o.execute.Throws? && o.recoveryUnlockThrows
  }

  /** The commit went through: the filesystem step is reached. */
  predicate Committed(o: DbOutcomes)
    ensures Committed(o) <==> Writes(o) && !o.unlockThrows
  {
    !o.lockThrows && o.execute == Returns(true) && !o.unlockThrows
  }

  /** The lock was taken and is still held when the commit step ends. */
  predicate LeavesLocked(o: DbOutcomes)
    ensures LeavesLocked(o) ==> !o.lockThrows
  {
    !o.lockThrows && (if o.execute.Throws? then o.recoveryUnlockThrows else o.unlockThrows)
  }

  /** The calls the commit step makes on the table, in order. */
  function CommitCalls(blob: Params, o: DbOutcomes): (r: seq<DbCall>)
    ensures |r| >= 1 && r[0] == LockCall
    ensures ExecuteCall(blob) in r <==> !o.lockThrows
    ensures forall k :: 0 <= k < |r| && r[k].ExecuteCall? ==> r[k].blob == blob
    ensures |r| == 4 <==> !o.lockThrows && o.execute.Throws? && !o.recoveryUnlockThrows
  {
    if o.lockThrows then [LockCall]
    else if Escapes(o) then [LockCall, ExecuteCall(blob), UnlockCall]
    else if o.execute.Throws? then [LockCall, ExecuteCall(blob), UnlockCall, UnlockCall]
    else [LockCall, ExecuteCall(blob), UnlockCall]
  }

  /** The cache groups of one group for each client, in client order. */
  function Row(group: string, clients: seq<int>): (r: seq<CacheTarget>)
    ensures |r| == |clients|
    ensures forall c :: 0 <= c < |clients| ==> r[c] == CacheTarget(group, clients[c])
  {
    if clients == [] then [] else Row(group, clients[..|clients| - 1]) + [CacheTarget(group, clients[|clients| - 1])]
  }

  /** Every (group, client) pair, groups outermost, as the nested loops visit them. */
  function CleanTargets(groups: seq<string>, clients: seq<int>): (r: seq<CacheTarget>)
    ensures clients == [] ==> r == []
    ensures groups != [] && clients != [] ==> |r| >= 1 && r[0] == CacheTarget(groups[0], clients[0])
  {
    if groups == [] then []
    else CleanTargets(groups[..|groups| - 1], clients) + Row(groups[|groups| - 1], clients)
  }

  /** The nested loops visit `|groups| * |clients|` pairs. */
  lemma {:induction false} CleanTargetsCount(groups: seq<string>, clients: seq<int>)
    ensures |CleanTargets(groups, clients)| == |groups| * |clients|
  {
    if groups != [] {
      var init := groups[..|groups| - 1];
      CleanTargetsCount(init, clients);
      assert |groups| * |clients| == |init| * |clients| + |clients|;
    }
  }

  /** The targets whose clean does not throw, in order. */
  function Succeeded(targets: seq<CacheTarget>, failing: set<CacheTarget>): (r: seq<CacheTarget>)
    ensures |r| <= |targets|
  {
    if targets == [] then []
    else
      var last := targets[|targets| - 1];
      Succeeded(targets[..|targets| - 1], failing) + (if last in failing then [] else [last])
  }

  /** The clean visits each group for each client, and nothing else. */
  lemma {:induction false} CleanTargetsMembers(groups: seq<string>, clients: seq<int>)
    ensures forall t :: t in CleanTargets(groups, clients) <==> t.group in groups && t.client in clients
  {
    if groups != [] {
      var init, g := groups[..|groups| - 1], groups[|groups| - 1];
      CleanTargetsMembers(init, clients);
      forall t: CacheTarget | t.group == g && t.client in clients ensures t in Row(g, clients) {
        var c :| 0 <= c < |clients| && clients[c] == t.client;
        assert Row(g, clients)[c] == t;
      }
      assert groups == init + [g];
    }
  }

  /** Exactly the targets whose clean does not throw are cleaned. */
  lemma {:induction false} SucceededMembers(targets: seq<CacheTarget>, failing: set<CacheTarget>)
    ensures forall t :: t in Succeeded(targets, failing) <==> t in targets && t !in failing
  {
    if targets != [] {
      SucceededMembers(targets[..|targets| - 1], failing);
      assert targets == targets[..|targets| - 1] + [targets[|targets| - 1]];
    }
  }

  lemma {:induction false} SucceededAppend(a: seq<CacheTarget>, b: seq<CacheTarget>, failing: set<CacheTarget>)
    ensures Succeeded(a + b, failing) == Succeeded(a, failing) + Succeeded(b, failing)
  {
    if b != [] {
      assert (a + b)[..|a + b| - 1] == a + b[..|b| - 1];
      SucceededAppend(a, b[..|b| - 1], failing);
    } else {
      assert a + b == a;
    }
  }

  /** One clean of the inner loop extends what the loop has cleaned so far. */
  lemma CleanStep(done: seq<CacheTarget>, prev: seq<CacheTarget>, after: seq<CacheTarget>,
                  group: string, clients: seq<int>, ci: nat, failing: set<CacheTarget>)
    requires ci < |clients|
    requires prev == done + Succeeded(Row(group, clients[..ci]), failing)
    requires after == prev + (if CacheTarget(group, clients[ci]) in failing then [] else [CacheTarget(group, clients[ci])])
    ensures after == done + Succeeded(Row(group, clients[..ci + 1]), failing)
  {
    var target := CacheTarget(group, clients[ci]);
    SucceededSingle(target, failing);
    RowSnoc(group, clients, ci);
    SucceededAppend(Row(group, clients[..ci]), [target], failing);
  }

  /** A finished inner loop extends what the outer loop has cleaned by one group. */
  lemma GroupStep(start: seq<CacheTarget>, done: seq<CacheTarget>, after: seq<CacheTarget>,
                  groups: seq<string>, clients: seq<int>, gi: nat, failing: set<CacheTarget>)
    requires gi < |groups|
    requires done == start + Succeeded(CleanTargets(groups[..gi], clients), failing)
    requires after == done + Succeeded(Row(groups[gi], clients[..|clients|]), failing)
    ensures after == start + Succeeded(CleanTargets(groups[..gi + 1], clients), failing)
  {
    assert clients[..|clients|] == clients;
    CleanTargetsSnoc(groups, clients, gi);
    SucceededExtend(start, done, after, CleanTargets(groups[..gi], clients), Row(groups[gi], clients), failing);
  }

  lemma SucceededExtend(start: seq<CacheTarget>, done: seq<CacheTarget>, after: seq<CacheTarget>,
                        a: seq<CacheTarget>, b: seq<CacheTarget>, failing: set<CacheTarget>)
    requires done == start + Succeeded(a, failing)
    requires after == done + Succeeded(b, failing)
    ensures after == start + Succeeded(a + b, failing)
  {
    SucceededAppend(a, b, failing);
  }

  lemma SucceededSingle(t: CacheTarget, failing: set<CacheTarget>)
    ensures Succeeded([t], failing) == if t in failing then [] else [t]
  {
  }

  lemma RowSnoc(group: string, clients: seq<int>, ci: nat)
    requires ci < |clients|
    ensures Row(group, clients[..ci + 1]) == Row(group, clients[..ci]) + [CacheTarget(group, clients[ci])]
    ensures ci + 1 == |clients| ==> Row(group, clients[..ci + 1]) == Row(group, clients)
  {
  }

  lemma CleanTargetsSnoc(groups: seq<string>, clients: seq<int>, gi: nat)
    requires gi < |groups|
    ensures CleanTargets(groups[..gi + 1], clients) == CleanTargets(groups[..gi], clients) + Row(groups[gi], clients)
  {
    assert groups[..gi + 1][..gi] == groups[..gi];
  }

  /**
   * Once a commit went through, it wrote the new parameters, every unlock it made
   * succeeded, the lock is released, and the table saw exactly lock, update, unlock.
   */
  lemma CommitBeforeFilesystem(blob: Params, o: DbOutcomes)
    requires Committed(o)
    ensures Writes(o) && CleansCache(o) && !LeavesLocked(o) && !Escapes(o)
    ensures CommitCalls(blob, o) == [LockCall, ExecuteCall(blob), UnlockCall]
  {
  }

  /** A lock that cannot be taken ends the commit at once: no write, no unlock, nothing held. */
  lemma LockFailureWritesNothing(blob: Params, o: DbOutcomes)
    requires o.lockThrows
    ensures !Writes(o) && !CleansCache(o) && !Committed(o) && !LeavesLocked(o)
    ensures CommitCalls(blob, o) == [LockCall]
  {
  }

  /**
   * A throwing UPDATE is followed by two unlocks (the one in its catch and the final one)
   * when the first succeeds, and never reaches the filesystem.
   */
  lemma ExecuteFailureUnlocksTwice(blob: Params, o: DbOutcomes)
    requires !o.lockThrows && o.execute.Throws? && !o.recoveryUnlockThrows
    ensures CommitCalls(blob, o) == [LockCall, ExecuteCall(blob), UnlockCall, UnlockCall]
    ensures !Committed(o) && !Writes(o) && !LeavesLocked(o)
  {
  }

  class Plugin {
    var params: Params

    constructor (params: Params)
      ensures this.params == params
    {
      this.params := params;
    }

    /**
     * Cleans each group for each client; a clean that throws is ignored and the loop
     * goes on with the next pair.
     */
    method ClearCacheGroups(cache: CacheStore, groups: seq<string>, clients: seq<int>, failing: set<CacheTarget>)
      modifies cache
      ensures cache.cleaned == old(cache.cleaned) + Succeeded(CleanTargets(groups, clients), failing)
    {
      for gi := 0 to |groups|
        invariant cache.cleaned == old(cache.cleaned) + Succeeded(CleanTargets(groups[..gi], clients), failing)
      {
        ghost var done := cache.cleaned;
        assert clients[..0] == [];
        for ci := 0 to |clients|
          invariant cache.cleaned == done + Succeeded(Row(groups[gi], clients[..ci]), failing)
        {
          var target := CacheTarget(groups[gi], clients[ci]);
          ghost var prev := cache.cleaned;
          var _ := cache.Clean(target, target in failing);
          CleanStep(done, prev, cache.cleaned, groups[gi], clients, ci, failing);
        }
        GroupStep(old(cache.cleaned), done, cache.cleaned, groups, clients, gi, failing);
      }
      assert groups[..|groups|] == groups;
    }

    /**
     * The maintenance hook.  `now` is the clock, `dir` the log folder, `o` and
     * `cacheFailing` the outcomes of the database and cache calls, and `listing` the
     * recursive listing of log files that purge mode deletes.
     */
    method OnAfterRender(now: int, db: Database, cache: CacheStore, dir: LogDirectory,
                         o: DbOutcomes, cacheFailing: set<CacheTarget>, listing: seq<Path>)
      returns (exit: Exit)
      requires dir.Valid() && CanonicalListing(listing)
      modifies this, db, cache, dir
      ensures dir.Valid() && dir.present == old(dir.present)
      // schedule gate: a render before the interval is up changes nothing
      ensures !Due(now, old(params)) ==>
        exit == Returned && params == old(params) && unchanged(db) && unchanged(cache) && unchanged(dir)
      // the run is recorded in the parameters even when the commit later aborts
      ensures Due(now, old(params)) ==> params == MarkRun(old(params), now)
      // commit step
      ensures Due(now, old(params)) ==> db.calls == old(db.calls) + CommitCalls(MarkRun(old(params), now), o)
      ensures db.stored == if Due(now, old(params)) && Writes(o) then MarkRun(old(params), now) else old(db.stored)
      ensures db.locked == if Due(now, old(params)) && !o.lockThrows then LeavesLocked(o) else old(db.locked)
      ensures cache.cleaned == old(cache.cleaned) +
        if Due(now, old(params)) && CleansCache(o)
        then Succeeded(CleanTargets(["com_plugins"], [0, 1]), cacheFailing) else []
      ensures exit == if Due(now, old(params)) && Escapes(o) then Raised else Returned
      // filesystem step: reached only after a commit that went through
      ensures !(Due(now, old(params)) && Committed(o)) ==> unchanged(dir)
      ensures Due(now, old(params)) && Committed(o) && PurgeEnabled(old(params)) ==>
        (!old(dir.present) ==> unchanged(dir)) &&
        dir.files == old(dir.files) - Listed(listing) &&
        dir.journal == old(dir.journal) + (if old(dir.present) then PurgeOps(old(dir.files), listing) else []) &&
        OnlyDeletes(dir.journal[|old(dir.journal)|..])
      ensures Due(now, old(params)) && Committed(o) && !PurgeEnabled(old(params)) ==>
        dir.files == RotatedAll(old(dir.files), CoreLogFiles, LogsToKeep(old(params))) &&
        dir.journal == old(dir.journal) + RotatedOps(old(dir.files), CoreLogFiles, LogsToKeep(old(params))) &&
        (LogsToKeep(old(params)) >= 1 ==> NoClobber(dir.journal[|old(dir.journal)|..]))
    {
      exit := Returned;
      var cacheTimeout := CacheTimeoutDays(params);
      cacheTimeout := SecondsPerDay * cacheTimeout;
      var logsToKeep := LogsToKeep(params);
      var purge := PurgeEnabled(params);
      var last := LastRun(params);
      if Abs(now - last) < cacheTimeout {
        return;
      }

      params := MarkRun(params, now);
      var blob := params;

      var locked := db.LockTable(o.lockThrows);
      if !locked {
        return;
      }

      var result, threw := db.Execute(blob, o.execute);
      if threw {
        var recoveryThrew := db.UnlockTables(o.recoveryUnlockThrows);
        if recoveryThrew {
          // thrown inside the catch block: it propagates out of the hook
          exit := Raised;
          return;
        }
        result := false;
      } else {
        ClearCacheGroups(cache, ["com_plugins"], [0, 1], cacheFailing);
      }

      var unlockThrew := db.UnlockTables(o.unlockThrows);
      if unlockThrew {
        result := false;
      }
      if !result {
        return;
      }

      if purge {
        dir.Purge(listing);
        return;
      }
      dir.Rotate(CoreLogFiles, logsToKeep);
    }
  }
}
