# Log rotation plugin — a verified model

This project models the system plugin `logrotation`. After every page render, its
`onAfterRender` hook does four things:

1. **Schedule gate.** The task is due when the clock is at least `cachetimeout` days away
   from the stored `lastrun`, in either direction. The defaults are 7 days between runs,
   5 numbered copies kept, no purge and a last run at time 0.
2. **Commit.** It records `lastrun = now` in the plugin parameters and locks the
   extensions table. Under the lock it writes the new parameters into the plugin's row
   and cleans the plugin cache for the site and administrator clients. Then it unlocks.
   A failed lock, a failed or throwing write, or a throwing unlock aborts the task
   before the log folder is touched.
3. **Rotation.** For each of the eight core log files `f` that exists, it deletes
   `N.f` (N is `logstokeep`). It then renames `i.f` to `(i+1).f` for `i` from N down to
   1, and finally renames `f` to `1.f`.
4. **Purge.** In purge mode it instead deletes every listed log file that still exists,
   and renames nothing.

Modules:

- `Paths` (`paths.dfy`): the folder's paths as a datatype: `f`, `i.f` or another file.
  It also renders a path as the string the plugin builds. A path is canonical when it is
  a slot of one of the eight core names, or another file whose name no core slot
  renders to. Canonical paths that render to the same name are equal
  (`CanonicalPathsDistinct`, built on `CoreSlotsDistinct`). The folder is keyed by
  canonical paths only, so it holds each file under one key.
- `Settings` (`settings.dfy`): the parameters with their defaults, the gate `Due`, and
  `MarkRun`, which records a run.
- `LogFolder` (`logdir.dfy`): the log folder as a class. Its fields are `files`, a map
  from canonical path to content id, and `journal`, the deletes and renames made so far.
  `PassOps`, `RotatedOps` and `PurgeOps` give the journal each operation writes. The
  rotation and purge loops are methods of that class. Each method is proved against a
  reference definition. `AfterPass` gives, slot by slot, what a pass leaves in each
  path. `Pass` is that result as a map, and `RotatedAll` chains passes over the list of
  names. Lemmas about these definitions state the retention bound, the frame and what
  happens to the contents.
- `ExtensionStore` (`store.dfy`): the extensions table (lock, stored parameters, calls
  made) and the cache store. Each database or cache call succeeds or throws as the
  caller says.
- `LogRotation` (`plugin.dfy`): the plugin class, with `OnAfterRender` and
  `ClearCacheGroups`. Functions and predicates (`CommitCalls`, `Committed`, `Writes`,
  `Escapes`, `LeavesLocked`) describe the commit step as a small state machine.

Parameters stand for what the plugin gets from its environment:

- `now` is the clock (`time()`).
- The `LogDirectory` object is the folder at `log_path`.
- `listing` is the recursive listing of `.php` files that purge mode walks.
- A `DbOutcomes` value says how each database call turns out.
- `cacheFailing` says which cache cleans throw.

Behaviour of the code that the model keeps as written:

- With `N >= 1`, copies above `N` are never deleted. When `logstokeep` is lowered, the
  copies numbered above the new `N` stay in place for ever (`RotatedAllKeepsHighSlots`).
  With `N >= 1`, a run only preserves "no copy above `N`" when it already held
  (`RotatedAllBounded`). The same holds across runs separated by new log output
  (`RunsBounded`). With `N <= 0` the final rename replaces the old `1.f`
  (`PassClobbersIff`).
- A task that never ran (`lastrun = 0`) is due only once `now` is a full interval away
  from 0 (`DefaultSchedule`).
- The `unlockTables` inside the catch of a failed UPDATE (line 91) is not guarded. If it
  throws, the exception leaves the hook (`Exit.Raised`). In the model the lock is then
  still held, because a throwing unlock leaves the lock state as it was. If it succeeds, the table is unlocked a second time at line 98.
- The gate is not checked again after the lock is taken.

## Model

| member | source | states |
|---|---|---|
| Settings.Due | plugins/system/logrotation/logrotation.php:54 | an interval of zero days or less is always due; a positive interval is due only at least one day away from the last run |
| Settings.CacheTimeoutDays | plugins/system/logrotation/logrotation.php:44 | the interval reads as its stored value, or 7 days when unset |
| Settings.LogsToKeep | plugins/system/logrotation/logrotation.php:46 | the retention count reads as its stored value, or 5 when unset |
| Settings.PurgeEnabled | plugins/system/logrotation/logrotation.php:47 | purge mode is on iff it is stored as true; unset means off |
| Settings.LastRun | plugins/system/logrotation/logrotation.php:52 | the last run reads as its stored value, or 0 when unset |
| Settings.Abs | plugins/system/logrotation/logrotation.php:54 | the distance used by the gate is `x` or `-x` and never negative |
| Settings.DueBothDirections | plugins/system/logrotation/logrotation.php:44-57 | the gate measures the same way forwards and after a clock rollback: due iff the elapsed time in that direction reaches `86400 * cachetimeout` |
| Settings.DefaultSchedule | plugins/system/logrotation/logrotation.php:44-52 | with no settings (7 days, last run 0) the task is due iff `now` is at least a week from 0 |
| Settings.NonPositiveIntervalAlwaysDue | plugins/system/logrotation/logrotation.php:44-57 | an interval of zero days or less makes every render due |
| Settings.RunClosesGate | plugins/system/logrotation/logrotation.php:54-60 | after a run is recorded at `now`, a later render is due iff it is a full interval away from `now` |
| Settings.MarkRun | plugins/system/logrotation/logrotation.php:60 | recording a run sets `lastrun` to `now` and keeps the interval, the retention count and the purge flag |
| Paths.IntToString | plugins/system/logrotation/logrotation.php:160-176 | an integer is written as a non-empty string that starts with a digit, or with `-` when negative |
| Paths.Render | plugins/system/logrotation/logrotation.php:153-176 | the name of copy `i.f` ends with `.` followed by `f` |
| Paths.IntToStringInjective | plugins/system/logrotation/logrotation.php:160-176 | different integers are written as different strings in `$i . '.' . $file` |
| Paths.NumberedRenderInjective | plugins/system/logrotation/logrotation.php:160-176 | `i.f` and `j.g` are the same file name only when `i == j` and `f == g` |
| Paths.CoreNamesStartWithLetter | plugins/system/logrotation/logrotation.php:140-149 | every core log file name starts with a lower-case letter (so never with a digit or `-`) |
| Paths.CoreSlotsDistinct | plugins/system/logrotation/logrotation.php:140-176 | two slots of the core log files (`f` or `i.f`) that render to the same name are the same slot |
| Paths.CanonicalPathsDistinct | plugins/system/logrotation/logrotation.php:123-176 | two canonical paths (core slots, or other files whose name is no core slot's) that render to the same name are the same path |
| LogFolder.CanonicalKeysNameFilesOnce | plugins/system/logrotation/logrotation.php:123-176 | a folder keyed by canonical paths holds no file name under two keys |
| LogFolder.AfterPass | plugins/system/logrotation/logrotation.php:151-177 | after a pass every path holds contents the folder already had, and a path that was absent can only be filled in the chain of the rotated name |
| LogFolder.PassOrigins | plugins/system/logrotation/logrotation.php:151-177 | a pass invents no contents and creates no path outside the chain of the rotated name |
| LogFolder.RotatedAll | plugins/system/logrotation/logrotation.php:151-177 | a run invents no contents, and every path it creates is a numbered copy of one of the rotated names |
| LogFolder.RotatedAllKeepsCanonical | plugins/system/logrotation/logrotation.php:140-177 | a run over core log files keeps the folder keyed by canonical paths |
| LogFolder.ShiftOps | plugins/system/logrotation/logrotation.php:166-173 | reference journal of the descending loop, whose flags are `false` by construction; that the loop's real renames match it, and so replace nothing, is proved by `LogDirectory.RotateFile` |
| LogFolder.ShiftOpsShape | plugins/system/logrotation/logrotation.php:166-173 | the descending loop only renames existing copies `i.f` in its range, each to `(i+1).f` |
| LogFolder.PassOps | plugins/system/logrotation/logrotation.php:159-176 | reference journal of a pass: it replaces no file when `N >= 1`, by construction. `LogDirectory.RotateFile` proves the pass journals exactly this, with `Move` recording whether its target existed |
| LogFolder.PassOpsInChain | plugins/system/logrotation/logrotation.php:159-176 | every delete and rename a pass journals is on `f` or a numbered copy of `f` |
| LogFolder.PassClobbersIff | plugins/system/logrotation/logrotation.php:159-176 | a pass replaces a file iff `N <= 0`, `f` exists and `1.f` exists (the final rename lands on `1.f`) |
| LogFolder.RotatedOps | plugins/system/logrotation/logrotation.php:151-177 | reference journal of a run, the passes' journals in order; it replaces no file when `N >= 1`. `LogDirectory.Rotate` proves a run journals exactly this |
| LogFolder.PurgeOps | plugins/system/logrotation/logrotation.php:125-134 | the journal of purge mode holds deletes only |
| LogFolder.PurgeOpsDeletes | plugins/system/logrotation/logrotation.php:125-134 | purge mode deletes a path iff it is listed and in the folder |
| LogFolder.Pass | plugins/system/logrotation/logrotation.php:153-176 | the folder after one pass holds, at every path, exactly what the slot-by-slot reference `AfterPass` gives |
| LogFolder.PassWithoutBase | plugins/system/logrotation/logrotation.php:153-157 | a pass for a log file that does not exist changes nothing, even when numbered copies exist |
| LogFolder.PassShiftsChain | plugins/system/logrotation/logrotation.php:159-176 | with `N >= 1` and `f` present: new `1.f` = old `f`, new `(i+1).f` = old `i.f` (present or absent) for `1 <= i < N`, and `f` is gone |
| LogFolder.PassFrame | plugins/system/logrotation/logrotation.php:151-177 | with `N >= 1` a pass for `f` leaves every path of another name, and every copy of `f` numbered above `N` or below 1, as it was |
| LogFolder.PassDropsOnlyOldest | plugins/system/logrotation/logrotation.php:160-176 | with one path per content: a pass loses exactly the old `N.f`'s contents, keeps all others and still holds each content at one path |
| LogFolder.RotatedAllBounded | plugins/system/logrotation/logrotation.php:151-177 | with `N >= 1`: if no copy above `N` exists before a run over any list of names, none exists after it |
| LogFolder.RotatedAllKeepsHighSlots | plugins/system/logrotation/logrotation.php:151-177 | with `N >= 1` a run never creates, changes or deletes a copy numbered above `N` |
| LogFolder.RunsBounded | plugins/system/logrotation/logrotation.php:151-177 | with `N >= 1` and no copy above `N` at the start: across any number of runs, each preceded by new log files written under their own names, no copy above `N` ever appears |
| LogFolder.ExampleTwoRuns | plugins/system/logrotation/logrotation.php:159-176 | a run, a new `f` written, a second run: the first `f` ends at `2.f`, the new one at `1.f` |
| LogFolder.RotatedAllClearsBases | plugins/system/logrotation/logrotation.php:151-177 | after a run none of the rotated log files remains under its own name, for every `N` |
| LogFolder.RotatedAllFrame | plugins/system/logrotation/logrotation.php:151-177 | a run leaves every file outside the rotated names' chains as it was |
| LogFolder.ExampleTwoCopies | plugins/system/logrotation/logrotation.php:159-176 | `{f, 1.f, 2.f}` with two copies kept becomes `{1.f = old f, 2.f = old 1.f}` |
| LogFolder.LogDirectory.Exists | plugins/system/logrotation/logrotation.php:153 | a file query answers whether the path is in the folder |
| LogFolder.LogDirectory.Delete | plugins/system/logrotation/logrotation.php:160-164 | deleting an existing file removes exactly that path and journals the delete |
| LogFolder.LogDirectory.Move | plugins/system/logrotation/logrotation.php:168-176 | a rename moves the contents of `src` to `dst`, replacing what `dst` held, and journals whether it replaced a file |
| LogFolder.LogDirectory.RotateFile | plugins/system/logrotation/logrotation.php:153-176 | the delete / descending shift / final rename leaves the folder equal to `Pass` and journals exactly `PassOps`; with `N >= 1` no rename lands on an existing file |
| LogFolder.LogDirectory.Rotate | plugins/system/logrotation/logrotation.php:151-177 | passes over the core names in order leave the folder equal to `RotatedAll` and journal exactly `RotatedOps`; with `N >= 1` no rename replaces a file |
| LogFolder.LogDirectory.Purge | plugins/system/logrotation/logrotation.php:116-137 | an absent folder is left unchanged; otherwise every listed file that exists is deleted, missing ones are skipped, and the journal is exactly `PurgeOps` |
| ExtensionStore.Database.LockTable | plugins/system/logrotation/logrotation.php:70-79 | a lock that throws changes nothing; one that succeeds holds the lock |
| ExtensionStore.Database.Execute | plugins/system/logrotation/logrotation.php:81-87 | the UPDATE stores the given parameters in the plugin's row iff it returns a truthy result |
| ExtensionStore.Database.UnlockTables | plugins/system/logrotation/logrotation.php:88-104 | an unlock that succeeds releases the lock; one that throws leaves it as it was |
| ExtensionStore.CacheStore.Clean | plugins/system/logrotation/logrotation.php:206-207 | one cache clean that does not throw records its target; one that throws has no effect |
| LogRotation.Writes | plugins/system/logrotation/logrotation.php:70-110 | the row is written only under the lock, by an UPDATE that returned, so the cache clean follows and nothing escapes |
| LogRotation.CleansCache | plugins/system/logrotation/logrotation.php:70-110 | the cache is cleaned only after the lock was taken, and never on the path where an exception escapes |
| LogRotation.Escapes | plugins/system/logrotation/logrotation.php:88-93 | an exception escaping from the catch block leaves the table locked |
| LogRotation.Committed | plugins/system/logrotation/logrotation.php:70-110 | the filesystem step is reached iff the row was written and the final unlock did not throw |
| LogRotation.LeavesLocked | plugins/system/logrotation/logrotation.php:70-104 | the table can only stay locked when the lock was taken |
| LogRotation.CommitCalls | plugins/system/logrotation/logrotation.php:70-110 | the commit first locks; the UPDATE is made, with the new parameters, iff the lock succeeded; four calls are made exactly when the UPDATE throws and the unlock in its catch succeeds |
| LogRotation.CleanTargets | plugins/system/logrotation/logrotation.php:194-197 | no clients means no cleans; otherwise the first clean is the first group for the first client |
| LogRotation.CleanTargetsCount | plugins/system/logrotation/logrotation.php:194-197 | the nested loops visit `\|groups\| * \|clients\|` (group, client) pairs |
| LogRotation.CleanTargetsMembers | plugins/system/logrotation/logrotation.php:194-197 | the pairs visited are exactly the groups crossed with the clients |
| LogRotation.Succeeded | plugins/system/logrotation/logrotation.php:198-212 | the cleans that take effect are at most the ones attempted |
| LogRotation.SucceededMembers | plugins/system/logrotation/logrotation.php:198-212 | exactly the attempted cleans that do not throw take effect |
| LogRotation.Plugin.ClearCacheGroups | plugins/system/logrotation/logrotation.php:190-215 | every group is cleaned for every client in loop order; a throwing clean is swallowed and the loops go on |
| LogRotation.CommitBeforeFilesystem | plugins/system/logrotation/logrotation.php:70-110 | a commit that reaches the filesystem wrote the new parameters, cleaned the cache, released the lock, and made exactly the calls lock, update, unlock |
| LogRotation.LockFailureWritesNothing | plugins/system/logrotation/logrotation.php:70-79 | a failed lock means no write, no cache clean, no unlock and no filesystem step |
| LogRotation.ExecuteFailureUnlocksTwice | plugins/system/logrotation/logrotation.php:81-110 | a throwing UPDATE whose recovery unlock succeeds gives the calls lock, update, unlock, unlock, with no write and no filesystem step |
| LogRotation.Plugin.OnAfterRender | plugins/system/logrotation/logrotation.php:39-178 | not due: nothing changes. Due: `lastrun := now` even on abort, with the table calls, stored row, lock state, cache cleans and exit as the commit outcomes dictate. The folder changes only after a commit that went through: by `Purge` (journal `PurgeOps`; an absent folder is untouched), or by `RotatedAll` over the eight names with journal `RotatedOps`, which replaces no file for `N >= 1` |

## Left out

- Concurrency: two processes racing between the gate and the lock are not modelled. A
  failed lock is only an input.
- The SQL of the UPDATE (table name, `WHERE` on type, folder and element) and the JSON
  serialisation of the parameters: the stored value is the `Params` record itself.
- `JFolder::files` (a recursive, regex-filtered listing with default exclusions): the
  listing is a parameter of `OnAfterRender`.
- `JFactory::getConfig` and `JCache::getInstance` with their cache-path choice
  (lines 192-206): only the clean of each (group, client) pair and whether it throws
  are modelled.
- `time()` and `JFactory::getApplication()->get('log_path')` are parameters (`now`, the
  `LogDirectory` object).
- LogFolder.LogDirectory.Delete, LogFolder.LogDirectory.Move: filesystem calls always
  succeed; a delete or rename that fails and returns false is not modelled.
- LogFolder.LogDirectory.Move: a rename onto an existing file replaces it (POSIX rename).
  The code does not show what the framework does here. Only `N <= 0` reaches the
  case, and the journal records it.
- Settings.Due: the `(int)` casts and PHP truthiness of registry values are not modelled;
  settings are already integers and a boolean. PHP integer overflow of
  `24 * 3600 * cachetimeout` is not modelled.
- ExtensionStore.Database.UnlockTables: an unlock that throws is taken to leave the lock
  as it was. What the database driver does to the lock then is not visible here.
- ExtensionStore.Database.Execute: a falsy result means the row was not written. The
  drivers' real meaning of a falsy result is not visible here.
- Paths are canonical. Folder keys (`LogDirectory.Valid`) and the purge listing
  (`CanonicalListing`) use the one `Path` value that names each file. Turning a file
  name string into its `Path` is not modelled.
- The page render that triggers the hook and the plugin's language autoloading.
