/**
 * The plugin's parameter registry and the schedule gate that decides, on every page
 * render, whether the rotation task is due.
 */
module Settings {
  import opened Wrappers

  /**
   * The plugin parameters as the registry holds them; an unset key reads as its default.
   * The whole record is what the task serialises back into the extensions table.
   */
  datatype Params = Params(
    cachetimeout: Option<int>,   // days between two runs
    logstokeep: Option<int>,     // numbered copies kept per log file
    purge: Option<bool>,         // delete all log files instead of rotating
    lastrun: Option<int>         // unix time of the last run
  )

  const DefaultCacheTimeout := 7
  const DefaultLogsToKeep := 5
  const SecondsPerDay := 24 * 3600

  /** Each setting reads as its stored value, or as its default when unset. */
  function CacheTimeoutDays(p: Params): (r: int)
    ensures r == if p.cachetimeout.Some? then p.cachetimeout.value else 7
  {
    p.cachetimeout.GetOr(DefaultCacheTimeout)
  }

  function LogsToKeep(p: Params): (r: int)
    ensures r == if p.logstokeep.Some? then p.logstokeep.value else 5
  {
    p.logstokeep.GetOr(DefaultLogsToKeep)
  }

  function PurgeEnabled(p: Params): (r: bool)
    ensures r <==> p.purge == Some(true)
  {
    p.purge.GetOr(false)
  }

  function LastRun(p: Params): (r: int)
    ensures r == if p.lastrun.Some? then p.lastrun.value else 0
  {
    p.lastrun.GetOr(0)
  }

  function Abs(x: int): (r: nat)
    ensures r == x || r == -x
  {
    if x < 0 then -x else x
  }

  /**
   * The gate: the task runs when at least `cachetimeout` days lie between now and the
   * last run, in either direction of the clock.
   */
  predicate Due(now: int, p: Params)
    ensures CacheTimeoutDays(p) <= 0 ==> Due(now, p)
    ensures Due(now, p) && CacheTimeoutDays(p) >= 1 ==> now <= LastRun(p) - SecondsPerDay || now >= LastRun(p) + SecondsPerDay
  {
    Abs(now - LastRun(p)) >= SecondsPerDay * CacheTimeoutDays(p)
  }

  /** The parameters after the task records a run at `now`; every other setting is kept. */
  function MarkRun(p: Params, now: int): (r: Params)
    ensures LastRun(r) == now && r.lastrun == Some(now)
    ensures CacheTimeoutDays(r) == CacheTimeoutDays(p)
    ensures LogsToKeep(r) == LogsToKeep(p)
    ensures PurgeEnabled(r) == PurgeEnabled(p)
    ensures r.cachetimeout == p.cachetimeout && r.logstokeep == p.logstokeep && r.purge == p.purge
  {
    p.(lastrun := Some(now))
  }

  /**
   * The gate reads the elapsed time both ways: after a clock rollback (`now` before
   * the last run) it decides exactly as it does for the same distance forward.
   */
  lemma DueBothDirections(now: int, p: Params)
    ensures now >= LastRun(p) ==> (Due(now, p) <==> now - LastRun(p) >= SecondsPerDay * CacheTimeoutDays(p))
    ensures now < LastRun(p) ==> (Due(now, p) <==> LastRun(p) - now >= SecondsPerDay * CacheTimeoutDays(p))
  {
  }

  /** With nothing configured the task runs once `now` is a week past the epoch (or before it). */
  lemma DefaultSchedule(now: int)
    ensures Due(now, Params(None, None, None, None)) <==> now >= 604800 || now <= -604800
  {
  }

  /** A non-positive interval makes every render run the task. */
  lemma NonPositiveIntervalAlwaysDue(now: int, p: Params)
    requires CacheTimeoutDays(p) <= 0
    ensures Due(now, p)
  {
  }

  /**
   * Once a run is recorded at `now`, the task is not due again for the whole interval on
   * either side of `now`, and it is due again from then on.
   */
  lemma RunClosesGate(p: Params, now: int, later: int)
    ensures Due(later, MarkRun(p, now)) <==> Abs(later - now) >= SecondsPerDay * CacheTimeoutDays(p)
  {
  }
}
