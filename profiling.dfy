/**
 * The profiling session (`Profiler` in albumentations/profiling.py): a
 * started flag, the head of the current call-record chain, the finished run
 * and the session start time, plus the table of wrapped class methods.
 *
 * Clock readings are parameters: `Start` and `Stop` receive the current time,
 * and a wrapped call receives the time its original function took.
 */
module Profiling {
  import opened Wrappers
  import opened CallRecords
  import opened Discovery

  /** `_PROFILER_RUN_NAME`: the name of the record that roots a finished run. */
  const PROFILER_RUN_NAME: string := "Profiling"

  /** The `RuntimeError`s of the session state machine. */
  datatype UsageError =
    | AlreadyStarted  // "Profiling already started."
    | RunNotEmpty     // "Current run data is not empty. Maybe you forget to call `stop`."
    | NotStarted      // "Profiler is not started. Call `start` first."

  /** What an original (unwrapped) method does: return `value` after `elapsed` time, or raise `error`. */
  datatype Outcome<+T, +E> = Returned(value: T, elapsed: int) | Raised(error: E)

  /** What a caller of the original method sees. */
  function Observed<T, E>(outcome: Outcome<T, E>): Result<T, E>
  {
    match outcome
    case Returned(v, _) => Ok(v)
    case Raised(e) => Err(e)
  }

  class Profiler {
    /** The class table the wrappers are installed in. */
    const registry: Registry
    /** `_original_functions`: the discovered methods, keyed `"<class full name>.<method name>"`. */
    const originalFunctions: map<string, Entry>
    /** `_current_run`: the newest record of the running session. */
    var currentRun: ProfilerData?
    /** `_last_run`: the root record of the last finished session. */
    var lastRun: ProfilerData?
    /** `_started` */
    var started: bool
    /** `_t_start`: the clock reading when the session started. */
    var tStart: int

    ghost predicate Valid()
      reads this, registry
    {
      && (currentRun != null ==> currentRun.Wf())
      && (lastRun != null ==> lastRun.Wf())
      && Keyed(originalFunctions, registry.attrs)
    }

    /**
     * `Profiler.__init__`: discover the methods to wrap, start in the stopped
     * state with no runs, and replace every discovered method by a timing
     * wrapper named by its key. Restoring the discovered functions later gives
     * back the table as it was.
     */
    constructor (registry: Registry, transforms: seq<TransformClass>)
      modifies registry
      ensures Valid()
      ensures this.registry == registry
      ensures originalFunctions == Discover(transforms, old(registry.attrs))
      ensures !started && currentRun == null && lastRun == null && tStart == 0
      ensures registry.attrs == Installed(old(registry.attrs), originalFunctions)
      ensures Restored(registry.attrs, originalFunctions) == old(registry.attrs)
    {
      this.registry := registry;
      var fns := GetFunctions(transforms, registry.attrs);
      ghost var attrs0 := registry.attrs;
      assert Keyed(fns, attrs0) by {
        DiscoverSound(transforms, attrs0);
      }
      originalFunctions := fns;
      currentRun, lastRun := null, null;
      started := false;
      tStart := 0;
      new;
      registry.Patch(fns, true);
      assert Restored(registry.attrs, fns) == attrs0 by {
        DiscoverSound(transforms, attrs0);
        RestoreUndoesInstall(attrs0, fns);
      }
    }

    /**
     * `Profiler.__del__`: put every discovered method's original function back
     * in its attribute.
     */
    method Teardown()
      requires Valid()
      modifies registry
      ensures Valid()
      ensures registry.attrs == Restored(old(registry.attrs), originalFunctions)
    {
      registry.Patch(originalFunctions, false);
    }

    /**
     * The wrapper `_profile_wrapper(key, func)` installs, called when the
     * original function behaves as `outcome`. Whatever the original returns or
     * raises reaches the caller unchanged. Only a call that returns while a
     * session is started prepends a record named `key`, holding the call's
     * duration, whose predecessor is the previous head.
     */
    method ProfiledCall<T, E>(key: string, outcome: Outcome<T, E>) returns (r: Result<T, E>)
      requires Valid()
      modifies this
      ensures Valid()
      ensures r == Observed(outcome)
      ensures !old(started) || outcome.Raised? ==> unchanged(this)
      ensures old(started) && outcome.Returned? ==>
        && fresh(currentRun)
        && currentRun.name == key && currentRun.dt == outcome.elapsed
        && currentRun.profileData == old(currentRun)
        && Length(currentRun) == Length(old(currentRun)) + 1
        && started && lastRun == old(lastRun) && tStart == old(tStart)
    {
      if !started {
        return Observed(outcome);
      }
      match outcome
      case Raised(e) =>
        r := Err(e);
      case Returned(v, dt) =>
        currentRun := new ProfilerData(key, dt, currentRun);
        r := Ok(v);
    }

    /**
     * `start`: refuse when already started, or when the previous session's
     * records were never taken by `stop`; otherwise mark the session started at
     * time `now`.
     */
    method Start(now: int) returns (r: Result<(), UsageError>)
      requires Valid()
      modifies this
      ensures Valid()
      ensures old(started) ==> r == Err(AlreadyStarted) && unchanged(this)
      ensures !old(started) && old(currentRun) != null ==> r == Err(RunNotEmpty) && unchanged(this)
      ensures !old(started) && old(currentRun) == null ==>
        r == Ok(()) && started && currentRun == null && tStart == now && lastRun == old(lastRun)
    {
      if started {
        return Err(AlreadyStarted);
      }
      if currentRun != null {
        return Err(RunNotEmpty);
      }
      started := true;
      tStart := now;
      r := Ok(());
    }

    /**
     * `stop`: refuse when not started; otherwise end the session at time
     * `now`, moving the current chain under a new root record named
     * "Profiling" that holds the session's duration.
     */
    method Stop(now: int) returns (r: Result<(), UsageError>)
      requires Valid()
      modifies this
      ensures Valid()
      ensures !old(started) ==> r == Err(NotStarted) && unchanged(this)
      ensures old(started) ==>
        && r == Ok(())
        && !started && currentRun == null && tStart == old(tStart)
        && fresh(lastRun)
        && lastRun.name == PROFILER_RUN_NAME && lastRun.dt == now - old(tStart)
        && lastRun.profileData == old(currentRun)
        && lastRun.chain == ChainFrom(old(currentRun))
        && lastRun.results.None?
    {
      if !started {
        return Err(NotStarted);
      }
      lastRun := currentRun;
      currentRun := null;
      started := false;
      lastRun := new ProfilerData(PROFILER_RUN_NAME, now - tStart, lastRun);
      r := Ok(());
    }

    /** `__enter__`: start the session and hand back the profiler itself. */
    method Enter(now: int) returns (r: Result<Profiler, UsageError>)
      requires Valid()
      modifies this
      ensures Valid()
      ensures old(started) ==> r == Err(AlreadyStarted) && unchanged(this)
      ensures !old(started) && old(currentRun) != null ==> r == Err(RunNotEmpty) && unchanged(this)
      ensures !old(started) && old(currentRun) == null ==>
        r == Ok(this) && started && currentRun == null && tStart == now && lastRun == old(lastRun)
    {
      var started := Start(now);
      if started.Err? {
        return Err(started.error);
      }
      r := Ok(this);
    }

    /** `__exit__`: stop the session, whatever exception (if any) ended the block. */
    method Exit(now: int) returns (r: Result<(), UsageError>)
      requires Valid()
      modifies this
      ensures Valid()
      ensures !old(started) ==> r == Err(NotStarted) && unchanged(this)
      ensures old(started) ==>
        && r == Ok(())
        && !started && currentRun == null && tStart == old(tStart)
        && fresh(lastRun)
        && lastRun.name == PROFILER_RUN_NAME && lastRun.dt == now - old(tStart)
        && lastRun.profileData == old(currentRun)
        && lastRun.chain == ChainFrom(old(currentRun))
        && lastRun.results.None?
    {
      r := Stop(now);
    }

    /** `get_profile_results`: the root record of the last finished session, if any. */
    method GetProfileResults() returns (r: ProfilerData?)
      requires Valid()
      ensures r == lastRun
      ensures r != null ==> r.Wf()
    {
      r := lastRun;
    }
  }
}
