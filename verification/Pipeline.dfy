/**
 cmd/agent/main.go: the pipeline closure, undisturbed, in its own order: Run, then the
 self-monitor and the counters, then the recommendations, which already see the new rows.
 internal/scheduler/scheduler.go: RunNow around it.
 */
module Pipeline {
  import opened Sums
  import opened LogFiles
  import opened Policies
  import opened Docker
  import opened Tables
  import opened Cleanup
  import opened Cleaner
  import opened Recommendation
  import Agent
  import Metrics
  import Storage
  import opened RunLaws

  /** How a call of the pipeline ends for its caller. */
  datatype PipelineEnd = Succeeded(recs: seq<Rec>) | ReturnedError | Panics

  /** Where the pipeline panics after Run has returned, if it does. */
  datatype Crash = NoCrash | BeforeCounting | AfterCounting

  class Process {
    const cleaner: LogCleaner
    const registry: Metrics.Registry
    var cleanupErrors: nat

    constructor (cleaner: LogCleaner, registry: Metrics.Registry)
      ensures this.cleaner == cleaner && this.registry == registry && cleanupErrors == 0
    {
      this.cleaner, this.registry, cleanupErrors := cleaner, registry, 0;
    }

    /** The queries of the recommendation engine; `fails` says which of them fail. */
    method QueryCounts(insights: seq<Insight>, now: int, days: int, fails: nat -> bool) returns (answers: seq<Option<int>>)
      ensures AnsweredUnless(cleaner.store.db, now, days, insights, answers, fails)
    {
      answers := [];
      for i := 0 to |insights|
        invariant AnsweredUnless(cleaner.store.db, now, days, insights[..i], answers, fails)
      {
        var answer := cleaner.store.GetContainerCleanupCount(insights[i].name, now, days, !fails(i));
        answers := answers + [answer];
      }
      assert insights[..|insights|] == insights;
    }

    /** The counters after a pipeline whose run returned this result. */
    function CountersAfter(c: Agent.Counters, r: Result, crash: Crash): Agent.Counters {
      var timed := c.(selfDuration := r.durationMs);
      if crash.BeforeCounting? then timed else Metrics.Recorded(timed, r)
    }

    function CountersIf(c: Agent.Counters, ending: Ending, crash: Crash): Agent.Counters {
      if ending.Completed? then CountersAfter(c, ending.result, crash) else c
    }

    /** The self-monitor's duration first, and RecordRun unless a panic comes before it. */
    ghost predicate CountersTell(before: Agent.Counters, r: Result, crash: Crash, after: Agent.Counters) {
      && after.selfDuration == r.durationMs
      && if crash.BeforeCounting? then after == before.(selfDuration := r.durationMs)
         else Metrics.RecordedTells(before.(selfDuration := r.durationMs), r, after)
    }

    /** The pipeline closure. */
    method RunPipeline(paths: Option<seq<Path>>, probes: seq<Probe>, acts: seq<Act>, inspects: seq<Inspect>,
                       startedAt: int, finishedAt: int, at: int, fault: Fault,
                       now: int, days: int, trigger: int, fails: nat -> bool, crash: Crash)
      returns (end: PipelineEnd, ghost env: Env, ghost answers: seq<Option<int>>)
      requires paths.Some? ==> |probes| == |acts| == |inspects| == |paths.value|
      modifies this`cleanupErrors, cleaner, cleaner.fs, cleaner.store, registry
      ensures old(cleaner.locked) ==>
        end == ReturnedError && cleaner.Shared() == old(cleaner.Shared())
      ensures !old(cleaner.locked) ==> (
        && !cleaner.locked && Fits(cleaner.cfg, old(cleaner.Shared()), env)
        && cleaner.Shared() == Cleanup.Run(cleaner.cfg, old(cleaner.Shared()), env).world)
      ensures end.ReturnedError? <==>
        old(cleaner.locked) || Cleanup.Run(cleaner.cfg, old(cleaner.Shared()), env).ending.DiscoverFailed?
      ensures cleanupErrors == old(cleanupErrors) + (if end.ReturnedError? then 1 else 0)
      ensures registry.counters == if old(cleaner.locked) then old(registry.counters)
        else CountersIf(old(registry.counters), Cleanup.Run(cleaner.cfg, old(cleaner.Shared()), env).ending, crash)
      ensures !old(cleaner.locked) ==>
        var ending := Cleanup.Run(cleaner.cfg, old(cleaner.Shared()), env).ending;
        ending.Completed? ==> CountersTell(old(registry.counters), ending.result, crash, registry.counters)
      ensures end.Panics? <==> (
        && !old(cleaner.locked)
        && var ending := Cleanup.Run(cleaner.cfg, old(cleaner.Shared()), env).ending;
          ending.Panicked? || (ending.Completed? && !crash.NoCrash?))
      ensures end.Succeeded? ==>
        var ending := Cleanup.Run(cleaner.cfg, old(cleaner.Shared()), env).ending;
        && ending.Completed?
        && AnsweredUnless(cleaner.store.db, now, days, ending.result.insights, answers, fails)
        && end.recs == Expected(ending.result.insights, answers, days, trigger, |ending.result.insights|)
    {
      answers := [];
      var ret;
      ret, env := cleaner.Run(paths, probes, acts, inspects, startedAt, finishedAt, at, fault);
      if ret.Busy? || ret.ending.DiscoverFailed? {
        cleanupErrors := cleanupErrors + 1;
        return ReturnedError, env, answers;
      }
      if ret.ending.Panicked? {
        return Panics, env, answers;
      }
      var r := ret.ending.result;
      Metrics.RecordedIs(registry.counters.(selfDuration := r.durationMs), r);
      registry.counters := registry.counters.(selfDuration := r.durationMs);
      if crash.BeforeCounting? {
        return Panics, env, answers;
      }
      registry.RecordRun(r);
      if crash.AfterCounting? {
        return Panics, env, answers;
      }
      var counts := QueryCounts(r.insights, now, days, fails);
      var recs := Analyze(r.insights, counts, days, trigger);
      return Succeeded(recs), env, counts;
    }

    /**
     RunNow. The deferred recover swallows a panic, and the unnamed result is then nil: a
     startup run that did not complete is reported as failed exactly when no short id met a
     failed second inspect, and one that panics after Run never is.
     */
    method RunNow(paths: Option<seq<Path>>, probes: seq<Probe>, acts: seq<Act>, inspects: seq<Inspect>,
                  startedAt: int, finishedAt: int, at: int, fault: Fault, now: int, days: int, trigger: int,
                  fails: nat -> bool, crash: Crash)
      returns (failed: bool, ghost env: Env)
      requires paths.Some? ==> |probes| == |acts| == |inspects| == |paths.value|
      modifies this`cleanupErrors, cleaner, cleaner.fs, cleaner.store, registry
      ensures !old(cleaner.locked) ==> !cleaner.locked && Fits(cleaner.cfg, old(cleaner.Shared()), env)
      ensures failed <==>
        old(cleaner.locked) || Cleanup.Run(cleaner.cfg, old(cleaner.Shared()), env).ending.DiscoverFailed?
      ensures !old(cleaner.locked) && Cleanup.Run(cleaner.cfg, old(cleaner.Shared()), env).ending.Panicked? ==>
        !failed && registry.counters == old(registry.counters) && cleanupErrors == old(cleanupErrors)
      ensures !old(cleaner.locked) && Cleanup.Run(cleaner.cfg, old(cleaner.Shared()), env).ending.Completed? ==>
        !failed && cleanupErrors == old(cleanupErrors) && registry.counters ==
          CountersAfter(old(registry.counters), Cleanup.Run(cleaner.cfg, old(cleaner.Shared()), env).ending.result, crash)
      ensures !old(cleaner.locked) && !Cleanup.Run(cleaner.cfg, old(cleaner.Shared()), env).ending.Completed? ==>
        (failed <==> !ShortIdFails(cleaner.cfg, env))
    {
      var end;
      ghost var answers;
      end, env, answers := RunPipeline(paths, probes, acts, inspects, startedAt, finishedAt, at, fault, now, days, trigger,
        fails, crash);
      failed := end.ReturnedError?;
      if !old(cleaner.locked) && env.paths.Some? {
        RunPanicsExactly(cleaner.cfg, old(cleaner.Shared()), env);
      }
    }
  }
}
