/** What the machine does not rule out: loggers, answers, panics and overlap come as they like. */
module Openness {
  import opened Sums
  import opened LogFiles
  import opened Policies
  import opened Tables
  import opened Ranking
  import opened Cleanup
  import opened History
  import opened Agent
  import opened Serial
  import opened AgentLaws

  /** A logger can append in any state whatsoever, whoever holds the mutex; its file grows and no other. */
  lemma LoggersAreNeverHeldUp(cfg: Config, s: System, a: Append)
    ensures Enabled(cfg, s, Write(a))
    ensures var before, after := s.world.files, Next(cfg, s, Write(a)).world.files;
      && a.path in after && SizeOf(after, a.path) == SizeOf(before, a.path) + a.bytes
      && forall q :: q != a.path ==> (q in after <==> q in before) && SizeOf(after, q) == SizeOf(before, q)
  {
  }

  /** Two answers to the same question. */
  predicate SameQuestion(job: Job, a: RunStep, b: RunStep) {
    || (a.Discover? && b.Discover?) || (a.StatOne? && b.StatOne?) || (a.Measure? && b.Measure?)
    || (a.Change? && b.Change?) || (a.SaveRun? && b.SaveRun?)
    || (a.Collect? && b.Collect? && |a.inspects| == |b.inspects|)
    || (a.Sort? && b.Sort? && Rankable(job, a.order) && Rankable(job, b.order))
  }

  predicate Rankable(job: Job, order: seq<LogEntry>) {
    multiset(order) == multiset(job.scan.entries)
    && forall i, j :: 0 <= i < j < |order| ==> order[i].size >= order[j].size
  }

  /** Where one answer can come, any other can: successes, failures, any order of ties, any failing statement. */
  lemma AnyAnswerCanCome(cfg: Config, s: System, p: nat, a: RunStep, b: RunStep)
    requires Enabled(cfg, s, Inside(p, a)) && SameQuestion(s.procs[p].job, a, b)
    ensures Enabled(cfg, s, Inside(p, b))
  {
    if b.Sort? {
      var items := s.procs[p].job.scan.entries;
      SumBag(b.order, items, EntrySize);
      assert Ranks(b.order, items, EntrySize);
    }
  }

  /** The answer of a step is what the run goes on with, and what the theorems about its environment speak of. */
  ghost predicate Kept(before: Job, step: RunStep, after: Job) {
    var env := after.env;
    match step
    case Discover(paths) => env.paths == paths
    case StatOne(ok, inspect, snapshotOk) =>
      env.probes == before.env.probes + [Probe(Tick(before.pending, ok), inspect, snapshotOk)]
    case Sort(order) => env.order == order
    case Decide => |env.acts| == |before.env.acts| + 1
    case Measure(ok) =>
      if after.phase == Sweeping(None) then
        |env.acts| == |before.env.acts| + 1 && env.acts[|before.env.acts|].stat == Tick(before.pending, ok)
      else after.phase.Sweeping? && after.phase.half.Some? && after.phase.half.value.tick == Tick(before.pending, ok)
    case Change(ok) =>
      && before.phase.Sweeping? && before.phase.half.Some?
      && env.acts == before.env.acts + [Act(before.phase.half.value.tick, Tick(before.pending, ok))]
    case Collect(inspects, at) => env.inspects == inspects && env.finishedAt == at
    case SaveRun(at, fault) => env.at == at && env.fault == fault
    case Publish => env == before.env
  }

  lemma AnswersAreKept(cfg: Config, w: World, job: Job, step: RunStep)
    requires CanStep(cfg, job, step)
    ensures Kept(job, step, DoStep(cfg, w, job, step).job)
  {
  }

  /** A call that gets the mutex starts from the time it read, on the world it found. */
  lemma EnteringKeepsTheTime(cfg: Config, s: System, p: nat, at: int)
    requires Enabled(cfg, s, Enter(p, at)) && s.lock.Free?
    ensures var t := Next(cfg, s, Enter(p, at));
      && t.lock == ByRun(p) && t.world == s.world && InRun(t, p)
      && t.procs[p].job.phase.Discovering? && t.procs[p].job.env.startedAt == at && t.procs[p].job.base == s.world
  {
  }

  /** A pipeline that goes on after Run can panic at every stage, and leaves everything else as it is. */
  lemma AnyStageCanPanic(cfg: Config, s: System, p: nat)
    requires p < |s.procs| && s.procs[p].Reporting?
    ensures Enabled(cfg, s, Crash(p))
    ensures Next(cfg, s, Crash(p)) == SetProc(s, p, CrashedAfter(s.procs[p].receipt, s.procs[p].stage))
  {
  }

  // ---- overlap ----

  /** Pipeline 0 is inside Run, and the others have been refused. */
  ghost predicate Overlapping(s: System, n: nat) {
    && s.main == Scheduled
    && |s.procs| == n + 1 && s.lock == ByRun(0) && s.procs[0].Running?
    && forall q :: 1 <= q <= n ==> s.procs[q] == Erring(None)
  }

  /**
   Cron ticks do not wait for a pipeline that is still running: there is a schedule in which
   one is inside Run while any number of others have started after it and been refused.
   */
  lemma {:induction false} PipelinesOverlap(cfg: Config, w0: World, n: nat) returns (ls: seq<Label>)
    ensures Possible(cfg, Boot(w0), ls) && Overlapping(State(cfg, Boot(w0), ls), n)
  {
    if n == 0 {
      var s;
      ls, s := Extend(cfg, Boot(w0), [], Main(StartCron));
      ls, s := Extend(cfg, Boot(w0), ls, Main(CronTick));
      assert s.procs == [Started];
      ls, s := Extend(cfg, Boot(w0), ls, Enter(0, 0));
    } else {
      ls := PipelinesOverlap(cfg, w0, n - 1);
      ls := OneMoreRefused(cfg, w0, ls, n - 1);
    }
  }

  lemma OneMoreRefused(cfg: Config, w0: World, ls: seq<Label>, n: nat) returns (more: seq<Label>)
    requires Possible(cfg, Boot(w0), ls) && Overlapping(State(cfg, Boot(w0), ls), n)
    ensures Possible(cfg, Boot(w0), more) && Overlapping(State(cfg, Boot(w0), more), n + 1)
  {
    var s := State(cfg, Boot(w0), ls);
    var ls1, s1 := Extend(cfg, Boot(w0), ls, Main(CronTick));
    assert s1.procs == s.procs + [Started];
    var ls2, s2 := Extend(cfg, Boot(w0), ls1, Enter(n + 1, 0));
    assert s2.procs == s1.procs[n + 1 := Erring(None)];
    more := ls2;
  }
}
