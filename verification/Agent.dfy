/**
 The running agent as a state machine: any number of overlapping pipelines
 (cmd/agent/main.go), loggers that append at any moment, callers of LastResult, and the
 scheduler's start and stop. One label is one atomic step of one party.

 Three fields are history variables, read by no step: a job's `base` and `pending`, and the
 system's `history`, the serial order that the proofs compare the machine with.
 */
module Agent {
  import opened Sums
  import opened LogFiles
  import opened Policies
  import opened Docker
  import opened Tables
  import opened Ranking
  import opened Cleanup
  import opened History

  /** The cleaner's mutex: TryLock by Run, Lock by LastResult. */
  datatype Lock = Free | ByRun(pid: nat) | ByReader(rid: nat)

  /** A policy between its stat and its change: the size it measured. */
  datatype Half = Half(tick: Tick, size: nat)

  /** Where a call of Run stands once it holds the lock. */
  datatype Phase =
    | Discovering
    | Scanning
    | Sweeping(half: Option<Half>)
    | Persisting(result: Result)
    | Publishing(result: Result)
    | Releasing(ending: Ending)

  /** The local variables of a call of Run; `env` collects the answers it has received. */
  datatype Job = Job(phase: Phase, env: Env, scan: Scan, sweep: Sweep, base: World, pending: seq<Append>)

  /** The steps of a pipeline after Run has returned a result: one per counter it updates. */
  datatype Stage =
    | Telemetry
    | IncRuns
    | AddLogs
    | AddSpace
    | SetGauges
    | AddFailures(left: set<string>)
    | Analysing

  /** What a successful call of Run leaves with its caller, and whether its run row was committed. */
  datatype Receipt = Receipt(result: Result, turn: nat, booked: bool)

  /** A pipeline. A turn is a place in the serial order; a call that was refused has none. */
  datatype Proc =
    | Started
    | Running(job: Job)
    | Erring(turn: Option<nat>)
    | Errored(turn: Option<nat>)
    | Reporting(receipt: Receipt, stage: Stage)
    | Done(receipt: Receipt)
    | CrashedInRun(turn: Option<nat>)
    | CrashedAfter(receipt: Receipt, stage: Stage)

  datatype Reader = Waiting | Holding | Got(value: Result, seen: nat)

  /** The main goroutine, from before sched.Start to after the deferred db.Close. */
  datatype MainState = Booting | Scheduled | InitialRun(pid: nat) | Serving | Stopping | Stopped | Closed

  /** The Prometheus counters and gauges that RecordRun updates, one atomic step each. */
  datatype Counters = Counters(
    runsReal: nat, runsDry: nat, logs: nat, space: nat, failures: map<string, int>,
    lastDuration: int, lastSpace: nat, selfDuration: int)

  datatype System = System(
    world: World, lock: Lock, procs: seq<Proc>, readers: seq<Reader>, main: MainState, initial: Option<nat>,
    counters: Counters, cleanupErrors: nat, history: seq<Event>)

  function Boot(w: World): System {
    System(w, Free, [], [], Booting, None, Counters(0, 0, 0, 0, map[], 0, 0, 0), 0, [])
  }

  /** What happens between TryLock and the deferred unlock, one system call or decision at a time. */
  datatype RunStep =
    | Discover(paths: Option<seq<Path>>)
    | StatOne(ok: bool, inspect: Inspect, snapshotOk: bool)
    | Sort(order: seq<LogEntry>)
    | Decide
    | Measure(ok: bool)
    | Change(ok: bool)
    | Collect(inspects: seq<Inspect>, at: int)
    | SaveRun(at: int, fault: Fault)
    | Publish

  /** The main goroutine and the scheduler. */
  datatype Control = StartCron | CronTick | StartInitial | FinishInitial | CallStop | ReturnStop | CloseDb

  datatype Label =
    | Write(write: Append)
    | Main(control: Control)
    | Enter(p: nat, at: int)
    | Inside(p: nat, step: RunStep)
    | Release(p: nat)
    | CountError(p: nat)
    | Advance(p: nat, phase: string)
    | Crash(p: nat)
    | Ask
    | Take(r: nat)
    | Give(r: nat)

  // ---- helpers ----

  predicate Finished(proc: Proc) {
    proc.Errored? || proc.Done? || proc.CrashedInRun? || proc.CrashedAfter?
  }

  function SetProc(s: System, p: nat, proc: Proc): System
    requires p < |s.procs|
  {
    s.(procs := s.procs[p := proc])
  }

  const NoEnv := Env(None, [], [], [], [], 0, 0, 0, NoFault)

  const NoSweep := Sweep(map[], [], [], 0, 0, [])

  predicate InRun(s: System, p: nat) { p < |s.procs| && s.procs[p].Running? }

  /** The entry the truncation loop is at. */
  predicate AtEntry(job: Job) { |job.env.acts| < |job.env.order| == |job.sweep.all| }

  function Current(job: Job): ContainerLogEntry
    requires AtEntry(job)
  {
    job.sweep.all[|job.env.acts|]
  }

  /** The loop applies a policy that makes system calls to this entry. */
  predicate Touches(cfg: Config, e: ContainerLogEntry) {
    Eligible(cfg, e) && !cfg.dryRun && Implemented(cfg.mode)
  }

  /** phaseCounts[phase] */
  function PhaseCount(r: Result, phase: string): int { Sum(r.errors, InPhase(phase)) }

  function PhasesOf(r: Result): set<string> { set e | e in r.errors :: e.phase }

  /** A phase that no error names counts nothing. */
  lemma AbsentPhase(r: Result, phase: string)
    requires phase !in PhasesOf(r)
    ensures PhaseCount(r, phase) == 0
  {
    SumZero(r.errors, InPhase(phase));
  }

  function FailuresOf(c: Counters, phase: string): int {
    if phase in c.failures then c.failures[phase] else 0
  }

  // ---- the steps inside Run ----

  /** A step of a run: what becomes of the shared world and of the local variables. */
  datatype Moved = Moved(world: World, job: Job)

  predicate CanStep(cfg: Config, job: Job, step: RunStep) {
    match step
    case Discover(_) => job.phase.Discovering?
    case StatOne(_, _, _) => job.phase.Scanning?
      && job.env.paths.Some? && |job.env.probes| < |job.env.paths.value|
    case Sort(order) => job.phase.Scanning?
      && job.env.paths.Some? && |job.env.probes| == |job.env.paths.value|
      && |order| == |job.scan.entries|
    case Decide => job.phase == Sweeping(None) && AtEntry(job) && !Touches(cfg, Current(job))
    case Measure(_) => job.phase == Sweeping(None) && AtEntry(job) && Touches(cfg, Current(job))
    case Change(_) => job.phase.Sweeping? && job.phase.half.Some? && AtEntry(job)
    case Collect(inspects, _) => job.phase == Sweeping(None)
      && |job.env.acts| == |job.env.order| == |inspects|
    case SaveRun(_, _) => job.phase.Persisting?
    case Publish => job.phase.Publishing?
  }

  /** One iteration of the stat loop, on the files and tables as they are now. */
  function DoStat(cfg: Config, w: World, job: Job, ok: bool, inspect: Inspect, snapshotOk: bool): Moved
    requires CanStep(cfg, job, StatOne(ok, inspect, snapshotOk))
  {
    var now := job.scan.(files := w.files, snapshots := w.db.snapshots);
    var path := job.env.paths.value[|job.env.probes|];
    var scan := ScanStep(cfg, path, Probe(Tick([], ok), inspect, snapshotOk), now);
    var seen := Probe(Tick(job.pending, ok), inspect, snapshotOk);
    Moved(w.(db := w.db.(snapshots := scan.snapshots)),
      job.(scan := scan, env := job.env.(probes := job.env.probes + [seen]), pending := []))
  }

  /** An entry that needs no system call: below, excluded, dry run, or a stub policy. */
  function DoDecide(cfg: Config, w: World, job: Job): Moved
    requires CanStep(cfg, job, Decide)
  {
    var i := |job.env.acts|;
    var still := Act(Tick([], true), Tick([], true));
    var sweep := SweepStep(cfg, still, i, job.sweep.(files := w.files));
    var act := Act(Tick(job.pending, true), Tick([], true));
    Moved(w, job.(sweep := sweep, env := job.env.(acts := job.env.acts + [act]), pending := []))
  }

  /** The policy's stat. */
  function DoMeasure(cfg: Config, w: World, job: Job, ok: bool): Moved
    requires CanStep(cfg, job, Measure(ok))
  {
    var i := |job.env.acts|;
    var tick := Tick(job.pending, ok);
    match Stated(w.files, Current(job).path, ok)
    case None =>
      var sweep := Report(i, job.sweep, Applied(w.files, None));
      var act := Act(tick, Tick([], true));
      Moved(w, job.(sweep := sweep, env := job.env.(acts := job.env.acts + [act]), pending := []))
    case Some(size) =>
      Moved(w, job.(phase := Sweeping(Some(Half(tick, size))), pending := []))
  }

  /** The policy's truncate or remove. */
  function DoChange(cfg: Config, w: World, job: Job, ok: bool): Moved
    requires CanStep(cfg, job, Change(ok))
  {
    var i := |job.env.acts|;
    var half := job.phase.half.value;
    var path := Current(job).path;
    var done := ok && path in w.files;
    var files := if done then Cut(cfg.mode, w.files, path) else w.files;
    var sweep := Report(i, job.sweep, Applied(files, if done then Some(half.size) else None));
    var act := Act(half.tick, Tick(job.pending, ok));
    Moved(w.(files := files),
      job.(phase := Sweeping(None), sweep := sweep, env := job.env.(acts := job.env.acts + [act]), pending := []))
  }

  /** Insights are collected and joined; a slice out of range unwinds to the deferred unlock. */
  function DoCollect(cfg: Config, w: World, job: Job, inspects: seq<Inspect>, at: int): Moved
    requires CanStep(cfg, job, Collect(inspects, at))
  {
    var env := job.env.(inspects := inspects, finishedAt := at);
    match RunInsights(cfg, env.order, inspects)
    case None => Moved(w, job.(phase := Releasing(Panicked), env := env))
    case Some(insights) =>
      var r := ToResult(cfg, env.order, job.sweep, insights, env.startedAt, at);
      Moved(w, job.(phase := Persisting(r), env := env))
  }

  function DoStep(cfg: Config, w: World, job: Job, step: RunStep): Moved
    requires CanStep(cfg, job, step)
  {
    match step
    case Discover(paths) =>
      Moved(w, job.(env := job.env.(paths := paths),
        phase := if paths.None? then Releasing(DiscoverFailed) else Scanning))
    case StatOne(ok, inspect, snapshotOk) => DoStat(cfg, w, job, ok, inspect, snapshotOk)
    case Sort(order) =>
      Moved(w, job.(phase := Sweeping(None), env := job.env.(order := order),
        sweep := StartSweep(cfg, job.scan, order)))
    case Decide => DoDecide(cfg, w, job)
    case Measure(ok) => DoMeasure(cfg, w, job, ok)
    case Change(ok) => DoChange(cfg, w, job, ok)
    case Collect(inspects, at) => DoCollect(cfg, w, job, inspects, at)
    case SaveRun(at, fault) =>
      Moved(w.(db := Persist(cfg, w.db, job.phase.result, at, fault)),
        job.(phase := Publishing(job.phase.result), env := job.env.(at := at, fault := fault)))
    case Publish =>
      Moved(w.(last := job.phase.result), job.(phase := Releasing(Completed(job.phase.result))))
  }

  /** What a call of Run becomes for its caller; `turn` is its place in the serial order. */
  function Returned(cfg: Config, job: Job, ending: Ending, turn: nat): Proc {
    match ending
    case DiscoverFailed => Erring(Some(turn))
    case Panicked => CrashedInRun(Some(turn))
    case Completed(r) => Reporting(Receipt(r, turn, Booked(cfg, r, job.env.fault)), Telemetry)
  }

  predicate Booked(cfg: Config, r: Result, fault: Fault) {
    cfg.hasDb && Commits(fault, |r.allEntries|)
  }

  // ---- the steps after Run ----

  /** What one step of a reporting pipeline adds to the counters. */
  function Counted(c: Counters, r: Result, stage: Stage, phase: string): Counters {
    match stage
    case Telemetry => c.(selfDuration := r.durationMs)
    case IncRuns => if r.dryRun then c.(runsDry := c.runsDry + 1) else c.(runsReal := c.runsReal + 1)
    case AddLogs => c.(logs := c.logs + r.logsCleaned)
    case AddSpace => c.(space := c.space + r.reclaimed)
    case SetGauges => c.(lastDuration := r.durationMs, lastSpace := r.reclaimed)
    case AddFailures(left) =>
      if phase in left then c.(failures := c.failures[phase := FailuresOf(c, phase) + PhaseCount(r, phase)]) else c
    case Analysing => c
  }

  /** The pipeline after that step. The failure phases come in the order of a map iteration. */
  function Advanced(receipt: Receipt, stage: Stage, phase: string): Proc {
    match stage
    case Telemetry => Reporting(receipt, IncRuns)
    case IncRuns => Reporting(receipt, AddLogs)
    case AddLogs => Reporting(receipt, AddSpace)
    case AddSpace => Reporting(receipt, SetGauges)
    case SetGauges => Reporting(receipt, AddFailures(PhasesOf(receipt.result)))
    case AddFailures(left) =>
      Reporting(receipt, if left == {} then Analysing else AddFailures(left - {phase}))
    case Analysing => Done(receipt)
  }

  function DoAdvance(s: System, p: nat, phase: string): System
    requires p < |s.procs| && s.procs[p].Reporting?
  {
    var receipt, stage := s.procs[p].receipt, s.procs[p].stage;
    SetProc(s, p, Advanced(receipt, stage, phase)).(counters := Counted(s.counters, receipt.result, stage, phase))
  }

  // ---- the relation ----

  ghost predicate ControlEnabled(s: System, c: Control) {
    match c
    case StartCron => s.main.Booting?
    case CronTick => s.main.Scheduled? || s.main.InitialRun? || s.main.Serving?
    case StartInitial => s.main.Scheduled?
    case FinishInitial => s.main.InitialRun? && s.main.pid < |s.procs| && Finished(s.procs[s.main.pid])
    case CallStop => s.main.Serving?
    case ReturnStop => s.main.Stopping? &&
      forall q :: 0 <= q < |s.procs| && s.initial != Some(q) ==> Finished(s.procs[q])
    case CloseDb => s.main.Stopped?
  }

  function DoControl(s: System, c: Control): System {
    match c
    case StartCron => s.(main := Scheduled)
    case CronTick => s.(procs := s.procs + [Started])
    case StartInitial => s.(procs := s.procs + [Started], main := InitialRun(|s.procs|), initial := Some(|s.procs|))
    case FinishInitial => s.(main := Serving)
    case CallStop => s.(main := Stopping)
    case ReturnStop => s.(main := Stopped)
    case CloseDb => s.(main := Closed)
  }

  ghost predicate Enabled(cfg: Config, s: System, l: Label) {
    match l
    case Write(_) => true
    case Main(c) => ControlEnabled(s, c)
    case Enter(p, _) => p < |s.procs| && s.procs[p].Started?
    case Inside(p, step) => InRun(s, p) && CanStep(cfg, s.procs[p].job, step)
      && (step.Sort? ==> Ranks(step.order, s.procs[p].job.scan.entries, EntrySize))
    case Release(p) => InRun(s, p) && s.procs[p].job.phase.Releasing?
    case CountError(p) => p < |s.procs| && s.procs[p].Erring?
    case Advance(p, phase) => p < |s.procs| && s.procs[p].Reporting?
      && (s.procs[p].stage.AddFailures? && s.procs[p].stage.left != {} ==> phase in s.procs[p].stage.left)
    case Crash(p) => p < |s.procs| && s.procs[p].Reporting?
    case Ask => true
    case Take(r) => r < |s.readers| && s.readers[r].Waiting? && s.lock.Free?
    case Give(r) => r < |s.readers| && s.readers[r].Holding?
  }

  /** An append grows a file, whoever holds the lock. */
  function DoWrite(s: System, a: Append): System {
    var t := s.(world := s.world.(files := Written(s.world.files, a)));
    if s.lock.ByRun? && InRun(s, s.lock.pid) then
      var job := s.procs[s.lock.pid].job;
      SetProc(t, s.lock.pid, Running(job.(pending := job.pending + [a])))
    else t.(history := s.history + [Wrote(a)])
  }

  /** TryLock: take the free lock, or return ErrAlreadyRunning at once. */
  function DoEnter(s: System, p: nat, at: int): System
    requires p < |s.procs|
  {
    if s.lock.Free? then
      SetProc(s, p, Running(Job(Discovering, NoEnv.(startedAt := at), StartScan(s.world), NoSweep, s.world, [])))
        .(lock := ByRun(p))
    else SetProc(s, p, Erring(None))
  }

  function DoInside(cfg: Config, s: System, p: nat, step: RunStep): System
    requires InRun(s, p) && CanStep(cfg, s.procs[p].job, step)
  {
    var m := DoStep(cfg, s.world, s.procs[p].job, step);
    SetProc(s, p, Running(m.job)).(world := m.world)
  }

  /** The deferred unlock, on every way out of Run. */
  function DoRelease(cfg: Config, s: System, p: nat): System
    requires InRun(s, p) && s.procs[p].job.phase.Releasing?
  {
    var job := s.procs[p].job;
    SetProc(s, p, Returned(cfg, job, job.phase.ending, |s.history|))
      .(lock := Free, history := s.history + [Ran(job.env)] + Writes(job.pending))
  }

  ghost function Next(cfg: Config, s: System, l: Label): System
    requires Enabled(cfg, s, l)
  {
    match l
    case Write(a) => DoWrite(s, a)
    case Main(c) => DoControl(s, c)
    case Enter(p, at) => DoEnter(s, p, at)
    case Inside(p, step) => DoInside(cfg, s, p, step)
    case Release(p) => DoRelease(cfg, s, p)
    case CountError(p) => SetProc(s, p, Errored(s.procs[p].turn)).(cleanupErrors := s.cleanupErrors + 1)
    case Advance(p, phase) => DoAdvance(s, p, phase)
    case Crash(p) => SetProc(s, p, CrashedAfter(s.procs[p].receipt, s.procs[p].stage))
    case Ask => s.(readers := s.readers + [Waiting])
    case Take(r) => s.(readers := s.readers[r := Holding], lock := ByReader(r))
    case Give(r) => s.(readers := s.readers[r := Got(s.world.last, |s.history|)], lock := Free)
  }

  /** A schedule that the machine can follow from s. */
  ghost predicate Possible(cfg: Config, s: System, ls: seq<Label>)
    decreases |ls|, 0
  {
    |ls| == 0 || (Possible(cfg, s, ls[..|ls| - 1]) && Enabled(cfg, State(cfg, s, ls[..|ls| - 1]), ls[|ls| - 1]))
  }

  ghost function State(cfg: Config, s: System, ls: seq<Label>): System
    requires Possible(cfg, s, ls)
    decreases |ls|, 1
  {
    if |ls| == 0 then s else Next(cfg, State(cfg, s, ls[..|ls| - 1]), ls[|ls| - 1])
  }
}
