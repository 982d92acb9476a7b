/**
 internal/cleanup/cleaner.go as values: what one call of Run does to the file system, the
 database and the last result, for every behaviour of the kernel, Docker and SQLite.

 Sizes are bytes. A size in MB is the byte count divided by 1024 twice, which is exact in
 floating point below 2^53, so comparing MB with the threshold is comparing bytes with
 threshold * 1048576.
 */
module Cleanup {
  import opened Sums
  import opened LogFiles
  import opened Policies
  import opened Docker
  import opened Tables
  import opened Ranking

  const MB: int := 1048576

  datatype Config = Config(
    serverId: string, dryRun: bool, thresholdMb: int, topConsumers: int, mode: Mode,
    excluded: seq<string>, hasDocker: bool, hasDb: bool)

  function Threshold(cfg: Config): int { cfg.thresholdMb * MB }

  function TopN(cfg: Config): int { if cfg.topConsumers <= 0 then 5 else cfg.topConsumers }

  datatype LogEntry = LogEntry(path: Path, size: nat, cid: string, name: string, image: string)

  datatype ContainerLogEntry = ContainerLogEntry(
    cid: string, name: string, image: string, path: Path, size: nat, wasTruncated: bool, isExcluded: bool)

  datatype CleanupError = CleanupError(phase: string, path: Path)

  const STAT := "stat"
  const TRUNCATE := "truncate"

  /** Counts the errors of one phase. */
  function InPhase(phase: string): CleanupError -> int {
    (e: CleanupError) => if e.phase == phase then 1 else 0
  }

  /** The lines Run logs while it decides about each entry. */
  datatype LogLine =
    | SkippingExcluded(path: Path)
    | WouldTruncate(path: Path)
    | TruncateFailed(path: Path)
    | Truncated(path: Path)

  datatype Result = Result(
    startedAt: int, finishedAt: int, durationMs: int, logsCleaned: nat, reclaimed: nat,
    errors: seq<CleanupError>, topConsumers: seq<ContainerLogEntry>, dryRun: bool,
    insights: seq<Insight>, allEntries: seq<ContainerLogEntry>)

  /** The zero value of the cleaner's lastResult field. */
  const NoResult := Result(0, 0, 0, 0, 0, [], [], false, [], [])

  /** What Run shares with the rest of the process. */
  datatype World = World(files: Files, db: Db, last: Result)

  /** Around the stat of one path: the kernel's answer, Docker's, and the snapshot insert's. */
  datatype Probe = Probe(tick: Tick, inspect: Inspect, snapshotOk: bool)

  /**
   Everything one call of Run meets: the discovered paths (None when discovery fails), one
   probe per path, the order the sort leaves, one act per sorted entry, the second round of
   inspect answers, the clock, and the fate of the transaction.
   */
  datatype Env = Env(
    paths: Option<seq<Path>>, probes: seq<Probe>, order: seq<LogEntry>, acts: seq<Act>,
    inspects: seq<Inspect>, startedAt: int, finishedAt: int, at: int, fault: Fault)

  // ---- the stat loop ----

  datatype Scan = Scan(files: Files, snapshots: seq<SnapshotRow>, entries: seq<LogEntry>, errors: seq<CleanupError>)

  function ResolvedName(cfg: Config, path: Path, answer: Inspect): string {
    if cfg.hasDocker && answer.Found? then TrimSlash(answer.name) else ContainerId(path)
  }

  function ToEntry(cfg: Config, path: Path, size: nat, answer: Inspect): LogEntry {
    LogEntry(path, size, ContainerId(path), ResolvedName(cfg, path, answer),
      if cfg.hasDocker && answer.Found? then answer.image else "")
  }

  function ScanStep(cfg: Config, path: Path, probe: Probe, s: Scan): Scan {
    var files := WrittenAll(s.files, probe.tick.writes);
    match Stated(files, path, probe.tick.ok)
    case None => s.(files := files, errors := s.errors + [CleanupError(STAT, path)])
    case Some(size) =>
      var e := ToEntry(cfg, path, size, probe.inspect);
      s.(files := files, entries := s.entries + [e],
         snapshots := if cfg.hasDb && probe.snapshotOk
           then s.snapshots + [SnapshotRow(e.cid, e.name, e.size)] else s.snapshots)
  }

  function ScanAll(cfg: Config, paths: seq<Path>, probes: seq<Probe>, s: Scan): (r: Scan)
    requires |probes| <= |paths|
    decreases |probes|
  {
    if |probes| == 0 then s
    else
      var n := |probes| - 1;
      ScanStep(cfg, paths[n], probes[n], ScanAll(cfg, paths, probes[..n], s))
  }

  function StartScan(w: World): Scan { Scan(w.files, w.db.snapshots, [], []) }

  // ---- the sorted list ----

  function EntrySize(e: LogEntry): int { e.size }

  function ListedSize(e: ContainerLogEntry): int { e.size }

  function ToListed(cfg: Config, e: LogEntry): ContainerLogEntry {
    ContainerLogEntry(e.cid, e.name, e.image, e.path, e.size, false, e.name in cfg.excluded)
  }

  function Listed(cfg: Config, order: seq<LogEntry>): (all: seq<ContainerLogEntry>)
    ensures |all| == |order|
    ensures forall i :: 0 <= i < |all| ==> all[i] == ToListed(cfg, order[i])
  {
    seq(|order|, i requires 0 <= i < |order| => ToListed(cfg, order[i]))
  }

  function TopOf(cfg: Config, all: seq<ContainerLogEntry>): seq<ContainerLogEntry> {
    if TopN(cfg) < |all| then all[..TopN(cfg)] else all
  }

  // ---- the truncation loop ----

  datatype Sweep = Sweep(
    files: Files, all: seq<ContainerLogEntry>, errors: seq<CleanupError>,
    cleaned: nat, reclaimed: nat, log: seq<LogLine>)

  predicate Below(cfg: Config, e: ContainerLogEntry) { e.size < Threshold(cfg) }

  predicate Eligible(cfg: Config, e: ContainerLogEntry) { !Below(cfg, e) && !e.isExcluded }

  /** What the loop does with the policy's answer for entry i. */
  function Report(i: nat, s: Sweep, a: Applied): (r: Sweep)
    requires i < |s.all|
    ensures |r.all| == |s.all|
  {
    var e := s.all[i];
    match a.reclaimed
    case None =>
      s.(files := a.files, log := s.log + [TruncateFailed(e.path)],
         errors := s.errors + [CleanupError(TRUNCATE, e.path)])
    case Some(n) =>
      s.(files := a.files, log := s.log + [Truncated(e.path)],
         all := s.all[i := e.(wasTruncated := true)],
         cleaned := s.cleaned + 1, reclaimed := s.reclaimed + n)
  }

  function SweepStep(cfg: Config, act: Act, i: nat, s: Sweep): (r: Sweep)
    requires i < |s.all|
    ensures |r.all| == |s.all|
  {
    var e := s.all[i];
    if !Eligible(cfg, e) then
      s.(files := WrittenAll(s.files, ActWrites(act)),
         log := if Below(cfg, e) then s.log else s.log + [SkippingExcluded(e.path)])
    else if cfg.dryRun then
      s.(files := WrittenAll(s.files, ActWrites(act)), log := s.log + [WouldTruncate(e.path)],
         all := s.all[i := e.(wasTruncated := false)])
    else Report(i, s, Apply(cfg.mode, s.files, e.path, act))
  }

  function SweepAll(cfg: Config, acts: seq<Act>, s: Sweep): (r: Sweep)
    requires |acts| <= |s.all|
    ensures |r.all| == |s.all|
    decreases |acts|
  {
    if |acts| == 0 then s
    else
      var n := |acts| - 1;
      SweepStep(cfg, acts[n], n, SweepAll(cfg, acts[..n], s))
  }

  function StartSweep(cfg: Config, scan: Scan, order: seq<LogEntry>): Sweep {
    Sweep(scan.files, Listed(cfg, order), scan.errors, 0, 0, [])
  }

  // ---- the insight join ----

  function EntryIds(order: seq<LogEntry>): (ids: seq<string>)
    ensures |ids| == |order|
    ensures forall i :: 0 <= i < |ids| ==> ids[i] == order[i].cid
  {
    seq(|order|, i requires 0 <= i < |order| => order[i].cid)
  }

  /** The size of the first entry with this id: the inner loop breaks at the first match. */
  function FirstSize(order: seq<LogEntry>, cid: string): Option<nat>
    decreases |order|
  {
    if |order| == 0 then None
    else if order[0].cid == cid then Some(order[0].size)
    else FirstSize(order[1..], cid)
  }

  function JoinOne(insight: Insight, order: seq<LogEntry>): Insight {
    match FirstSize(order, insight.id)
    case None => insight
    case Some(n) => insight.(logSize := n)
  }

  function Join(insights: seq<Insight>, order: seq<LogEntry>): (r: seq<Insight>)
    ensures |r| == |insights|
    ensures forall i :: 0 <= i < |r| ==> r[i] == JoinOne(insights[i], order)
  {
    seq(|insights|, i requires 0 <= i < |insights| => JoinOne(insights[i], order))
  }

  // ---- persisting ----

  function ToCleanInput(e: ContainerLogEntry): CleanInput { CleanInput(e.name, e.image, e.size, e.wasTruncated) }

  function ToCleanInputs(all: seq<ContainerLogEntry>): (r: seq<CleanInput>)
    ensures |r| == |all|
    ensures forall i :: 0 <= i < |r| ==> r[i] == ToCleanInput(all[i])
  {
    seq(|all|, i requires 0 <= i < |all| => ToCleanInput(all[i]))
  }

  function ErrorText(e: CleanupError): string { "[" + e.phase + "] " + e.path }

  function ErrorTexts(errors: seq<CleanupError>): (r: seq<string>)
    ensures |r| == |errors|
    ensures forall i :: 0 <= i < |r| ==> r[i] == ErrorText(errors[i])
  {
    seq(|errors|, i requires 0 <= i < |errors| => ErrorText(errors[i]))
  }

  function ToRunInput(cfg: Config, r: Result): RunInput {
    RunInput(cfg.serverId, r.logsCleaned, r.reclaimed, r.durationMs, ErrorTexts(r.errors), r.dryRun,
      ToCleanInputs(r.allEntries))
  }

  function Persist(cfg: Config, db: Db, r: Result, at: int, fault: Fault): Db {
    if cfg.hasDb then Record(db, ToRunInput(cfg, r), at, fault) else db
  }

  // ---- the whole run ----

  datatype Ending = Completed(result: Result) | DiscoverFailed | Panicked

  datatype Outcome = Outcome(world: World, ending: Ending, log: seq<LogLine>)

  function Scanned(cfg: Config, w: World, env: Env): Scan
    requires env.paths.Some? && |env.probes| <= |env.paths.value|
  {
    ScanAll(cfg, env.paths.value, env.probes, StartScan(w))
  }

  function Swept(cfg: Config, w: World, env: Env): Sweep
    requires env.paths.Some? && |env.probes| <= |env.paths.value|
    requires |env.acts| <= |env.order|
  {
    SweepAll(cfg, env.acts, StartSweep(cfg, Scanned(cfg, w, env), env.order))
  }

  function RunInsights(cfg: Config, order: seq<LogEntry>, inspects: seq<Inspect>): Option<seq<Insight>>
    requires |inspects| == |order|
  {
    if !cfg.hasDocker then Some([])
    else match Insights(EntryIds(order), inspects, cfg.excluded)
      case None => None
      case Some(insights) => Some(Join(insights, order))
  }

  function ToResult(cfg: Config, order: seq<LogEntry>, sweep: Sweep, insights: seq<Insight>,
                    startedAt: int, finishedAt: int): Result {
    Result(startedAt, finishedAt, finishedAt - startedAt, sweep.cleaned, sweep.reclaimed, sweep.errors,
      TopOf(cfg, Listed(cfg, order)), cfg.dryRun, insights, sweep.all)
  }

  /** The shape of an environment: one answer per question Run asks. */
  ghost predicate Fits(cfg: Config, w: World, env: Env) {
    env.paths.Some? ==>
      && |env.probes| == |env.paths.value|
      && Ranks(env.order, Scanned(cfg, w, env).entries, EntrySize)
      && |env.acts| == |env.order| == |env.inspects|
  }

  /** One accepted call of Run, from taking the lock to releasing it. */
  ghost function Run(cfg: Config, w: World, env: Env): Outcome
    requires Fits(cfg, w, env)
  {
    if env.paths.None? then Outcome(w, DiscoverFailed, [])
    else
      var scan := Scanned(cfg, w, env);
      var sweep := Swept(cfg, w, env);
      var db := w.db.(snapshots := scan.snapshots);
      match RunInsights(cfg, env.order, env.inspects)
      case None => Outcome(World(sweep.files, db, w.last), Panicked, sweep.log)
      case Some(insights) =>
        var r := ToResult(cfg, env.order, sweep, insights, env.startedAt, env.finishedAt);
        Outcome(World(sweep.files, Persist(cfg, db, r, env.at, env.fault), r), Completed(r), sweep.log)
  }
}
