/** The space counter against the disk, over every schedule. */
module DiskBooks {
  import opened Sums
  import opened LogFiles
  import opened Cleanup
  import opened ScanLaws
  import opened SweepLaws
  import opened RunLaws
  import opened History
  import opened Agent
  import opened Serial
  import opened AgentBooks

  /** What a run that panicked had reclaimed: it reaches no result, so no caller and no counter. */
  ghost function EventLost(cfg: Config, w: World, e: Event): int
    requires EventFits(cfg, w, e)
  {
    if e.Ran? && Run(cfg, w, e.env).ending.Panicked? then EventReclaimed(cfg, w, e) else 0
  }

  ghost function Lost(cfg: Config, w: World, h: seq<Event>): int
    requires Legal(cfg, w, h)
    decreases |h|
  {
    if |h| == 0 then 0
    else
      var n := |h| - 1;
      Lost(cfg, w, h[..n]) + EventLost(cfg, Replay(cfg, w, h[..n]), h[n])
  }

  /** Of what the runs of a history reclaimed, the part that some caller was told. */
  ghost function Told(cfg: Config, w: World, h: seq<Event>): int
    requires Legal(cfg, w, h)
  {
    Reclaimed(cfg, w, h) - Lost(cfg, w, h)
  }

  lemma ToldSnoc(cfg: Config, w: World, h: seq<Event>, e: Event)
    requires Legal(cfg, w, h) && EventFits(cfg, Replay(cfg, w, h), e)
    ensures Legal(cfg, w, h + [e])
    ensures var before := Replay(cfg, w, h);
      Told(cfg, w, h + [e]) == Told(cfg, w, h) + EventReclaimed(cfg, before, e) - EventLost(cfg, before, e)
  {
    ReplaySnoc(cfg, w, h, e);
    assert (h + [e])[..|h|] == h;
  }

  lemma {:induction false} ToldWrites(cfg: Config, w: World, h: seq<Event>, ws: seq<Append>)
    requires Legal(cfg, w, h)
    ensures Legal(cfg, w, h + Writes(ws)) && Told(cfg, w, h + Writes(ws)) == Told(cfg, w, h)
    decreases |ws|
  {
    if |ws| == 0 {
      assert h + Writes(ws) == h;
    } else {
      var n := |ws| - 1;
      ToldWrites(cfg, w, h, ws[..n]);
      ToldSnoc(cfg, w, h + Writes(ws[..n]), Wrote(ws[n]));
      assert h + Writes(ws) == h + Writes(ws[..n]) + [Wrote(ws[n])];
    }
  }

  /** A release tells its caller exactly what the run reclaimed, unless it panicked. */
  lemma ReleaseTells(cfg: Config, w0: World, s: System, p: nat)
    requires SerialInv(cfg, w0, s) && s.lock == ByRun(p) && s.procs[p].job.phase.Releasing?
    ensures Legal(cfg, w0, DoRelease(cfg, s, p).history)
    ensures Told(cfg, w0, DoRelease(cfg, s, p).history)
      == Told(cfg, w0, s.history) + Earned(Space)(DoRelease(cfg, s, p).procs[p])
  {
    var job := s.procs[p].job;
    JobDone(cfg, s.world, job);
    ToldSnoc(cfg, w0, s.history, Ran(job.env));
    ToldWrites(cfg, w0, s.history + [Ran(job.env)], job.pending);
    RunTells(cfg, job.base, job.env);
  }

  lemma RunTells(cfg: Config, w: World, env: Env)
    requires Fits(cfg, w, env)
    ensures var ending := Run(cfg, w, env).ending;
      EventReclaimed(cfg, w, Ran(env)) - EventLost(cfg, w, Ran(env))
        == if ending.Completed? then ending.result.reclaimed else 0
  {
    if Run(cfg, w, env).ending.Completed? { RunReports(cfg, w, env); }
  }

  lemma ToldStep(cfg: Config, w0: World, s: System, l: Label)
    requires LockInv(s) && SerialInv(cfg, w0, s) && Enabled(cfg, s, l)
    requires Legal(cfg, w0, Next(cfg, s, l).history)
    requires Sum(s.procs, Earned(Space)) == Told(cfg, w0, s.history)
    ensures Sum(Next(cfg, s, l).procs, Earned(Space)) == Told(cfg, w0, Next(cfg, s, l).history)
  {
    SumMove(cfg, s, l, Earned(Space));
    if l.Release? {
      ReleaseTells(cfg, w0, s, l.p);
    } else {
      EarnedStays(cfg, s, l);
      HistoryStays(cfg, w0, s, l);
    }
  }

  lemma HistoryStays(cfg: Config, w0: World, s: System, l: Label)
    requires Enabled(cfg, s, l) && !l.Release? && Legal(cfg, w0, s.history)
    ensures Legal(cfg, w0, Next(cfg, s, l).history)
    ensures Told(cfg, w0, Next(cfg, s, l).history) == Told(cfg, w0, s.history)
  {
    EarnedStays(cfg, s, l);
    if Next(cfg, s, l).history != s.history { ToldSnoc(cfg, w0, s.history, Wrote(l.write)); }
  }

  lemma EarnedStays(cfg: Config, s: System, l: Label)
    requires Enabled(cfg, s, l) && !l.Release?
    ensures Next(cfg, s, l).history == s.history || (l.Write? && Next(cfg, s, l).history == s.history + [Wrote(l.write)])
    ensures Mover(s, l).Some? ==>
      var p := Mover(s, l).value;
      p < |s.procs| == |Next(cfg, s, l).procs| && Earned(Space)(Next(cfg, s, l).procs[p]) == Earned(Space)(s.procs[p])
  {
  }

  /** What the calls of Run told their callers is what the runs of the serial order reclaimed, panicked ones apart. */
  lemma {:induction false} ToldAlways(cfg: Config, w0: World, ls: seq<Label>)
    requires Possible(cfg, Boot(w0), ls)
    ensures var s := State(cfg, Boot(w0), ls);
      Legal(cfg, w0, s.history) && Sum(s.procs, Earned(Space)) == Told(cfg, w0, s.history)
    decreases |ls|
  {
    EveryScheduleIsSerial(cfg, w0, ls);
    if |ls| > 0 {
      var n := |ls| - 1;
      ToldAlways(cfg, w0, ls[..n]);
      EveryScheduleIsSerial(cfg, w0, ls[..n]);
      ToldStep(cfg, w0, State(cfg, Boot(w0), ls[..n]), ls[n]);
    }
  }

  lemma OwedIsNotNegative(procs: seq<Proc>)
    ensures 0 <= Sum(procs, Owed(Space))
  {
    forall i | 0 <= i < |procs| ensures 0 <= Owed(Space)(procs[i]) {
      assert Owed(Space)(procs[i]) == Earned(Space)(procs[i]) - Added(Space)(procs[i]);
      assert HasReceipt(procs[i]) ==> 0 <= OfResult(Space, procs[i].receipt.result);
    }
    SumNonNegative(procs, Owed(Space));
  }

  lemma {:induction false} LostIsNotNegative(cfg: Config, w: World, h: seq<Event>)
    requires Legal(cfg, w, h)
    ensures 0 <= Lost(cfg, w, h)
    decreases |h|
  {
    if |h| > 0 { LostIsNotNegative(cfg, w, h[..|h| - 1]); }
  }

  // ---- inside a run ----

  /** The run has come to its truncation loop, or past it. */
  predicate HasSwept(job: Job) {
    match job.phase
    case Discovering => false
    case Scanning => false
    case Releasing(ending) => !ending.DiscoverFailed?
    case _ => true
  }

  predicate HasScanned(job: Job) { HasSwept(job) || job.phase.Scanning? }

  /** What the run has reclaimed so far. */
  function ReclaimedSoFar(job: Job): int { if HasSwept(job) then job.sweep.reclaimed else 0 }

  /** What it has freed so far without counting it. */
  function GapSoFar(job: Job): int {
    if HasSwept(job) && |job.env.acts| <= |job.sweep.all| then Gap(job.env.acts, job.sweep.all) else 0
  }

  /** What has been appended since it took the lock. */
  function AppendedSoFar(job: Job): int {
    (if HasScanned(job) then BytesIn(ProbeWrites(job.env.probes)) else 0)
    + (if HasSwept(job) then BytesIn(ActsWrites(job.env.acts)) else 0)
    + (if job.phase.Sweeping? && job.phase.half.Some? then BytesIn(job.phase.half.value.tick.writes) else 0)
    + BytesIn(job.pending)
  }

  lemma ScanBytes(cfg: Config, job: Job)
    requires ScanOk(cfg, job)
    ensures TotalBytes(job.scan.files) == TotalBytes(job.base.files) + BytesIn(ProbeWrites(job.env.probes))
  {
    ScanCounts(cfg, job.env.paths.value, job.env.probes, StartScan(job.base));
    TotalWritten(job.base.files, ProbeWrites(job.env.probes));
  }

  lemma SweepBytes(cfg: Config, job: Job)
    requires SweepOk(cfg, job)
    ensures TotalBytes(job.sweep.files) + job.sweep.reclaimed + Gap(job.env.acts, job.sweep.all)
      == TotalBytes(job.base.files) + BytesIn(ProbeWrites(job.env.probes)) + BytesIn(ActsWrites(job.env.acts))
    ensures 0 <= Gap(job.env.acts, job.sweep.all)
  {
    ScanBytes(cfg, job);
    ScanCounts(cfg, job.env.paths.value, job.env.probes, StartScan(job.base));
    SweepConserves(cfg, job.env.acts, StartSweep(cfg, job.scan, job.env.order));
    GapNonNegative(job.env.acts, job.sweep.all);
  }

  lemma HalfBytes(job: Job)
    requires job.phase.Sweeping? && job.phase.half.Some?
    ensures TotalBytes(WrittenAll(job.sweep.files, job.phase.half.value.tick.writes))
      == TotalBytes(job.sweep.files) + BytesIn(job.phase.half.value.tick.writes)
  {
    TotalWritten(job.sweep.files, job.phase.half.value.tick.writes);
  }

  /** The files under a running job, before the appends since its last system call. */
  function FilesUnder(job: Job): Files {
    if HasSwept(job) then
      if job.phase.Sweeping? && job.phase.half.Some?
      then WrittenAll(job.sweep.files, job.phase.half.value.tick.writes) else job.sweep.files
    else if HasScanned(job) then job.scan.files
    else job.base.files
  }

  lemma JobFiles(cfg: Config, w: World, job: Job)
    requires JobOk(cfg, w, job)
    ensures w.files == WrittenAll(FilesUnder(job), job.pending)
    ensures HasScanned(job) ==> ScanOk(cfg, job)
    ensures HasSwept(job) ==> SweepOk(cfg, job)
  {
  }

  /** Bytes are conserved at every moment of a run. */
  lemma JobConserves(cfg: Config, w: World, job: Job)
    requires JobOk(cfg, w, job)
    ensures TotalBytes(w.files) + ReclaimedSoFar(job) + GapSoFar(job) == TotalBytes(job.base.files) + AppendedSoFar(job)
    ensures 0 <= ReclaimedSoFar(job) && 0 <= GapSoFar(job)
  {
    JobFiles(cfg, w, job);
    TotalWritten(FilesUnder(job), job.pending);
    if HasSwept(job) {
      SweepBytes(cfg, job);
      if job.phase.Sweeping? && job.phase.half.Some? { HalfBytes(job); }
    } else if HasScanned(job) {
      ScanBytes(cfg, job);
    }
  }

  /** The run that holds the lock, if one does. */
  function Inside(s: System): Option<Job> {
    if s.lock.ByRun? && InRun(s, s.lock.pid) then Some(s.procs[s.lock.pid].job) else None
  }

  function InsideReclaimed(s: System): int {
    match Inside(s)
    case None => 0
    case Some(job) => ReclaimedSoFar(job)
  }

  function InsideGap(s: System): int {
    match Inside(s)
    case None => 0
    case Some(job) => GapSoFar(job)
  }

  function InsideAppended(s: System): int {
    match Inside(s)
    case None => 0
    case Some(job) => AppendedSoFar(job)
  }

  lemma InsideConserves(cfg: Config, w0: World, s: System)
    requires SerialInv(cfg, w0, s)
    ensures TotalBytes(s.world.files) + InsideReclaimed(s) + InsideGap(s)
      == TotalBytes(Replay(cfg, w0, s.history).files) + InsideAppended(s)
    ensures 0 <= InsideReclaimed(s) && 0 <= InsideGap(s)
  {
    if s.lock.ByRun? { JobConserves(cfg, s.world, s.procs[s.lock.pid].job); }
  }

  /**
   At every reachable state the space counter, what is still owed to it and what panicked runs
   reclaimed are together what the finished runs reclaimed. Adding what the run inside has
   reclaimed so far, what was freed without being reported and what is on disk gives what was
   on disk at boot and everything appended since; so the counter never exceeds the bytes that
   have gone.
   */
  lemma SpaceCounterIsFreed(cfg: Config, w0: World, ls: seq<Label>)
    requires Possible(cfg, Boot(w0), ls)
    ensures var s := State(cfg, Boot(w0), ls);
      && Legal(cfg, w0, s.history)
      && s.counters.space + Sum(s.procs, Owed(Space)) + Lost(cfg, w0, s.history) == Reclaimed(cfg, w0, s.history)
      && 0 <= Sum(s.procs, Owed(Space)) && 0 <= Lost(cfg, w0, s.history) && 0 <= Unreported(cfg, w0, s.history)
      && 0 <= InsideReclaimed(s) && 0 <= InsideGap(s)
    ensures var s := State(cfg, Boot(w0), ls);
      var appended := BytesIn(HistoryWrites(s.history)) + InsideAppended(s);
      && TotalBytes(s.world.files) + s.counters.space + Sum(s.procs, Owed(Space)) + Lost(cfg, w0, s.history)
         + Unreported(cfg, w0, s.history) + InsideReclaimed(s) + InsideGap(s) == TotalBytes(w0.files) + appended
      && s.counters.space <= TotalBytes(w0.files) + appended - TotalBytes(s.world.files)
  {
    var s := State(cfg, Boot(w0), ls);
    EveryScheduleIsSerial(cfg, w0, ls);
    ToldAlways(cfg, w0, ls);
    EarnedIsCountedOrOwed(cfg, w0, ls, Space);
    HistoryConserves(cfg, w0, s.history);
    InsideConserves(cfg, w0, s);
    OwedIsNotNegative(s.procs);
    LostIsNotNegative(cfg, w0, s.history);
  }
}
