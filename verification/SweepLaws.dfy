/** What the truncation loop guarantees: which files it touches, what it counts, what it frees. */
module SweepLaws {
  import opened Sums
  import opened LogFiles
  import opened Policies
  import opened Cleanup

  function One(b: bool): int { if b then 1 else 0 }

  function Flagged(e: ContainerLogEntry): int { One(e.wasTruncated) }

  function IsEligible(cfg: Config): ContainerLogEntry -> int { (e: ContainerLogEntry) => One(Eligible(cfg, e)) }

  /** Entries equal in everything but the truncation flag. */
  predicate SameButFlag(a: ContainerLogEntry, b: ContainerLogEntry) { a == b.(wasTruncated := a.wasTruncated) }

  ghost predicate AllSameButFlag(s: seq<ContainerLogEntry>, t: seq<ContainerLogEntry>) {
    |s| == |t| && forall i :: 0 <= i < |s| ==> SameButFlag(s[i], t[i])
  }

  /** The state the loop starts from: nothing flagged, nothing counted, only stat errors. */
  ghost predicate Fresh(s: Sweep) {
    && s.cleaned == 0 && s.reclaimed == 0 && s.log == []
    && (forall i :: 0 <= i < |s.all| ==> !s.all[i].wasTruncated)
    && (forall i :: 0 <= i < |s.errors| ==> s.errors[i].phase == STAT)
  }

  /** Flags are only ever set on eligible entries that have been visited, and never in a dry run. */
  ghost predicate FlagsSound(cfg: Config, n: nat, s: Sweep) {
    forall i :: 0 <= i < |s.all| && s.all[i].wasTruncated ==>
      i < n && Eligible(cfg, s.all[i]) && !cfg.dryRun && Implemented(cfg.mode)
  }

  lemma {:induction false} SweepFlags(cfg: Config, acts: seq<Act>, s: Sweep)
    requires |acts| <= |s.all| && Fresh(s)
    ensures var r := SweepAll(cfg, acts, s);
      AllSameButFlag(r.all, s.all) && FlagsSound(cfg, |acts|, r)
    decreases |acts|
  {
    if |acts| > 0 {
      var n := |acts| - 1;
      SweepFlags(cfg, acts[..n], s);
      var before := SweepAll(cfg, acts[..n], s);
      assert SameButFlag(before.all[n], s.all[n]);
      var a := Apply(cfg.mode, before.files, before.all[n].path, acts[n]);
      if a.reclaimed.Some? { ApplySucceeded(cfg.mode, before.files, before.all[n].path, acts[n]); }
    }
  }

  // ---- counting ----

  lemma {:induction false} SweepCounts(cfg: Config, acts: seq<Act>, s: Sweep)
    requires |acts| <= |s.all| && Fresh(s)
    ensures var r := SweepAll(cfg, acts, s);
      && r.cleaned == Sum(r.all, Flagged)
      && |r.errors| == |s.errors| + Sum(r.errors, InPhase(TRUNCATE))
      && Sum(r.errors, InPhase(STAT)) == |s.errors|
      && (if cfg.dryRun then r.cleaned == 0 && r.reclaimed == 0 && r.errors == s.errors
          else r.cleaned + Sum(r.errors, InPhase(TRUNCATE)) == Sum(s.all[..|acts|], IsEligible(cfg)))
      && (!Implemented(cfg.mode) ==> r.cleaned == 0 && r.reclaimed == 0)
    decreases |acts|
  {
    if |acts| == 0 {
      SumZero(s.all, Flagged);
      SumZero(s.errors, InPhase(TRUNCATE));
      SumOnes(s.errors, InPhase(STAT));
    } else {
      var n := |acts| - 1;
      SweepCounts(cfg, acts[..n], s);
      SweepFlags(cfg, acts[..n], s);
      SweepStepCounts(cfg, acts[n], n, SweepAll(cfg, acts[..n], s), s);
      assert s.all[..n + 1][..n] == s.all[..n];
    }
  }

  lemma SweepStepCounts(cfg: Config, act: Act, n: nat, before: Sweep, s: Sweep)
    requires n < |before.all| && AllSameButFlag(before.all, s.all) && FlagsSound(cfg, n, before)
    ensures var r := SweepStep(cfg, act, n, before);
      var failed := |r.errors| - |before.errors|;
      && Sum(r.all, Flagged) - Sum(before.all, Flagged) == r.cleaned - before.cleaned
      && Sum(r.errors, InPhase(TRUNCATE)) == Sum(before.errors, InPhase(TRUNCATE)) + failed
      && Sum(r.errors, InPhase(STAT)) == Sum(before.errors, InPhase(STAT))
      && (if cfg.dryRun then r.cleaned == before.cleaned && r.reclaimed == before.reclaimed && r.errors == before.errors
          else r.cleaned - before.cleaned + failed == IsEligible(cfg)(s.all[n]))
      && (!Implemented(cfg.mode) ==> r.cleaned == before.cleaned && r.reclaimed == before.reclaimed)
  {
    var e := before.all[n];
    assert SameButFlag(e, s.all[n]);
    SumUpdate(before.all, n, e.(wasTruncated := true), Flagged);
    SumUpdate(before.all, n, e.(wasTruncated := false), Flagged);
    SumSnoc(before.errors, CleanupError(TRUNCATE, e.path), InPhase(TRUNCATE));
    SumSnoc(before.errors, CleanupError(TRUNCATE, e.path), InPhase(STAT));
  }

  // ---- the log ----

  function Handled(log: seq<LogLine>): seq<Path>
    decreases |log|
  {
    if |log| == 0 then []
    else
      var rest, last := Handled(log[..|log| - 1]), log[|log| - 1];
      if last.SkippingExcluded? then rest else rest + [last.path]
  }

  function EligiblePaths(cfg: Config, all: seq<ContainerLogEntry>): seq<Path>
    decreases |all|
  {
    if |all| == 0 then []
    else
      var rest, last := EligiblePaths(cfg, all[..|all| - 1]), all[|all| - 1];
      if Eligible(cfg, last) then rest + [last.path] else rest
  }

  lemma HandledSnoc(log: seq<LogLine>, line: LogLine)
    ensures Handled(log + [line]) == if line.SkippingExcluded? then Handled(log) else Handled(log) + [line.path]
  {
    assert (log + [line])[..|log|] == log;
  }

  ghost predicate DryLog(log: seq<LogLine>) {
    forall i :: 0 <= i < |log| ==> log[i].WouldTruncate? || log[i].SkippingExcluded?
  }

  ghost predicate RealLog(log: seq<LogLine>) {
    forall i :: 0 <= i < |log| ==> !log[i].WouldTruncate?
  }

  lemma SweepStepLog(cfg: Config, act: Act, n: nat, s: Sweep)
    requires n < |s.all|
    ensures var r := SweepStep(cfg, act, n, s);
      && Handled(r.log) == (if Eligible(cfg, s.all[n]) then Handled(s.log) + [s.all[n].path] else Handled(s.log))
      && (cfg.dryRun && DryLog(s.log) ==> DryLog(r.log))
      && (!cfg.dryRun && RealLog(s.log) ==> RealLog(r.log))
  {
    var r := SweepStep(cfg, act, n, s);
    if r.log != s.log {
      var line := r.log[|s.log|];
      assert r.log == s.log + [line];
      HandledSnoc(s.log, line);
    }
  }

  lemma EligiblePathsUpTo(cfg: Config, all: seq<ContainerLogEntry>, n: nat)
    requires n < |all|
    ensures EligiblePaths(cfg, all[..n + 1]) ==
      if Eligible(cfg, all[n]) then EligiblePaths(cfg, all[..n]) + [all[n].path] else EligiblePaths(cfg, all[..n])
  {
    assert all[..n + 1][..n] == all[..n];
  }

  /** In either kind of run the entries acted on are the eligible ones, in sorted order. */
  lemma {:induction false} SweepLog(cfg: Config, acts: seq<Act>, s: Sweep)
    requires |acts| <= |s.all| && Fresh(s)
    ensures var r := SweepAll(cfg, acts, s);
      && Handled(r.log) == EligiblePaths(cfg, s.all[..|acts|])
      && (if cfg.dryRun then DryLog(r.log) else RealLog(r.log))
    decreases |acts|
  {
    if |acts| > 0 {
      var n := |acts| - 1;
      SweepLog(cfg, acts[..n], s);
      SweepFlags(cfg, acts[..n], s);
      var before := SweepAll(cfg, acts[..n], s);
      assert SameButFlag(before.all[n], s.all[n]);
      SweepStepLog(cfg, acts[n], n, before);
      EligiblePathsUpTo(cfg, s.all, n);
    }
  }

  // ---- the files ----

  function ActsWrites(acts: seq<Act>): seq<Append>
    decreases |acts|
  {
    if |acts| == 0 then [] else ActsWrites(acts[..|acts| - 1]) + ActWrites(acts[|acts| - 1])
  }

  /** A run that may not change files: it is dry, or its policy is a stub. */
  predicate HandsOff(cfg: Config) { cfg.dryRun || !Implemented(cfg.mode) }

  ghost predicate Spared(cfg: Config, all: seq<ContainerLogEntry>, path: Path) {
    HandsOff(cfg) || forall i :: 0 <= i < |all| && all[i].path == path ==> !Eligible(cfg, all[i])
  }

  /** `after` holds at `path` what `before` held plus the appends `ws`. */
  ghost predicate OnlyGrew(before: Files, ws: seq<Append>, after: Files, path: Path) {
    && (path in after <==> path in WrittenAll(before, ws))
    && SizeOf(after, path) == SizeOf(before, path) + BytesTo(ws, path)
  }

  lemma OnlyGrewThen(f0: Files, a: seq<Append>, f1: Files, b: seq<Append>, f2: Files, path: Path)
    requires OnlyGrew(f0, a, f1, path) && OnlyGrew(f1, b, f2, path)
    ensures OnlyGrew(f0, a + b, f2, path)
  {
    WrittenAllConcat(f0, a, b);
    SumConcat(a, b, BytesIfTo(path));
    PresentAfter(f1, b, path);
    PresentAfter(WrittenAll(f0, a), b, path);
  }

  /** A path is present after some appends exactly when it was before or one went to it. */
  lemma {:induction false} PresentAfter(files: Files, ws: seq<Append>, path: Path)
    ensures path in WrittenAll(files, ws) <==> path in files || exists i :: 0 <= i < |ws| && ws[i].path == path
    decreases |ws|
  {
    if |ws| > 0 { PresentAfter(files, ws[..|ws| - 1], path); }
  }

  /** A log with no eligible entry is left alone: it holds exactly what was appended to it. */
  lemma {:induction false} SweepSpares(cfg: Config, acts: seq<Act>, s: Sweep, path: Path)
    requires |acts| <= |s.all| && Fresh(s)
    requires Spared(cfg, s.all[..|acts|], path)
    ensures OnlyGrew(s.files, ActsWrites(acts), SweepAll(cfg, acts, s).files, path)
    decreases |acts|
  {
    if |acts| > 0 {
      var n := |acts| - 1;
      assert Spared(cfg, s.all[..n], path) by {
        forall i | 0 <= i < n ensures s.all[..n][i] == s.all[..n + 1][i] {}
      }
      SweepSpares(cfg, acts[..n], s, path);
      SweepFlags(cfg, acts[..n], s);
      var before := SweepAll(cfg, acts[..n], s);
      assert SameButFlag(before.all[n], s.all[n]);
      assert s.all[..n + 1][n] == s.all[n];
      SweepStepSpares(cfg, acts[n], n, before, path);
      OnlyGrewThen(s.files, ActsWrites(acts[..n]), before.files, ActWrites(acts[n]),
        SweepStep(cfg, acts[n], n, before).files, path);
    }
  }

  lemma SweepStepSpares(cfg: Config, act: Act, n: nat, s: Sweep, path: Path)
    requires n < |s.all|
    requires HandsOff(cfg) || s.all[n].path != path || !Eligible(cfg, s.all[n])
    ensures OnlyGrew(s.files, ActWrites(act), SweepStep(cfg, act, n, s).files, path)
  {
    WrittenAllSize(s.files, ActWrites(act), path);
    var a := Apply(cfg.mode, s.files, s.all[n].path, act);
    if a.reclaimed.None? {
      ApplyFailed(cfg.mode, s.files, s.all[n].path, act);
    } else {
      ApplySucceeded(cfg.mode, s.files, s.all[n].path, act);
    }
  }

  /** A run that keeps its hands off leaves exactly the appends, file by file. */
  lemma {:induction false} SweepHandsOff(cfg: Config, acts: seq<Act>, s: Sweep)
    requires |acts| <= |s.all| && HandsOff(cfg)
    ensures SweepAll(cfg, acts, s).files == WrittenAll(s.files, ActsWrites(acts))
    decreases |acts|
  {
    if |acts| > 0 {
      var n := |acts| - 1;
      SweepHandsOff(cfg, acts[..n], s);
      var before := SweepAll(cfg, acts[..n], s);
      WrittenAllConcat(s.files, ActsWrites(acts[..n]), ActWrites(acts[n]));
      if Eligible(cfg, before.all[n]) && !cfg.dryRun {
        ApplyFailed(cfg.mode, before.files, before.all[n].path, acts[n]);
      }
    }
  }

  // ---- conservation ----

  /** Bytes appended to truncated logs between their policy's stat and its change. */
  function Gap(acts: seq<Act>, all: seq<ContainerLogEntry>): int
    requires |acts| <= |all|
    decreases |acts|
  {
    if |acts| == 0 then 0
    else
      var n := |acts| - 1;
      Gap(acts[..n], all) + if all[n].wasTruncated then BytesTo(acts[n].change.writes, all[n].path) else 0
  }

  lemma {:induction false} GapFrame(acts: seq<Act>, all: seq<ContainerLogEntry>, i: nat, e: ContainerLogEntry)
    requires |acts| <= i < |all|
    ensures Gap(acts, all[i := e]) == Gap(acts, all)
    decreases |acts|
  {
    if |acts| > 0 { GapFrame(acts[..|acts| - 1], all, i, e); }
  }

  lemma {:induction false} GapNonNegative(acts: seq<Act>, all: seq<ContainerLogEntry>)
    requires |acts| <= |all|
    ensures 0 <= Gap(acts, all)
    decreases |acts|
  {
    if |acts| > 0 {
      var n := |acts| - 1;
      GapNonNegative(acts[..n], all);
      WrittenAllSize(map[], acts[n].change.writes, all[n].path);
    }
  }

  /** No byte is lost: what is left plus what was freed is what was there plus what was appended. */
  lemma {:induction false} SweepConserves(cfg: Config, acts: seq<Act>, s: Sweep)
    requires |acts| <= |s.all| && Fresh(s)
    ensures var r := SweepAll(cfg, acts, s);
      TotalBytes(r.files) + r.reclaimed + Gap(acts, r.all) == TotalBytes(s.files) + BytesIn(ActsWrites(acts))
    decreases |acts|
  {
    if |acts| > 0 {
      var n := |acts| - 1;
      SweepConserves(cfg, acts[..n], s);
      SweepFlags(cfg, acts[..n], s);
      var before := SweepAll(cfg, acts[..n], s);
      SumConcat(ActsWrites(acts[..n]), ActWrites(acts[n]), BytesOf);
      SweepStepConserves(cfg, acts[n], n, before);
      var r := SweepStep(cfg, acts[n], n, before);
      GapFrame(acts[..n], before.all, n, r.all[n]);
      assert r.all == before.all[n := r.all[n]];
    }
  }

  lemma SweepStepConserves(cfg: Config, act: Act, n: nat, s: Sweep)
    requires n < |s.all| && !s.all[n].wasTruncated
    ensures var r := SweepStep(cfg, act, n, s);
      TotalBytes(r.files) + r.reclaimed
        + (if r.all[n].wasTruncated then BytesTo(act.change.writes, r.all[n].path) else 0)
      == TotalBytes(s.files) + s.reclaimed + BytesIn(ActWrites(act))
  {
    TotalWritten(s.files, ActWrites(act));
    var a := Apply(cfg.mode, s.files, s.all[n].path, act);
    if a.reclaimed.None? {
      ApplyFailed(cfg.mode, s.files, s.all[n].path, act);
    } else {
      ApplySucceeded(cfg.mode, s.files, s.all[n].path, act);
    }
  }

  // ---- a lower bound on what is reclaimed ----

  function FlaggedSize(e: ContainerLogEntry): int { if e.wasTruncated then e.size else 0 }

  ghost predicate DistinctLogs(all: seq<ContainerLogEntry>) {
    forall i, j :: 0 <= i < j < |all| ==> all[i].path != all[j].path
  }

  /** Entries from n on are on disk and at least as large as they were when discovered. */
  ghost predicate StillThere(all: seq<ContainerLogEntry>, files: Files, n: nat) {
    forall i :: n <= i < |all| ==> all[i].path in files && all[i].size <= files[all[i].path]
  }

  lemma {:induction false} SweepReclaims(cfg: Config, acts: seq<Act>, s: Sweep)
    requires |acts| <= |s.all| && Fresh(s) && DistinctLogs(s.all) && StillThere(s.all, s.files, 0)
    ensures var r := SweepAll(cfg, acts, s);
      Sum(r.all, FlaggedSize) <= r.reclaimed && StillThere(s.all, r.files, |acts|)
    decreases |acts|
  {
    if |acts| == 0 {
      SumZero(s.all, FlaggedSize);
    } else {
      var n := |acts| - 1;
      SweepReclaims(cfg, acts[..n], s);
      SweepFlags(cfg, acts[..n], s);
      var before := SweepAll(cfg, acts[..n], s);
      assert SameButFlag(before.all[n], s.all[n]);
      assert before.all[n].path in before.files;
      SweepStepReclaims(cfg, acts[n], n, before);
      forall i | n < i < |s.all|
        ensures s.all[i].path in SweepStep(cfg, acts[n], n, before).files
        ensures s.all[i].size <= SweepStep(cfg, acts[n], n, before).files[s.all[i].path]
      {
        SweepStepSpares(cfg, acts[n], n, before, s.all[i].path);
        WrittenAllSize(before.files, ActWrites(acts[n]), s.all[i].path);
      }
    }
  }

  lemma SweepStepReclaims(cfg: Config, act: Act, n: nat, s: Sweep)
    requires n < |s.all| && !s.all[n].wasTruncated
    requires s.all[n].path in s.files && s.all[n].size <= s.files[s.all[n].path]
    ensures var r := SweepStep(cfg, act, n, s);
      Sum(r.all, FlaggedSize) - Sum(s.all, FlaggedSize) <= r.reclaimed - s.reclaimed
  {
    var e := s.all[n];
    SumUpdate(s.all, n, e.(wasTruncated := true), FlaggedSize);
    SumUpdate(s.all, n, e.(wasTruncated := false), FlaggedSize);
    WrittenAllSize(s.files, act.stat.writes, e.path);
    var a := Apply(cfg.mode, s.files, e.path, act);
    if a.reclaimed.Some? { ApplySucceeded(cfg.mode, s.files, e.path, act); }
  }
}
