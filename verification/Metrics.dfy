/** internal/metrics/prometheus.go: RecordRun on the registry object. */
module Metrics {
  import opened Sums
  import opened Cleanup
  import opened Agent

  function Get(m: map<string, int>, key: string): int { if key in m then m[key] else 0 }

  /** Counter by counter, the counts of these keys added. */
  function Plus(m: map<string, int>, counts: map<string, int>, added: set<string>): map<string, int>
    requires added <= counts.Keys
  {
    map p | p in m.Keys + added :: Get(m, p) + (if p in added then counts[p] else 0)
  }

  lemma PlusOne(m: map<string, int>, counts: map<string, int>, added: set<string>, p: string)
    requires added <= counts.Keys && p in counts && p !in added
    ensures var now := Plus(m, counts, added);
      now[p := Get(now, p) + counts[p]] == Plus(m, counts, added + {p})
  {
  }

  /** phaseCounts: how many errors name each phase. */
  function CountsOf(errors: seq<CleanupError>): map<string, int> {
    map p | p in (set e | e in errors :: e.phase) :: Sum(errors, InPhase(p))
  }

  function PhaseCounts(r: Result): (counts: map<string, int>)
    ensures counts.Keys == PhasesOf(r)
  {
    CountsOf(r.errors)
  }

  lemma CountsSnoc(errors: seq<CleanupError>, e: CleanupError)
    ensures CountsOf(errors + [e]) == CountsOf(errors)[e.phase := Get(CountsOf(errors), e.phase) + 1]
  {
    var before, after := CountsOf(errors), CountsOf(errors + [e]);
    assert after.Keys == before.Keys + {e.phase};
    forall p | p in after ensures after[p] == before[e.phase := Get(before, e.phase) + 1][p] {
      SumSnoc(errors, e, InPhase(p));
      if p !in before { SumZero(errors, InPhase(p)); }
    }
  }

  /** The counters after an undisturbed RecordRun. */
  function Recorded(c: Counters, r: Result): Counters {
    Counters(
      if r.dryRun then c.runsReal else c.runsReal + 1, if r.dryRun then c.runsDry + 1 else c.runsDry,
      c.logs + r.logsCleaned, c.space + r.reclaimed, Plus(c.failures, PhaseCounts(r), PhasesOf(r)),
      r.durationMs, r.reclaimed, c.selfDuration)
  }

  /** The run under its label, the two totals, the two gauges, and each phase by the number of its errors. */
  ghost predicate RecordedTells(before: Counters, r: Result, after: Counters) {
    && after.runsDry == (if r.dryRun then before.runsDry + 1 else before.runsDry)
    && after.runsReal == (if r.dryRun then before.runsReal else before.runsReal + 1)
    && after.logs == before.logs + r.logsCleaned && after.space == before.space + r.reclaimed
    && after.lastDuration == r.durationMs && after.lastSpace == r.reclaimed
    && after.selfDuration == before.selfDuration
    && forall phase :: FailuresOf(after, phase) ==
         FailuresOf(before, phase) + |set i: nat | i < |r.errors| && r.errors[i].phase == phase|
  }

  lemma RecordedIs(c: Counters, r: Result)
    ensures RecordedTells(c, r, Recorded(c, r))
  {
    forall phase
      ensures FailuresOf(Recorded(c, r), phase) ==
        FailuresOf(c, phase) + |set i: nat | i < |r.errors| && r.errors[i].phase == phase|
    {
      SumCounts(r.errors, InPhase(phase), set i: nat | i < |r.errors| && r.errors[i].phase == phase);
      if phase !in PhasesOf(r) { AbsentPhase(r, phase); }
    }
  }

  // ---- the small steps of the state machine add up to RecordRun ----

  /** The failure steps of a reporting pipeline, in the order the phases come. */
  function AddPhases(c: Counters, r: Result, phases: seq<string>): Counters
    decreases |phases|
  {
    if |phases| == 0 then c
    else
      var n := |phases| - 1;
      Counted(AddPhases(c, r, phases[..n]), r, AddFailures({phases[n]}), phases[n])
  }

  ghost predicate Listing(phases: seq<string>, all: set<string>) {
    && (forall i, j :: 0 <= i < j < |phases| ==> phases[i] != phases[j])
    && (forall p :: p in phases <==> p in all)
  }

  lemma ListingPrefix(phases: seq<string>, all: set<string>)
    requires Listing(phases, all) && |phases| > 0
    ensures var n := |phases| - 1;
      Listing(phases[..n], all - {phases[n]}) && phases[n] in all
  {
    var n := |phases| - 1;
    assert phases[n] in phases;
    forall p ensures p in phases[..n] <==> p in all - {phases[n]} {
      if p in phases[..n] {
        var i :| 0 <= i < n && phases[..n][i] == p;
        assert phases[i] == p;
      }
      if p in all - {phases[n]} {
        assert p in phases;
        var i :| 0 <= i < |phases| && phases[i] == p;
        assert phases[..n][i] == p;
      }
    }
  }

  lemma {:induction false} PhasesAddUp(c: Counters, r: Result, phases: seq<string>, all: set<string>)
    requires Listing(phases, all) && all <= PhasesOf(r)
    ensures AddPhases(c, r, phases) == c.(failures := Plus(c.failures, PhaseCounts(r), all))
    decreases |phases|
  {
    if |phases| == 0 {
      assert all == {} by { forall p ensures p !in all { assert p !in phases; } }
      assert Plus(c.failures, PhaseCounts(r), {}) == c.failures;
    } else {
      var n := |phases| - 1;
      ListingPrefix(phases, all);
      PhasesAddUp(c, r, phases[..n], all - {phases[n]});
      PlusOne(c.failures, PhaseCounts(r), all - {phases[n]}, phases[n]);
      assert all - {phases[n]} + {phases[n]} == all;
    }
  }

  /**
   The small steps of a reporting pipeline that nobody interrupts add up to RecordRun,
   whatever the order in which the map of phases is iterated.
   */
  lemma StepsAddUpToRecordRun(c: Counters, r: Result, phases: seq<string>, any: string)
    requires Listing(phases, PhasesOf(r))
    ensures var c1 := Counted(c, r, IncRuns, any);
      var c2 := Counted(c1, r, AddLogs, any);
      var c3 := Counted(c2, r, AddSpace, any);
      var c4 := Counted(c3, r, SetGauges, any);
      AddPhases(c4, r, phases) == Recorded(c, r)
  {
    var c4 := Counted(Counted(Counted(Counted(c, r, IncRuns, any), r, AddLogs, any), r, AddSpace, any), r, SetGauges, any);
    PhasesAddUp(c4, r, phases, PhasesOf(r));
  }

  /** The registry object. */
  class Registry {
    var counters: Counters

    constructor ()
      ensures counters == Counters(0, 0, 0, 0, map[], 0, 0, 0)
    {
      counters := Counters(0, 0, 0, 0, map[], 0, 0, 0);
    }

    /** phaseCounts, one increment per error. */
    static method CountPhases(r: Result) returns (counts: map<string, int>)
      ensures counts == PhaseCounts(r)
    {
      counts := map[];
      for i := 0 to |r.errors|
        invariant counts == CountsOf(r.errors[..i])
      {
        var phase := r.errors[i].phase;
        CountsSnoc(r.errors[..i], r.errors[i]);
        assert r.errors[..i + 1] == r.errors[..i] + [r.errors[i]];
        counts := counts[phase := Get(counts, phase) + 1];
      }
      assert r.errors[..|r.errors|] == r.errors;
    }

    /** for phase, count := range phaseCounts, in any order */
    static method AddCounts(failures: map<string, int>, counts: map<string, int>) returns (after: map<string, int>)
      ensures after == Plus(failures, counts, counts.Keys)
    {
      after := failures;
      var left := counts.Keys;
      while left != {}
        invariant left <= counts.Keys
        invariant after == Plus(failures, counts, counts.Keys - left)
        decreases left
      {
        var p :| p in left;
        PlusOne(failures, counts, counts.Keys - left, p);
        assert counts.Keys - left + {p} == counts.Keys - (left - {p});
        after := after[p := Get(after, p) + counts[p]];
        left := left - {p};
      }
      assert counts.Keys - {} == counts.Keys;
    }

    /** RecordRun */
    method RecordRun(r: Result)
      modifies this
      ensures counters == Recorded(old(counters), r)
      ensures RecordedTells(old(counters), r, counters)
    {
      RecordedIs(counters, r);
      if r.dryRun {
        counters := counters.(runsDry := counters.runsDry + 1);
      } else {
        counters := counters.(runsReal := counters.runsReal + 1);
      }
      counters := counters.(logs := counters.logs + r.logsCleaned);
      counters := counters.(space := counters.space + r.reclaimed);
      counters := counters.(lastDuration := r.durationMs);
      counters := counters.(lastSpace := r.reclaimed);
      var counts := CountPhases(r);
      var failures := AddCounts(counters.failures, counts);
      assert counts.Keys == PhasesOf(r);
      counters := counters.(failures := failures);
    }
  }
}
