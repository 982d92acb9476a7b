/** After Run has returned a result: the steps of a reporting pipeline, taken through the machine. */
module Reporting {
  import opened Sums
  import opened Cleanup
  import opened Agent
  import opened Serial
  import opened AgentBooks
  import opened AgentLaws
  import Metrics

  /** The pipeline at a stage, with the counters as given, in a system otherwise the same. */
  function At(s: System, p: nat, proc: Proc, c: Counters): System
    requires p < |s.procs|
  {
    SetProc(s, p, proc).(counters := c)
  }

  /** These labels can follow, and lead there. */
  ghost predicate Leads(cfg: Config, s: System, ls: seq<Label>, t: System) {
    Possible(cfg, s, ls) && State(cfg, s, ls) == t
  }

  lemma LeadsOn(cfg: Config, s: System, ls: seq<Label>, t: System, p: nat, phase: string) returns (more: seq<Label>)
    requires Leads(cfg, s, ls, t) && Enabled(cfg, t, Advance(p, phase))
    requires forall i :: 0 <= i < |ls| ==> ls[i].Advance? && ls[i].p == p
    ensures Leads(cfg, s, more, DoAdvance(t, p, phase)) && |more| == |ls| + 1
    ensures forall i :: 0 <= i < |more| ==> more[i].Advance? && more[i].p == p
  {
    var t';
    more, t' := Extend(cfg, s, ls, Advance(p, phase));
  }

  /** The failure steps, in the order the phases come. */
  lemma {:induction false} PhasesLead(cfg: Config, s: System, ls: seq<Label>, p: nat, receipt: Receipt, c: Counters,
                                      phases: seq<string>, n: nat) returns (more: seq<Label>)
    requires p < |s.procs| && n <= |phases| && Metrics.Listing(phases, PhasesOf(receipt.result))
    requires Leads(cfg, s, ls, At(s, p, Reporting(receipt, AddFailures(PhasesOf(receipt.result))), c))
    requires forall i :: 0 <= i < |ls| ==> ls[i].Advance? && ls[i].p == p
    ensures Leads(cfg, s, more, At(s, p, Reporting(receipt, AddFailures(PhasesOf(receipt.result) - Taken(phases, n))),
      Metrics.AddPhases(c, receipt.result, phases[..n])))
    ensures |more| == |ls| + n && forall i :: 0 <= i < |more| ==> more[i].Advance? && more[i].p == p
    decreases n
  {
    if n == 0 {
      more := ls;
      assert PhasesOf(receipt.result) - Taken(phases, 0) == PhasesOf(receipt.result);
    } else {
      more := PhasesLead(cfg, s, ls, p, receipt, c, phases, n - 1);
      var left := PhasesOf(receipt.result) - Taken(phases, n - 1);
      var before := Metrics.AddPhases(c, receipt.result, phases[..n - 1]);
      StillLeft(phases, PhasesOf(receipt.result), n - 1);
      more := TakePhase(cfg, s, more, p, receipt, before, left, phases[n - 1]);
      assert phases[..n][..n - 1] == phases[..n - 1];
    }
  }

  function Taken(phases: seq<string>, n: nat): set<string>
    requires n <= |phases|
  {
    set i | 0 <= i < n :: phases[i]
  }

  lemma StillLeft(phases: seq<string>, all: set<string>, n: nat)
    requires Metrics.Listing(phases, all) && n < |phases|
    ensures phases[n] in all - Taken(phases, n)
    ensures all - Taken(phases, n + 1) == all - Taken(phases, n) - {phases[n]}
  {
    assert phases[n] in phases;
  }

  lemma PhaseStep(s: System, p: nat, receipt: Receipt, c: Counters, left: set<string>, phase: string)
    requires p < |s.procs| && phase in left
    ensures DoAdvance(At(s, p, Reporting(receipt, AddFailures(left)), c), p, phase)
      == At(s, p, Reporting(receipt, AddFailures(left - {phase})), Counted(c, receipt.result, AddFailures({phase}), phase))
  {
  }

  lemma TakePhase(cfg: Config, s: System, ls: seq<Label>, p: nat, receipt: Receipt, c: Counters, left: set<string>,
                  phase: string) returns (more: seq<Label>)
    requires p < |s.procs| && phase in left && Leads(cfg, s, ls, At(s, p, Reporting(receipt, AddFailures(left)), c))
    requires forall i :: 0 <= i < |ls| ==> ls[i].Advance? && ls[i].p == p
    ensures Leads(cfg, s, more, At(s, p, Reporting(receipt, AddFailures(left - {phase})),
      Counted(c, receipt.result, AddFailures({phase}), phase)))
    ensures |more| == |ls| + 1 && forall i :: 0 <= i < |more| ==> more[i].Advance? && more[i].p == p
  {
    PhaseStep(s, p, receipt, c, left, phase);
    more := LeadsOn(cfg, s, ls, At(s, p, Reporting(receipt, AddFailures(left)), c), p, phase);
  }

  lemma SimpleStep(s: System, p: nat, receipt: Receipt, c: Counters, stage: Stage, phase: string)
    requires p < |s.procs| && !stage.AddFailures?
    ensures DoAdvance(At(s, p, Reporting(receipt, stage), c), p, phase)
      == At(s, p, Advanced(receipt, stage, phase), Counted(c, receipt.result, stage, phase))
  {
  }

  lemma TakeStep(cfg: Config, s: System, ls: seq<Label>, p: nat, receipt: Receipt, c: Counters, stage: Stage)
    returns (more: seq<Label>)
    requires p < |s.procs| && !stage.AddFailures? && Leads(cfg, s, ls, At(s, p, Reporting(receipt, stage), c))
    requires forall i :: 0 <= i < |ls| ==> ls[i].Advance? && ls[i].p == p
    ensures Leads(cfg, s, more, At(s, p, Advanced(receipt, stage, ""), Counted(c, receipt.result, stage, "")))
    ensures |more| == |ls| + 1 && forall i :: 0 <= i < |more| ==> more[i].Advance? && more[i].p == p
  {
    SimpleStep(s, p, receipt, c, stage, "");
    more := LeadsOn(cfg, s, ls, At(s, p, Reporting(receipt, stage), c), p, "");
  }

  /** From the first counter of RecordRun to the failures. */
  lemma CountersLead(cfg: Config, s: System, p: nat, receipt: Receipt) returns (ls: seq<Label>)
    requires p < |s.procs| && s.procs[p] == Reporting(receipt, IncRuns)
    ensures |ls| == 4 && forall i :: 0 <= i < |ls| ==> ls[i].Advance? && ls[i].p == p
    ensures Leads(cfg, s, ls, At(s, p, Reporting(receipt, AddFailures(PhasesOf(receipt.result))), FourCounters(s.counters, receipt.result)))
  {
    var r, c := receipt.result, s.counters;
    assert Leads(cfg, s, [], s) && At(s, p, Reporting(receipt, IncRuns), c) == s;
    ls := TakeStep(cfg, s, [], p, receipt, c, IncRuns);
    ls := TakeStep(cfg, s, ls, p, receipt, Counted(c, r, IncRuns, ""), AddLogs);
    ls := TakeStep(cfg, s, ls, p, receipt, Counted(Counted(c, r, IncRuns, ""), r, AddLogs, ""), AddSpace);
    ls := TakeStep(cfg, s, ls, p, receipt, Counted(Counted(Counted(c, r, IncRuns, ""), r, AddLogs, ""), r, AddSpace, ""), SetGauges);
  }

  function FourCounters(c: Counters, r: Result): Counters {
    Counted(Counted(Counted(Counted(c, r, IncRuns, ""), r, AddLogs, ""), r, AddSpace, ""), r, SetGauges, "")
  }

  /**
   Whatever the others have done before, the steps of one reporting pipeline alone lead it from
   the first counter to the analysis, in any order of the phases, and then the counters are
   those that RecordRun leaves: no step of RecordRun can be missed.
   */
  lemma ReportsFully(cfg: Config, s: System, p: nat, receipt: Receipt, phases: seq<string>) returns (ls: seq<Label>)
    requires p < |s.procs| && s.procs[p] == Reporting(receipt, IncRuns)
    requires Metrics.Listing(phases, PhasesOf(receipt.result))
    ensures forall i :: 0 <= i < |ls| ==> ls[i].Advance? && ls[i].p == p
    ensures |ls| == 5 + |phases| && Possible(cfg, s, ls)
    ensures var t := State(cfg, s, ls);
      && t == SetProc(s, p, Reporting(receipt, Analysing)).(counters := t.counters)
      && t.counters == Metrics.Recorded(s.counters, receipt.result)
      && Metrics.RecordedTells(s.counters, receipt.result, t.counters)
  {
    var r, n := receipt.result, |phases|;
    ls := CountersLead(cfg, s, p, receipt);
    ls := PhasesLead(cfg, s, ls, p, receipt, FourCounters(s.counters, r), phases, n);
    assert phases[..n] == phases;
    NoneLeft(phases, PhasesOf(r));
    var c := Metrics.AddPhases(FourCounters(s.counters, r), r, phases);
    LastStep(s, p, receipt, c);
    ls := LeadsOn(cfg, s, ls, At(s, p, Reporting(receipt, AddFailures({})), c), p, "");
    Metrics.StepsAddUpToRecordRun(s.counters, r, phases, "");
    Metrics.RecordedIs(s.counters, r);
  }

  lemma NoneLeft(phases: seq<string>, all: set<string>)
    requires Metrics.Listing(phases, all)
    ensures all - Taken(phases, |phases|) == {}
  {
    forall x | x in all ensures x in Taken(phases, |phases|) { assert x in phases; }
  }

  lemma LastStep(s: System, p: nat, receipt: Receipt, c: Counters)
    requires p < |s.procs|
    ensures DoAdvance(At(s, p, Reporting(receipt, AddFailures({})), c), p, "") == At(s, p, Reporting(receipt, Analysing), c)
  {
  }

  // ---- over every schedule ----

  /** A step of this pipeline after which the gauges show these values. */
  ghost predicate SetGaugesAt(cfg: Config, s: System, ls: seq<Label>, n: nat, p: nat, r: Result)
    requires Possible(cfg, s, ls) && n < |ls|
  {
    && ls[n].Advance? && ls[n].p == p
    && Possible(cfg, s, ls[..n + 1])
    && var c := State(cfg, s, ls[..n + 1]).counters;
      c.lastDuration == r.durationMs && c.lastSpace == r.reclaimed
  }

  /** A step of this pipeline after which the self-monitor shows this duration. */
  ghost predicate SetDurationAt(cfg: Config, s: System, ls: seq<Label>, n: nat, p: nat, r: Result)
    requires Possible(cfg, s, ls) && n < |ls|
  {
    && ls[n].Advance? && ls[n].p == p
    && Possible(cfg, s, ls[..n + 1])
    && State(cfg, s, ls[..n + 1]).counters.selfDuration == r.durationMs
  }

  /** A receipt stays with its pipeline, and the pipeline moves on one stage at a time. */
  lemma StageByStage(cfg: Config, s: System, l: Label, p: nat)
    requires Enabled(cfg, s, l) && p < |Next(cfg, s, l).procs| && HasReceipt(Next(cfg, s, l).procs[p])
    ensures var after := Next(cfg, s, l).procs[p];
      if p < |s.procs| && HasReceipt(s.procs[p]) then
        && s.procs[p].receipt == after.receipt
        && (ProgressOf(after) == ProgressOf(s.procs[p]) || (
              && l.Advance? && l.p == p && s.procs[p].Reporting?
              && ProgressOf(after) <= ProgressOf(s.procs[p]) + 1
              && Next(cfg, s, l) == DoAdvance(s, p, l.phase)))
      else ProgressOf(after) == 0
  {
    if Walker(l).Some? { WalkFrame(cfg, s, l); }
  }

  /** In every schedule a pipeline past the gauges has itself set both to the values of its result. */
  lemma {:induction false} GaugesWereSet(cfg: Config, w0: World, ls: seq<Label>, p: nat) returns (n: nat)
    requires Possible(cfg, Boot(w0), ls)
    requires var procs := State(cfg, Boot(w0), ls).procs; p < |procs| && HasReceipt(procs[p]) && ProgressOf(procs[p]) > 4
    ensures n < |ls| && SetGaugesAt(cfg, Boot(w0), ls, n, p, State(cfg, Boot(w0), ls).procs[p].receipt.result)
    decreases |ls|
  {
    var last := |ls| - 1;
    var s := State(cfg, Boot(w0), ls[..last]);
    StageByStage(cfg, s, ls[last], p);
    if ProgressOf(s.procs[p]) > 4 {
      n := GaugesWereSet(cfg, w0, ls[..last], p);
      assert ls[..last][..n + 1] == ls[..n + 1];
    } else {
      n := last;
      assert ls[..n + 1] == ls;
    }
  }

  /** And one past the first step has itself set the self-monitor's duration. */
  lemma {:induction false} DurationWasSet(cfg: Config, w0: World, ls: seq<Label>, p: nat) returns (n: nat)
    requires Possible(cfg, Boot(w0), ls)
    requires var procs := State(cfg, Boot(w0), ls).procs; p < |procs| && HasReceipt(procs[p]) && ProgressOf(procs[p]) > 0
    ensures n < |ls| && SetDurationAt(cfg, Boot(w0), ls, n, p, State(cfg, Boot(w0), ls).procs[p].receipt.result)
    decreases |ls|
  {
    var last := |ls| - 1;
    var s := State(cfg, Boot(w0), ls[..last]);
    StageByStage(cfg, s, ls[last], p);
    if ProgressOf(s.procs[p]) > 0 {
      n := DurationWasSet(cfg, w0, ls[..last], p);
      assert ls[..last][..n + 1] == ls[..n + 1];
    } else {
      n := last;
      assert ls[..n + 1] == ls;
    }
  }
}
