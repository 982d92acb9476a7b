/**
 Serial histories: accepted calls of Run executed one after another, with appends between
 them, and the theorems that hold over all of them.
 */
module History {
  import opened Sums
  import opened LogFiles
  import opened Tables
  import opened Cleanup
  import opened SweepLaws
  import opened RunLaws

  datatype Event = Wrote(write: Append) | Ran(env: Env)

  ghost predicate EventFits(cfg: Config, w: World, e: Event) { e.Ran? ==> Fits(cfg, w, e.env) }

  ghost function After(cfg: Config, w: World, e: Event): World
    requires EventFits(cfg, w, e)
  {
    if e.Wrote? then w.(files := Written(w.files, e.write)) else Run(cfg, w, e.env).world
  }

  /** Every run meets an environment of the right shape in the world it starts from. */
  ghost predicate Legal(cfg: Config, w: World, h: seq<Event>)
    decreases |h|, 0
  {
    |h| == 0 ||
    (Legal(cfg, w, h[..|h| - 1]) && EventFits(cfg, Replay(cfg, w, h[..|h| - 1]), h[|h| - 1]))
  }

  /** The world after the history. */
  ghost function Replay(cfg: Config, w: World, h: seq<Event>): World
    requires Legal(cfg, w, h)
    decreases |h|, 1
  {
    if |h| == 0 then w else After(cfg, Replay(cfg, w, h[..|h| - 1]), h[|h| - 1])
  }

  lemma ReplaySnoc(cfg: Config, w: World, h: seq<Event>, e: Event)
    requires Legal(cfg, w, h) && EventFits(cfg, Replay(cfg, w, h), e)
    ensures Legal(cfg, w, h + [e])
    ensures Replay(cfg, w, h + [e]) == After(cfg, Replay(cfg, w, h), e)
  {
    assert (h + [e])[..|h|] == h;
  }

  lemma {:induction false} LegalPrefix(cfg: Config, w: World, h: seq<Event>, k: nat)
    requires Legal(cfg, w, h) && k <= |h|
    ensures Legal(cfg, w, h[..k])
    ensures k < |h| ==> EventFits(cfg, Replay(cfg, w, h[..k]), h[k])
    decreases |h|
  {
    if k == |h| {
      assert h[..k] == h;
    } else if k < |h| - 1 {
      LegalPrefix(cfg, w, h[..|h| - 1], k);
      assert h[..|h| - 1][..k] == h[..k];
    }
  }

  function Writes(ws: seq<Append>): (h: seq<Event>)
    ensures |h| == |ws|
    ensures forall i :: 0 <= i < |h| ==> h[i] == Wrote(ws[i])
  {
    seq(|ws|, i requires 0 <= i < |ws| => Wrote(ws[i]))
  }

  /** Appends after the last event. */
  lemma {:induction false} ReplayWrites(cfg: Config, w: World, h: seq<Event>, ws: seq<Append>)
    requires Legal(cfg, w, h)
    ensures Legal(cfg, w, h + Writes(ws))
    ensures Replay(cfg, w, h + Writes(ws)) ==
      Replay(cfg, w, h).(files := WrittenAll(Replay(cfg, w, h).files, ws))
    decreases |ws|
  {
    if |ws| == 0 {
      assert h + Writes(ws) == h;
    } else {
      var n := |ws| - 1;
      ReplayWrites(cfg, w, h, ws[..n]);
      ReplaySnoc(cfg, w, h + Writes(ws[..n]), Wrote(ws[n]));
      assert h + Writes(ws) == h + Writes(ws[..n]) + [Wrote(ws[n])];
    }
  }

  // ---- the books, over every history ----

  /** From empty tables, or any tables in order, every history keeps the books. */
  lemma {:induction false} HistoryKeepsBooks(cfg: Config, w: World, h: seq<Event>)
    requires Legal(cfg, w, h) && Books(w.db)
    ensures Books(Replay(cfg, w, h).db)
    decreases |h|
  {
    if |h| > 0 {
      var n := |h| - 1;
      HistoryKeepsBooks(cfg, w, h[..n]);
      if h[n].Ran? { RunKeepsBooks(cfg, Replay(cfg, w, h[..n]), h[n].env); }
    }
  }

  // ---- bytes, over every history ----

  ghost function EventWrites(e: Event): seq<Append> {
    match e
    case Wrote(a) => [a]
    case Ran(env) => if env.paths.Some? then EnvWrites(env) else []
  }

  ghost function HistoryWrites(h: seq<Event>): seq<Append>
    decreases |h|
  {
    if |h| == 0 then [] else HistoryWrites(h[..|h| - 1]) + EventWrites(h[|h| - 1])
  }

  ghost function EventReclaimed(cfg: Config, w: World, e: Event): int
    requires EventFits(cfg, w, e)
  {
    if e.Ran? && e.env.paths.Some? then Swept(cfg, w, e.env).reclaimed else 0
  }

  ghost function EventUnreported(cfg: Config, w: World, e: Event): int
    requires EventFits(cfg, w, e)
  {
    if e.Ran? && e.env.paths.Some? then Gap(e.env.acts, Swept(cfg, w, e.env).all) else 0
  }

  /** What the runs of a history report as reclaimed, and what they freed without reporting it. */
  ghost function Reclaimed(cfg: Config, w: World, h: seq<Event>): int
    requires Legal(cfg, w, h)
    decreases |h|
  {
    if |h| == 0 then 0
    else Reclaimed(cfg, w, h[..|h| - 1]) + EventReclaimed(cfg, Replay(cfg, w, h[..|h| - 1]), h[|h| - 1])
  }

  ghost function Unreported(cfg: Config, w: World, h: seq<Event>): int
    requires Legal(cfg, w, h)
    decreases |h|
  {
    if |h| == 0 then 0
    else Unreported(cfg, w, h[..|h| - 1]) + EventUnreported(cfg, Replay(cfg, w, h[..|h| - 1]), h[|h| - 1])
  }

  lemma EventConserves(cfg: Config, w: World, e: Event)
    requires EventFits(cfg, w, e)
    ensures TotalBytes(After(cfg, w, e).files) + EventReclaimed(cfg, w, e) + EventUnreported(cfg, w, e)
      == TotalBytes(w.files) + BytesIn(EventWrites(e))
    ensures 0 <= EventUnreported(cfg, w, e)
  {
    match e
    case Wrote(a) => WriteConserves(cfg, w, a);
    case Ran(env) => RanConserves(cfg, w, e, env);
  }

  lemma WriteConserves(cfg: Config, w: World, a: Append)
    ensures TotalBytes(After(cfg, w, Wrote(a)).files) == TotalBytes(w.files) + BytesIn([a])
  {
    TotalSet(w.files, a.path, SizeOf(w.files, a.path) + a.bytes);
    SumSnoc([], a, BytesOf);
    assert [] + [a] == [a];
  }

  lemma RanConserves(cfg: Config, w: World, e: Event, env: Env)
    requires EventFits(cfg, w, e) && e == Ran(env)
    ensures TotalBytes(After(cfg, w, e).files) + EventReclaimed(cfg, w, e) + EventUnreported(cfg, w, e)
      == TotalBytes(w.files) + BytesIn(EventWrites(e))
    ensures 0 <= EventUnreported(cfg, w, e)
  {
    if env.paths.Some? { RunConserves(cfg, w, env); }
  }

  /** Bytes are conserved over every history, panicking runs included. */
  lemma {:induction false} HistoryConserves(cfg: Config, w: World, h: seq<Event>)
    requires Legal(cfg, w, h)
    ensures TotalBytes(Replay(cfg, w, h).files) + Reclaimed(cfg, w, h) + Unreported(cfg, w, h)
      == TotalBytes(w.files) + BytesIn(HistoryWrites(h))
    ensures 0 <= Unreported(cfg, w, h)
    decreases |h|
  {
    if |h| > 0 {
      var n := |h| - 1;
      HistoryConserves(cfg, w, h[..n]);
      EventConserves(cfg, Replay(cfg, w, h[..n]), h[n]);
      SumConcat(HistoryWrites(h[..n]), EventWrites(h[n]), BytesOf);
    }
  }

  // ---- protected logs, over every history ----

  /** In the run at position k the log is excluded by name, or no entry found for it is eligible. */
  ghost predicate ProtectedAt(cfg: Config, w: World, h: seq<Event>, k: nat, path: Path)
    requires Legal(cfg, w, h) && k < |h|
  {
    LegalPrefix(cfg, w, h, k);
    h[k].Ran? && h[k].env.paths.Some? ==>
      || HandsOff(cfg)
      || AlwaysExcluded(cfg, h[k].env, path)
      || NeverEligible(cfg, Scanned(cfg, Replay(cfg, w, h[..k]), h[k].env).entries, path)
  }

  /**
   A log that every run finds excluded or below the threshold is never shortened and never
   removed: at the end it holds exactly what it held plus everything appended to it.
   */
  lemma {:induction false} ProtectedLogsAreSafe(cfg: Config, w: World, h: seq<Event>, path: Path)
    requires Legal(cfg, w, h)
    requires forall k :: 0 <= k < |h| ==> ProtectedAt(cfg, w, h, k, path)
    ensures OnlyGrew(w.files, HistoryWrites(h), Replay(cfg, w, h).files, path)
    decreases |h|
  {
    if |h| > 0 {
      var n := |h| - 1;
      var before := Replay(cfg, w, h[..n]);
      forall k | 0 <= k < n ensures ProtectedAt(cfg, w, h[..n], k, path) {
        assert ProtectedAt(cfg, w, h, k, path);
        assert h[..n][..k] == h[..k];
      }
      ProtectedLogsAreSafe(cfg, w, h[..n], path);
      assert ProtectedAt(cfg, w, h, n, path);
      LastEventSpares(cfg, before, h[n], path);
      OnlyGrewThen(w.files, HistoryWrites(h[..n]), before.files, EventWrites(h[n]), Replay(cfg, w, h).files, path);
    }
  }

  lemma LastEventSpares(cfg: Config, w: World, e: Event, path: Path)
    requires EventFits(cfg, w, e)
    requires e.Ran? && e.env.paths.Some? ==>
      HandsOff(cfg) || AlwaysExcluded(cfg, e.env, path)
      || NeverEligible(cfg, Scanned(cfg, w, e.env).entries, path)
    ensures OnlyGrew(w.files, EventWrites(e), After(cfg, w, e).files, path)
  {
    match e
    case Wrote(a) =>
      WrittenAllSnoc(w.files, [], a);
      assert [] + [a] == [a];
      WrittenAllSize(w.files, [a], path);
    case Ran(env) =>
      if env.paths.Some? {
        if AlwaysExcluded(cfg, env, path) { ExcludedIsNeverEligible(cfg, w, env, path); }
        RunSpares(cfg, w, env, path);
      }
  }
}
