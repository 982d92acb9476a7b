/** internal/cleanup/policies.go: how one log file is cleaned. */
module Policies {
  import opened Sums
  import opened LogFiles

  datatype Mode = Truncate | Delete | Rotate | Compress

  /** The two system calls of a policy: the stat that measures and the call that changes. */
  datatype Act = Act(stat: Tick, change: Tick)

  predicate Implemented(mode: Mode) { mode.Truncate? || mode.Delete? }

  function Stated(files: Files, path: Path, ok: bool): Option<nat> {
    if ok && path in files then Some(files[path]) else None
  }

  /** What truncating or deleting leaves. */
  function Cut(mode: Mode, files: Files, path: Path): Files {
    if mode.Delete? then files - {path} else files[path := 0]
  }

  datatype Applied = Applied(files: Files, reclaimed: Option<nat>)

  /**
   Policy.Apply as a value: the size reported is the one measured before the change, so
   bytes appended between the two calls are removed without being reported.
   */
  function Apply(mode: Mode, files: Files, path: Path, act: Act): Applied {
    var f1 := WrittenAll(files, act.stat.writes);
    var size := Stated(f1, path, act.stat.ok);
    var f2 := WrittenAll(f1, act.change.writes);
    if Implemented(mode) && size.Some? && act.change.ok && path in f2
    then Applied(Cut(mode, f2, path), size)
    else Applied(f2, None)
  }

  /** The appends of one act, whether or not the policy got as far as using both ticks. */
  function ActWrites(act: Act): seq<Append> { act.stat.writes + act.change.writes }

  /**
   A policy succeeds exactly when it is one of the two implemented ones, the kernel answers
   both calls, and the log is there when it is measured.
   */
  lemma ApplySucceedsExactly(mode: Mode, files: Files, path: Path, act: Act)
    ensures Apply(mode, files, path, act).reclaimed.Some? <==>
      && (mode == Truncate || mode == Delete)
      && act.stat.ok && act.change.ok && path in WrittenAll(files, act.stat.writes)
  {
    WrittenAllSize(WrittenAll(files, act.stat.writes), act.change.writes, path);
  }

  /** A failing policy removes nothing: the files hold everything that was appended. */
  lemma ApplyFailed(mode: Mode, files: Files, path: Path, act: Act)
    requires Apply(mode, files, path, act).reclaimed.None?
    ensures Apply(mode, files, path, act).files == WrittenAll(files, ActWrites(act))
  {
    WrittenAllConcat(files, act.stat.writes, act.change.writes);
  }

  /**
   A policy that succeeds touches one file, leaves it empty or gone, and reports the size
   it measured; what it removed on top of that is what was appended after the measurement.
   */
  lemma ApplySucceeded(mode: Mode, files: Files, path: Path, act: Act)
    requires Apply(mode, files, path, act).reclaimed.Some?
    ensures var r := Apply(mode, files, path, act);
      && Implemented(mode)
      && SizeOf(r.files, path) == 0 && (path in r.files <==> mode.Truncate?)
      && (forall q :: q != path ==>
            (q in r.files <==> q in WrittenAll(files, ActWrites(act)))
            && SizeOf(r.files, q) == SizeOf(WrittenAll(files, ActWrites(act)), q))
      && r.reclaimed.value == SizeOf(files, path) + BytesTo(act.stat.writes, path)
      && TotalBytes(r.files) + r.reclaimed.value + BytesTo(act.change.writes, path)
         == TotalBytes(files) + BytesIn(ActWrites(act))
  {
    WrittenAllConcat(files, act.stat.writes, act.change.writes);
    var f1 := WrittenAll(files, act.stat.writes);
    var f2 := WrittenAll(f1, act.change.writes);
    WrittenAllSize(files, act.stat.writes, path);
    WrittenAllSize(f1, act.change.writes, path);
    TotalWritten(files, ActWrites(act));
    if mode.Delete? { TotalRemove(f2, path); } else { TotalSet(f2, path, 0); }
  }

  /** truncatePolicy.Apply */
  method ApplyTruncate(fs: FileSystem, path: Path, act: Act) returns (reclaimed: Option<nat>)
    modifies fs
    ensures Applied(fs.files, reclaimed) == Apply(Truncate, old(fs.files), path, act)
  {
    var size := fs.Stat(path, act.stat);
    if size.None? {
      fs.Elapse(act.change.writes);
      return None;
    }
    var ok := fs.Truncate(path, act.change);
    if !ok { return None; }
    return size;
  }

  /** deletePolicy.Apply */
  method ApplyDelete(fs: FileSystem, path: Path, act: Act) returns (reclaimed: Option<nat>)
    modifies fs
    ensures Applied(fs.files, reclaimed) == Apply(Delete, old(fs.files), path, act)
  {
    var size := fs.Stat(path, act.stat);
    if size.None? {
      fs.Elapse(act.change.writes);
      return None;
    }
    var ok := fs.Remove(path, act.change);
    if !ok { return None; }
    return size;
  }

  /** rotatePolicy.Apply and compressPolicy.Apply always fail, without a system call. */
  method ApplyStub(mode: Mode, fs: FileSystem, path: Path, act: Act) returns (reclaimed: Option<nat>)
    requires !Implemented(mode)
    modifies fs
    ensures Applied(fs.files, reclaimed) == Apply(mode, old(fs.files), path, act)
  {
    fs.Elapse(act.stat.writes);
    fs.Elapse(act.change.writes);
    return None;
  }

  /** The policy ForMode picks, applied. */
  method ApplyPolicy(mode: Mode, fs: FileSystem, path: Path, act: Act) returns (reclaimed: Option<nat>)
    modifies fs
    ensures Applied(fs.files, reclaimed) == Apply(mode, old(fs.files), path, act)
  {
    match mode
    case Truncate => reclaimed := ApplyTruncate(fs, path, act);
    case Delete => reclaimed := ApplyDelete(fs, path, act);
    case Rotate => reclaimed := ApplyStub(mode, fs, path, act);
    case Compress => reclaimed := ApplyStub(mode, fs, path, act);
  }
}
