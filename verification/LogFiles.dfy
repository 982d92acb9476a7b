/**
 The file system as the agent sees it: log files with a size in bytes, and the containers'
 own loggers, which append to them at any moment.
 */
module LogFiles {
  import opened Sums

  type Path = string
  type Files = map<Path, nat>

  /** One append by a container's logger. Appending to a missing file creates it. */
  datatype Append = Append(path: Path, bytes: nat)

  /** What happens around one system call: appends that land first, then the kernel's answer. */
  datatype Tick = Tick(writes: seq<Append>, ok: bool)

  function SizeOf(files: Files, path: Path): nat {
    if path in files then files[path] else 0
  }

  function Written(files: Files, w: Append): Files {
    files[w.path := SizeOf(files, w.path) + w.bytes]
  }

  function WrittenAll(files: Files, ws: seq<Append>): Files
    decreases |ws|
  {
    if |ws| == 0 then files else Written(WrittenAll(files, ws[..|ws| - 1]), ws[|ws| - 1])
  }

  function BytesOf(w: Append): int { w.bytes }

  function BytesIn(ws: seq<Append>): int { Sum(ws, BytesOf) }

  function BytesIfTo(path: Path): Append -> int {
    (w: Append) => if w.path == path then w.bytes else 0
  }

  function BytesTo(ws: seq<Append>, path: Path): int { Sum(ws, BytesIfTo(path)) }

  ghost function TotalBytes(files: Files): nat
    decreases files
  {
    if files == map[] then 0
    else
      var p :| p in files;
      assert (files - {p}).Keys < files.Keys;
      files[p] + TotalBytes(files - {p})
  }

  // ---- what appends do ----

  lemma WrittenAllSnoc(files: Files, ws: seq<Append>, w: Append)
    ensures WrittenAll(files, ws + [w]) == Written(WrittenAll(files, ws), w)
  {
    assert (ws + [w])[..|ws|] == ws;
  }

  lemma {:induction false} WrittenAllConcat(files: Files, a: seq<Append>, b: seq<Append>)
    ensures WrittenAll(files, a + b) == WrittenAll(WrittenAll(files, a), b)
    decreases |b|
  {
    if |b| == 0 {
      assert a + b == a;
    } else {
      var b' := b[..|b| - 1];
      WrittenAllConcat(files, a, b');
      assert a + b == (a + b') + [b[|b| - 1]];
      WrittenAllSnoc(files, a + b', b[|b| - 1]);
    }
  }

  /** Appends grow each file by exactly the bytes sent to it, and never remove one. */
  lemma {:induction false} WrittenAllSize(files: Files, ws: seq<Append>, path: Path)
    ensures path in files ==> path in WrittenAll(files, ws)
    ensures SizeOf(WrittenAll(files, ws), path) == SizeOf(files, path) + BytesTo(ws, path)
    ensures 0 <= BytesTo(ws, path)
    decreases |ws|
  {
    if |ws| > 0 {
      WrittenAllSize(files, ws[..|ws| - 1], path);
    }
  }

  // ---- the total over all files ----

  lemma {:induction false} TotalRemove(files: Files, path: Path)
    requires path in files
    ensures TotalBytes(files) == files[path] + TotalBytes(files - {path})
    decreases files
  {
    var p :| p in files && TotalBytes(files) == files[p] + TotalBytes(files - {p});
    if p != path {
      var rest := files - {p};
      assert rest.Keys < files.Keys;
      TotalRemove(rest, path);
      var both := files - {path};
      assert p in both;
      assert both.Keys < files.Keys;
      TotalRemove(both, p);
      assert rest - {path} == both - {p};
    }
  }

  lemma TotalSet(files: Files, path: Path, n: nat)
    ensures TotalBytes(files[path := n]) == TotalBytes(files) - SizeOf(files, path) + n
  {
    var after := files[path := n];
    TotalRemove(after, path);
    if path in files {
      TotalRemove(files, path);
      assert after - {path} == files - {path};
    } else {
      assert after - {path} == files;
    }
  }

  lemma {:induction false} TotalWritten(files: Files, ws: seq<Append>)
    ensures TotalBytes(WrittenAll(files, ws)) == TotalBytes(files) + BytesIn(ws)
    decreases |ws|
  {
    if |ws| > 0 {
      var n := |ws| - 1;
      var before := WrittenAll(files, ws[..n]);
      TotalWritten(files, ws[..n]);
      TotalSet(before, ws[n].path, SizeOf(before, ws[n].path) + ws[n].bytes);
    }
  }

  /** The kernel's side of the three system calls the agent makes on a log file. */
  class FileSystem {
    var files: Files

    constructor (files: Files)
      ensures this.files == files
    {
      this.files := files;
    }

    /** Loggers run while the agent does something else. */
    method Elapse(writes: seq<Append>)
      modifies this
      ensures files == WrittenAll(old(files), writes)
    {
      var i := 0;
      while i < |writes|
        invariant 0 <= i <= |writes|
        invariant files == WrittenAll(old(files), writes[..i])
      {
        WrittenAllSnoc(old(files), writes[..i], writes[i]);
        assert writes[..i + 1] == writes[..i] + [writes[i]];
        files := Written(files, writes[i]);
        i := i + 1;
      }
      assert writes[..i] == writes;
    }

    method ElapseTwice(a: seq<Append>, b: seq<Append>)
      modifies this
      ensures files == WrittenAll(old(files), a + b)
    {
      WrittenAllConcat(files, a, b);
      Elapse(a);
      Elapse(b);
    }

    /** os.Stat: the size, or None when the file is missing or the call is refused. */
    method Stat(path: Path, tick: Tick) returns (size: Option<nat>)
      modifies this
      ensures files == WrittenAll(old(files), tick.writes)
      ensures size.Some? <==> tick.ok && path in files
      ensures size.Some? ==> size.value == files[path]
    {
      Elapse(tick.writes);
      if tick.ok && path in files {
        size := Some(files[path]);
      } else {
        size := None;
      }
    }

    /** os.Truncate(path, 0) */
    method Truncate(path: Path, tick: Tick) returns (ok: bool)
      modifies this
      ensures var before := WrittenAll(old(files), tick.writes);
        && ok == (tick.ok && path in before)
        && files == (if ok then before[path := 0] else before)
    {
      Elapse(tick.writes);
      ok := tick.ok && path in files;
      if ok {
        files := files[path := 0];
      }
    }

    /** os.Remove(path) */
    method Remove(path: Path, tick: Tick) returns (ok: bool)
      modifies this
      ensures var before := WrittenAll(old(files), tick.writes);
        && ok == (tick.ok && path in before)
        && files == (if ok then before - {path} else before)
    {
      Elapse(tick.writes);
      ok := tick.ok && path in files;
      if ok {
        files := files - {path};
      }
    }
  }
}
