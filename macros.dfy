/**
 * The logging macros. Each builds a temporary `Flogger` on a fixed path and
 * streams its prefix into it; the temporary is destroyed at the end of the
 * statement that uses the macro. The clock reading, the thread id text, the
 * call site's path, line and function are inputs.
 */
module Macros {
  import opened Stream
  import opened Logger
  import opened Format
  import Decimal
  import Basename

  const DebugLogPath := "/mnt/share/gc_continuous_testing/debug_log.txt"
  const ScreenLogPath := "/mnt/share/gc_continuous_testing/SMLCD_SCREEN.txt"

  /** `BFlog`: a logger on the debug log holding `file:line` in its buffer. */
  method BFlog(fs: FileSystem, srcPath: string, line: nat) returns (f: Flogger)
    modifies fs
    ensures fresh(f) && f.fs == fs && f.path == DebugLogPath && f.Valid()
    ensures fs.files == if f.isOpen then AfterOpen(old(fs.files), DebugLogPath) else old(fs.files)
    ensures f.buffer == LocationText(srcPath, line)
  {
    f := new Flogger(fs, DebugLogPath);
    InsertLocation(f, srcPath, line);
    assert [] + LocationText(srcPath, line) == LocationText(srcPath, line);
  }

  /** The fragment `<< __FILENAME__ << ":" << __LINE__` the three macros share. */
  method InsertLocation(f: Flogger, srcPath: string, line: nat)
    requires f.Valid()
    modifies f`buffer
    ensures f.Valid()
    ensures f.buffer == old(f.buffer) + LocationText(srcPath, line)
  {
    var name, num := Basename.FileName(srcPath), Decimal.NatText(line);
    f.Insert(name);
    f.Insert(":");
    f.Insert(num);
    LocationRegroup(old(f.buffer), name, num);
  }

  /** The fragment `<< getCurrentTime() << " | " << getTID() << " | "` of `Flog` and `Ftrace`. */
  method InsertStamp(f: Flogger, t: LocalTime, sinceEpochMs: int, idText: string)
    requires f.Valid()
    modifies f`buffer
    ensures f.Valid()
    ensures f.buffer == old(f.buffer) + StampText(t, sinceEpochMs, idText)
  {
    var time, tid := TimeText(t, sinceEpochMs), TidText(idText);
    f.Insert(time);
    f.Insert(" | ");
    f.Insert(tid);
    f.Insert(" | ");
    StampRegroup(old(f.buffer), time, tid);
  }

  /** `Flog`: a logger on the debug log holding the `time | tid | file:line @func: ` prefix. */
  method Flog(fs: FileSystem, t: LocalTime, sinceEpochMs: int, idText: string, srcPath: string, line: nat, func: string)
    returns (f: Flogger)
    modifies fs
    ensures fresh(f) && f.fs == fs && f.path == DebugLogPath && f.Valid()
    ensures fs.files == if f.isOpen then AfterOpen(old(fs.files), DebugLogPath) else old(fs.files)
    ensures f.buffer == FlogPrefix(t, sinceEpochMs, idText, srcPath, line, func)
  {
    f := new Flogger(fs, DebugLogPath);
    ghost var stamp, loc := StampText(t, sinceEpochMs, idText), LocationText(srcPath, line);
    InsertStamp(f, t, sinceEpochMs, idText);
    InsertLocation(f, srcPath, line);
    ghost var head := f.buffer;
    assert head == [] + stamp + loc;
    f.Insert(" @");
    assert f.buffer == head + " @";
    f.Insert(func);
    assert f.buffer == head + " @" + func;
    f.Insert(": ");
    assert f.buffer == head + " @" + func + ": ";
    FlogRegroup(stamp, loc, func);
  }

  /**
   * The statement `Flog << message << endl;`: when the debug log opens, it
   * gains exactly one line, the prefix and the message, after its old content;
   * otherwise no file changes.
   */
  method FlogLine(fs: FileSystem, t: LocalTime, sinceEpochMs: int, idText: string, srcPath: string, line: nat,
                  func: string, message: string) returns (didOpen: bool)
    modifies fs
    ensures didOpen ==> fs.files == old(fs.files)[DebugLogPath :=
      AfterOpen(old(fs.files), DebugLogPath)[DebugLogPath] + FlogPrefix(t, sinceEpochMs, idText, srcPath, line, func) + message + "\n"]
    ensures !didOpen ==> fs.files == old(fs.files)
  {
    var f := Flog(fs, t, sinceEpochMs, idText, srcPath, line, func);
    ghost var start, prefix := fs.files, f.buffer;
    f.Insert(message);
    EndlEndsLine(f.View());
    f.InsertManip(Endl);
    didOpen := f.isOpen;
    f.Destroy();
    if didOpen {
      LineRegroup(start[DebugLogPath], prefix, message, "\n");
      WriteAfterOpen(old(fs.files), DebugLogPath, start[DebugLogPath] + (prefix + message) + "\n");
    }
  }

  /**
   * The statement `Ftrace` (its expansion ends the line and the statement):
   * when the debug log opens, it gains exactly the trace line; otherwise no
   * file changes.
   */
  method Ftrace(fs: FileSystem, t: LocalTime, sinceEpochMs: int, idText: string, srcPath: string, line: nat,
                signature: string) returns (didOpen: bool)
    modifies fs
    ensures didOpen ==> fs.files == old(fs.files)[DebugLogPath :=
      AfterOpen(old(fs.files), DebugLogPath)[DebugLogPath] + FtraceText(t, sinceEpochMs, idText, srcPath, line, signature)]
    ensures !didOpen ==> fs.files == old(fs.files)
  {
    var f := new Flogger(fs, DebugLogPath);
    ghost var start := fs.files;
    InsertStamp(f, t, sinceEpochMs, idText);
    f.Insert("* ");
    InsertLocation(f, srcPath, line);
    f.Insert(" @");
    f.Insert(signature);
    ghost var pending := f.buffer;
    EndlEndsLine(f.View());
    f.InsertManip(Endl);
    didOpen := f.isOpen;
    f.Destroy();
    if didOpen {
      FtraceRegroup(StampText(t, sinceEpochMs, idText), LocationText(srcPath, line), signature);
      assert pending + "\n" == FtraceText(t, sinceEpochMs, idText, srcPath, line, signature);
      WriteAfterOpen(old(fs.files), DebugLogPath, start[DebugLogPath] + (pending + "\n"));
    }
  }

  /** `SMLCDLog`: a logger on the screen log with nothing buffered yet. */
  method ScreenLog(fs: FileSystem) returns (f: Flogger)
    modifies fs
    ensures fresh(f) && f.fs == fs && f.path == ScreenLogPath && f.Valid() && f.buffer == []
    ensures fs.files == if f.isOpen then AfterOpen(old(fs.files), ScreenLogPath) else old(fs.files)
  {
    f := new Flogger(fs, ScreenLogPath);
  }

  // The *Regroup lemmas below only regroup concatenations over plain strings;
  // they stand for nothing in the logger and keep the proofs above cheap.
  lemma LocationRegroup(before: string, name: string, num: string)
    ensures before + name + ":" + num == before + (name + ":" + num)
  {
  }

  lemma StampRegroup(before: string, time: string, tid: string)
    ensures before + time + " | " + tid + " | " == before + (time + " | " + tid + " | ")
  {
  }

  lemma LineRegroup(file: string, prefix: string, message: string, end: string)
    ensures file + (prefix + message) + end == file + prefix + message + end
  {
  }

  lemma FlogRegroup(stamp: string, loc: string, func: string)
    ensures [] + stamp + loc + " @" + func + ": " == stamp + loc + " @" + func + ": "
  {
  }

  lemma FtraceRegroup(stamp: string, loc: string, signature: string)
    ensures [] + stamp + "* " + loc + " @" + signature + "\n" == stamp + "* " + loc + " @" + signature + "\n"
  {
  }
}
