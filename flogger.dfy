/**
 * The `Flogger` class: an output file stream opened in append mode, a text
 * buffer, and the path it was opened on. Every method is proved to move the
 * object between the states the pure model in stream.dfy prescribes.
 */
module Logger {
  import opened Stream

  /** The files the process can see: path to current content. */
  class FileSystem {
    var files: map<string, string>

    constructor (files: map<string, string>)
      ensures this.files == files
    {
      this.files := files;
    }

    /**
     * Opening `path` for appending: whether it succeeds is up to the
     * environment; a missing file is created empty, an existing one keeps
     * its content.
     */
    method OpenForAppend(path: string) returns (ok: bool)
      modifies this
      ensures files == if ok then AfterOpen(old(files), path) else old(files)
    {
      ok := *;
      if ok {
        files := AfterOpen(files, path);
      }
    }

    /** Writing `text` through a stream open on `path`. */
    method Append(path: string, text: string)
      requires path in files
      modifies this
      ensures files == old(files)[path := old(files)[path] + text]
    {
      files := files[path := files[path] + text];
    }
  }

  /** The files after `path` is opened in append mode. */
  function AfterOpen(files: map<string, string>, path: string): (r: map<string, string>)
    ensures path in r && r.Keys == files.Keys + {path}
    ensures path in files ==> r == files
    ensures path !in files ==> r == files[path := []]
  {
    if path in files then files else files[path := []]
  }

  /** Writing to a file just opened is writing to the file system as it was before the open. */
  lemma WriteAfterOpen(files: map<string, string>, path: string, text: string)
    ensures AfterOpen(files, path)[path := text] == files[path := text]
  {
  }

  class Flogger {
    const fs: FileSystem
    const path: string
    var isOpen: bool
    var buffer: string

    ghost predicate Valid()
      reads this, fs
    {
      isOpen ==> path in fs.files
    }

    /** The content of the file this logger was opened on. */
    ghost function Content(): string
      reads this, fs
    {
      if path in fs.files then fs.files[path] else []
    }

    ghost function View(): State
      reads this, fs
    {
      State(Content(), isOpen, buffer)
    }

    /**
     * Frame: the one change to the files is `text` appended to this logger's
     * own file; no other file changes, and none appears or disappears.
     */
    twostate predicate Appended(text: string)
      reads this, fs
    {
      if text == [] then fs.files == old(fs.files)
      else path in old(fs.files) && fs.files == old(fs.files)[path := old(fs.files)[path] + text]
    }

    /** Opens `path` in append mode: whatever the file held before is kept. */
    constructor (fs: FileSystem, path: string)
      modifies fs
      ensures this.fs == fs && this.path == path && Valid()
      ensures buffer == []
      ensures fs.files == if isOpen then AfterOpen(old(fs.files), path) else old(fs.files)
      ensures isOpen && path in old(fs.files) ==> Content() == old(fs.files[path])
    {
      var ok := fs.OpenForAppend(path);
      this.fs := fs;
      this.path := path;
      isOpen := ok;
      buffer := [];
    }

    method FlushBuffer()
      requires Valid()
      modifies this`buffer, fs
      ensures Valid()
      ensures View() == Flushed(old(View()))
      ensures Appended(if old(isOpen) then old(buffer) else [])
    {
      if buffer != [] && isOpen {
        fs.Append(path, buffer);
        buffer := [];
      }
    }

    /** `operator<<(const T&)` with the value already rendered as `text`. */
    method Insert(text: string)
      requires Valid()
      modifies this`buffer
      ensures Valid()
      ensures View() == Put(old(View()), text)
      ensures buffer == old(buffer) + text
    {
      buffer := buffer + text;
    }

    /** `operator<<(manipulator)`. */
    method InsertManip(m: Manip)
      requires Valid()
      modifies this`buffer, fs
      ensures Valid()
      ensures View() == PutManip(old(View()), m)
      ensures Appended(if m == Endl && old(isOpen) then old(buffer) + "\n" else [])
    {
      if m == Endl {
        ghost var before, pending := fs.files, buffer;
        FlushBuffer();
        if isOpen {
          ghost var flushed := fs.files;
          fs.Append(path, "\n");
          assert flushed[path] == before[path] + pending;
          assert before[path] + pending + "\n" == before[path] + (pending + "\n");
          assert fs.files == before[path := before[path] + (pending + "\n")];
        }
      } else {
        buffer := buffer + m.text;
      }
    }

    /** The destructor: flush and close an open file; a closed one is left alone. */
    method Destroy()
      requires Valid()
      modifies this`buffer, this`isOpen, fs
      ensures Valid() && !isOpen
      ensures View() == Closed(old(View()))
      ensures Appended(if old(isOpen) then old(buffer) else [])
    {
      if isOpen {
        FlushBuffer();
        isOpen := false;
      }
    }
  }
}
