/**
 * The buffer-and-flush discipline of a `Flogger`, on values. A `State` is the
 * text of the log file as the logger's output stream sees it, whether that
 * stream is open, and the text accumulated in the in-memory buffer. The class in
 * flogger.dfy is proved to move between exactly these states.
 */
module Stream {

  datatype State = State(file: string, isOpen: bool, buffer: string)

  /**
   * A stream manipulator: `std::endl`, or any other one, given by the text it
   * puts into the buffer (none, for most of them).
   */
  datatype Manip = Endl | Other(text: string)

  /** One `<<` of a logging statement: a value already rendered as text, or a manipulator. */
  datatype Item = Value(text: string) | Manipulator(m: Manip)

  /** `flushBuffer`: the buffer goes to the file only when it is non-empty and the file is open. */
  function Flushed(s: State): State {
    if s.buffer != [] && s.isOpen then State(s.file + s.buffer, s.isOpen, []) else s
  }

  /** `operator<<(const T&)`: the text goes to the buffer only. */
  function Put(s: State, text: string): State {
    s.(buffer := s.buffer + text)
  }

  /** `operator<<(manipulator)`: `std::endl` flushes and then ends the line in the file. */
  function PutManip(s: State, m: Manip): State {
    match m
    case Endl =>
      var t := Flushed(s);
      if t.isOpen then t.(file := t.file + "\n") else t
    case Other(text) => Put(s, text)
  }

  /** The destructor: an open file receives what is pending and is closed. */
  function Closed(s: State): State {
    if s.isOpen then Flushed(s).(isOpen := false) else s
  }

  function Step(s: State, item: Item): State {
    match item
    case Value(text) => Put(s, text)
    case Manipulator(m) => PutManip(s, m)
  }

  /** A chain `<< i0 << i1 << ...` applied left to right. */
  function Apply(s: State, items: seq<Item>): State
    decreases |items|
  {
    if items == [] then s else Apply(Step(s, items[0]), items[1..])
  }

  /** The text a chain of insertions stands for, with a newline for each `std::endl`. */
  function ItemText(item: Item): string {
    match item
    case Value(text) => text
    case Manipulator(Endl) => "\n"
    case Manipulator(Other(text)) => text
  }

  function Text(items: seq<Item>): string
    decreases |items|
  {
    if items == [] then [] else ItemText(items[0]) + Text(items[1..])
  }

  /**
   * Flushing never loses, reorders or duplicates text, never truncates the
   * file, and does nothing when the buffer is empty or the file is closed.
   */
  lemma FlushedConserves(s: State)
    ensures Flushed(s).file + Flushed(s).buffer == s.file + s.buffer
    ensures s.file <= Flushed(s).file && Flushed(s).isOpen == s.isOpen
    ensures s.isOpen ==> Flushed(s).buffer == []
    ensures s.buffer == [] || !s.isOpen ==> Flushed(s) == s
    ensures Flushed(Flushed(s)) == Flushed(s)
  {
  }

  /**
   * `std::endl` on an open stream: the file ends with the old file, the
   * pending buffer and a newline, and the buffer is left empty; on a closed one
   * nothing changes.
   */
  lemma EndlEndsLine(s: State)
    ensures s.isOpen ==> PutManip(s, Endl) == State(s.file + s.buffer + "\n", true, [])
    ensures !s.isOpen ==> PutManip(s, Endl) == s
  {
  }

  /** The destructor writes exactly the pending buffer to an open file, and nothing to a closed one. */
  lemma ClosedWritesPending(s: State)
    ensures !Closed(s).isOpen
    ensures Closed(s).file == if s.isOpen then s.file + s.buffer else s.file
  {
  }

  /** While the file is open, each insertion extends file-then-buffer by exactly its text. */
  lemma StepOpen(s: State, item: Item)
    requires s.isOpen
    ensures Step(s, item).isOpen
    ensures Step(s, item).file + Step(s, item).buffer == s.file + s.buffer + ItemText(item)
  {
    match item
    case Value(text) =>
      assert Step(s, item).file + Step(s, item).buffer == s.file + (s.buffer + text);
    case Manipulator(Endl) =>
    case Manipulator(Other(text)) =>
      assert Step(s, item).file + Step(s, item).buffer == s.file + (s.buffer + text);
  }

  /** No insertion truncates or rewrites the file, and none opens or closes it. */
  lemma StepAppendOnly(s: State, item: Item)
    ensures s.file <= Step(s, item).file
    ensures Step(s, item).isOpen == s.isOpen
  {
  }

  /** The file as it was before a chain of insertions is a prefix of the file after it. */
  lemma {:induction false} ApplyAppendOnly(s: State, items: seq<Item>)
    ensures s.file <= Apply(s, items).file
    ensures Apply(s, items).isOpen == s.isOpen
    decreases |items|
  {
    if items != [] {
      StepAppendOnly(s, items[0]);
      ApplyAppendOnly(Step(s, items[0]), items[1..]);
    }
  }

  /** On an open file, a chain of insertions extends file-then-buffer by its text, in order. */
  lemma {:induction false} ApplyOpen(s: State, items: seq<Item>)
    requires s.isOpen
    ensures Apply(s, items).isOpen
    ensures Apply(s, items).file + Apply(s, items).buffer == s.file + s.buffer + Text(items)
    decreases |items|
  {
    if items != [] {
      var t := Step(s, items[0]);
      StepOpen(s, items[0]);
      ApplyOpen(t, items[1..]);
      calc {
        Apply(s, items).file + Apply(s, items).buffer;
        t.file + t.buffer + Text(items[1..]);
        s.file + s.buffer + ItemText(items[0]) + Text(items[1..]);
        s.file + s.buffer + (ItemText(items[0]) + Text(items[1..]));
      }
    }
  }

  /** On a closed file, no chain of insertions writes anything. */
  lemma {:induction false} ApplyClosed(s: State, items: seq<Item>)
    requires !s.isOpen
    ensures !Apply(s, items).isOpen && Apply(s, items).file == s.file
    decreases |items|
  {
    if items != [] {
      ApplyClosed(Step(s, items[0]), items[1..]);
    }
  }

  lemma {:induction false} ApplyConcat(s: State, a: seq<Item>, b: seq<Item>)
    ensures Apply(s, a + b) == Apply(Apply(s, a), b)
    decreases |a|
  {
    if a == [] {
      assert a + b == b;
    } else {
      assert (a + b)[0] == a[0] && (a + b)[1..] == a[1..] + b;
      ApplyConcat(Step(s, a[0]), a[1..], b);
    }
  }

  /**
   * A chain ending in `std::endl` on an open file leaves the file ending in
   * the pending buffer, the chain's text and one newline, and the buffer empty.
   */
  lemma EndlCompletesLine(s: State, items: seq<Item>)
    requires s.isOpen
    ensures Apply(s, items + [Manipulator(Endl)]) == State(s.file + s.buffer + Text(items) + "\n", true, [])
  {
    ApplyConcat(s, items, [Manipulator(Endl)]);
    ApplyOpen(s, items);
    EndlEndsLine(Apply(s, items));
  }

  /**
   * A whole logging statement: a fresh logger over `file` (open or not),
   * a chain of insertions, then the destructor. An opened file receives the
   * chain's whole text, in order, after its old content; an unopened one
   * receives nothing.
   */
  lemma StatementAppends(file: string, didOpen: bool, items: seq<Item>)
    ensures !Closed(Apply(State(file, didOpen, []), items)).isOpen
    ensures Closed(Apply(State(file, didOpen, []), items)).file
         == if didOpen then file + Text(items) else file
  {
    var s := State(file, didOpen, []);
    if didOpen {
      ApplyOpen(s, items);
      assert s.file + s.buffer == file;
    } else {
      ApplyClosed(s, items);
    }
  }
}
