# flogger in Dafny

A model of `flogger.h`, a header-only C++ logger. A `Flogger` object owns an
output file stream opened in append mode on one path and a string buffer.
`operator<<` adds text to the buffer; `std::endl` writes the buffer and then a
newline to the file; the destructor writes whatever is still buffered and
closes the file. Four macros each build a temporary `Flogger` on a fixed path:

- `BFlog` (debug log) streams only the source file's base name, ':' and the
  line number;
- `Flog` (debug log) streams a `HH:MM:SS.mmm` time stamp, " | ", a `0x`-tagged
  thread id, " | ", the base name and line, " @", `__func__` and ": ";
- `Ftrace` (debug log) streams the time stamp and thread id as `Flog` does,
  then "* ", the base name and line, " @", `__PRETTY_FUNCTION__`, and ends the
  line with `std::endl`;
- `SMLCDLog` streams nothing and opens a second, fixed file.

Files:

- `options.dfy`: `Option`.
- `decimal.dfy`: the text `std::ostream` writes for integers, `std::setw`
  padding, C++'s truncating `%`, and a reader of digit strings used to state
  round trips.
- `basename.dfy`: `__FILENAME__` (`strrchr` on '/').
- `stream.dfy`: the buffer-and-flush state machine on values (`State`,
  `Flushed`, `Put`, `PutManip`, `Closed`, chains of insertions `Apply`) and its
  lemmas: append-only file, no text lost or reordered while the file is open,
  one line per `std::endl`, one statement appends exactly its text.
- `flogger.dfy`: the file system as a map from path to content, and the
  `Flogger` class with `buffer`, `isOpen` and `path` fields; every method is
  proved to take the object from one `State` to the next one the pure model
  prescribes. The constructor may create its own file empty when it is
  missing; every other method changes no file except by appending to its own.
- `format.dfy`: `getCurrentTime`, `getTID` and the macro prefixes as functions
  of the clock fields, the thread id text, the source path, line and function.
- `macros.dfy`: the macros as methods that build the temporary logger, and the
  complete statements `Flog << message << endl;` and `Ftrace`.

Points of `flogger.h` the model keeps: logging is the streaming `operator<<`
(there is no call taking a bit mask of enabled fields); text reaches the file only at `std::endl` or when
the logger is destroyed, not after every insertion; the thread id is `0x` followed by the stream's own
text for `std::thread::id`, neither upper-cased nor zero-padded; only '/' is a
directory separator, so a '\' stays in the file name; nothing forces data to
the storage medium; and an open failure leaves a logger that keeps buffering
but never writes.

## Model

| member | source | states |
|---|---|---|
| Decimal.NatText | flogger.h:118 | the text of a line number is a non-empty string of digits whose first digit is '0' only for zero |
| Decimal.IntText | flogger.h:95 | a non-negative count is written as digits that read back as the count, with no leading zero; a negative one as '-' and then digits, without a leading zero, that read back as its magnitude |
| Decimal.PadLeft | flogger.h:95 | `setw`/`setfill` padding: the result has the requested width (or the text's own, if longer), ends with the text and starts with fill characters only |
| Decimal.TruncRem | flogger.h:90 | C++ `% 1000`: the remainder lies strictly between -1000 and 1000, has the sign of the dividend and differs from it by a multiple of the divisor |
| Decimal.ValueOfNatText | flogger.h:118 | the text written for a number reads back as that number |
| Decimal.NatTextLength | flogger.h:95 | the text of n fits in k characters exactly when n < 10^k (both directions) |
| Decimal.ValueLeadingZeros | flogger.h:95 | zero fill in front of digits does not change the number they read as |
| Decimal.ZeroPaddedText | flogger.h:95 | a number below 10^w padded with '0' to width w is exactly w digits and reads back as the number |
| Basename.LastIndexOf | flogger.h:115 | `strrchr`: a found index holds the character and none follows it; not found means the character does not occur |
| Basename.FileName | flogger.h:115 | `__FILENAME__` is a suffix of the path without '/'; the whole path when it has no '/', otherwise the part right after a '/' |
| Basename.FileNameOfJoin | flogger.h:115 | for any directory and any name without '/', the file name of `dir/name` is `name` |
| Basename.FileNameIdempotent | flogger.h:115 | taking the file name twice gives the same as once |
| Basename.BackslashIsNotSeparator | flogger.h:115 | '\' is kept: `src\main.cc` comes back whole, `src/app\main.cc` gives `app\main.cc` |
| Stream.Flushed | flogger.h:29-37 | `flushBuffer` on values; its promise (nothing lost or reordered, file only extended, idempotent) is proved by `FlushedConserves` |
| Stream.Put | flogger.h:62-68 | the templated `operator<<` on values; that it adds exactly its text to file-then-buffer and never writes is proved by `StepOpen` and `StepAppendOnly` |
| Stream.PutManip | flogger.h:70-84 | the manipulator `operator<<` on values; `EndlEndsLine` proves that `std::endl` writes buffer and newline to an open file and nothing to a closed one |
| Stream.Closed | flogger.h:52-59 | the destructor on values; `ClosedWritesPending` proves it writes exactly the pending buffer and leaves the file closed |
| Stream.FlushedConserves | flogger.h:29-37 | `flushBuffer` keeps file-then-buffer text the same, only extends the file, empties the buffer of an open file, changes nothing when the buffer is empty or the file closed, and is idempotent |
| Stream.EndlEndsLine | flogger.h:71-84 | `std::endl` on an open file leaves file = old file + buffer + newline and an empty buffer; on a closed file nothing changes |
| Stream.ClosedWritesPending | flogger.h:52-59 | the destructor writes exactly the pending buffer to an open file, nothing to a closed one, and leaves the file closed |
| Stream.StepOpen | flogger.h:61-84 | on an open file each `<<` extends file-then-buffer by exactly the inserted text (a newline for `std::endl`) |
| Stream.StepAppendOnly | flogger.h:61-84 | no `<<` truncates the file or opens or closes it |
| Stream.ApplyAppendOnly | flogger.h:29-37 | the file content before any chain of insertions is a prefix of the content after it |
| Stream.ApplyOpen | flogger.h:61-84 | on an open file a chain of insertions extends file-then-buffer by its whole text, in order |
| Stream.ApplyClosed | flogger.h:31 | on a file that failed to open no chain of insertions writes anything |
| Stream.EndlCompletesLine | flogger.h:71-84 | a chain ending in `std::endl` on an open file leaves file = old file + buffer + the chain's text + newline and an empty buffer |
| Stream.StatementAppends | flogger.h:41-59 | a logger opened on a file, a chain of insertions and the destructor append exactly the chain's text to the old content, or nothing if the open failed |
| Logger.AfterOpen | flogger.h:44 | opening in append mode keeps an existing file's content and otherwise adds the path as an empty file; every other file keeps its content |
| Logger.FileSystem.OpenForAppend | flogger.h:44-48 | the open may fail (nothing changes) or succeed (the file exists afterwards with its old content) |
| Logger.FileSystem.Append | flogger.h:33 | writing through an open stream appends the text to that file only |
| Logger.Flogger.constructor | flogger.h:41-49 | the new logger records its path, has an empty buffer, and its file's earlier content is kept |
| Logger.Flogger.FlushBuffer | flogger.h:29-37 | the new state is `Flushed` of the old; the only file change is the buffer appended to its own file, and only when open |
| Logger.Flogger.Insert | flogger.h:62-68 | the text is appended to the buffer; file and open flag are unchanged |
| Logger.Flogger.InsertManip | flogger.h:70-84 | the new state is `PutManip` of the old; only `std::endl` on an open file writes, and it writes the buffer and a newline |
| Logger.Flogger.Destroy | flogger.h:51-59 | the new state is `Closed` of the old; an open file receives the pending buffer and is closed |
| Format.TidText | flogger.h:99-111 | the thread tag is "0x" followed by the id's text unchanged |
| Format.TwoDigits | flogger.h:95 | `%H`/`%M`/`%S`; `TwoDigitsText` proves it is two digits reading back as the field |
| Format.MillisText | flogger.h:90-95 | the millisecond part; `MillisTextDigits` proves three digits reading back as ms modulo 1000 after the epoch, `MillisTextOffSecond` a '-' in it before the epoch off a whole second |
| Format.TimeText | flogger.h:87-97 | `getCurrentTime`; `TimeTextRoundTrip` proves it is 12 characters that the independent reader `ParseTime` turns back into the four fields |
| Format.LocationText | flogger.h:117-118 | `__FILENAME__ << ":" << __LINE__`; `LocationTextParts` proves the name has no '/' and the digits read back as the line |
| Format.StampText | flogger.h:120-121 | the `time \| tid \| ` head; `FlogPrefixHead` proves it starts with the time stamp and then " \| 0x", and `InsertStamp` that the macro inserts exactly it |
| Format.FlogPrefix | flogger.h:120-122 | the `Flog` prefix; `FlogPrefixHead` proves its head and `Macros.Flog` that the macro's insertions build exactly it |
| Format.FtraceText | flogger.h:124-126 | the `Ftrace` line; `Macros.Ftrace` proves the macro appends exactly it, newline included, to the debug log |
| Format.TwoDigitsText | flogger.h:95 | an hour, minute or second below 100 is written as two digits that read back as the value |
| Format.MillisTextDigits | flogger.h:90-95 | after the epoch the millisecond part is three digits reading back as the milliseconds since the epoch modulo 1000 |
| Format.MillisTextBeforeEpoch | flogger.h:90-95 | an example before the epoch: the truncating remainder of -1007 ms is -7 and `setw(3)` pads in front of its sign, giving "0-7" |
| Format.MillisTextOffSecond | flogger.h:90-95 | before the epoch and off a whole second the truncating remainder is negative, so the millisecond part contains a '-' and is not a digit string |
| Format.TimeTextOffSecond | flogger.h:87-97 | before the epoch and off a whole second the stamp is not `HH:MM:SS.mmm`: for any in-range fields the reader `ParseTime` rejects it |
| Format.TimeTextRoundTrip | flogger.h:87-97 | for in-range clock fields the time stamp is 12 characters and parses back to hour, minute, second and milliseconds modulo 1000 |
| Format.FlogPrefixHead | flogger.h:120-122 | the `Flog` prefix begins with the 12-character time stamp followed by " \| 0x" |
| Format.LocationTextParts | flogger.h:117-118 | the `file:line` segment has no '/' before the ':' and the digits after it read back as the line |
| Macros.InsertLocation | flogger.h:117-118 | the fragment `<< __FILENAME__ << ":" << __LINE__` appends exactly the location text to the buffer |
| Macros.InsertStamp | flogger.h:120-121 | the fragment `<< getCurrentTime() << " \| " << getTID() << " \| "` appends exactly the stamp text to the buffer |
| Macros.BFlog | flogger.h:117-118 | a fresh logger on the debug log whose buffer holds `file:line` |
| Macros.Flog | flogger.h:120-122 | a fresh logger on the debug log whose buffer holds the `Flog` prefix, inserted piece by piece |
| Macros.FlogLine | flogger.h:120-122 | `Flog << message << endl;` appends exactly prefix + message + newline to the debug log after its old content, or changes no file if the open fails |
| Macros.Ftrace | flogger.h:124-126 | `Ftrace` appends exactly the trace line (ending in a newline) to the debug log, or changes no file if the open fails |
| Macros.ScreenLog | flogger.h:128 | `SMLCDLog` is a fresh logger on the screen log with an empty buffer |

## Left out

- The mutex and `std::lock_guard`: calls are modelled one after another. Each macro builds its own temporary logger, so the lock never serialises two statements anyway.
- The diagnostic written to `std::cerr` when the open fails; only its effect (a logger that never writes) is modelled.
- Real file I/O: a file is its content in a map from path to text; whether an open succeeds is a nondeterministic choice; write errors on an open stream and durability on the storage medium are not modelled.
- The system clock, `localtime` and `std::put_time`: the hour, minute and second fields and the millisecond count since the epoch are inputs.
- How `std::thread::id` prints: its text is an input; `getTID` only adds "0x".
- How a value of an arbitrary type `T` prints: `Insert` takes the text `operator<<` would produce.
- Manipulators other than `std::endl` that reach the manipulator overload are given by the text they add to the buffer; any change they make to formatting flags is not modelled. Flag-changing insertions through the templated `operator<<` (`std::hex`, `std::setw`, ...) are `Insert`s whose effect on later insertions is not modelled either: the text of every later insertion is an input.
- The buffer's locale: the global locale is assumed to be the classic "C" one, so numbers are written without digit grouping (`NatText`); a program that installs a grouping locale would get "1,234" for line 1234.
- `__LINE__`, `__func__`, `__PRETTY_FUNCTION__` and `__FILE__` are inputs; the two hard-coded log paths are constants.
- Format.TwoDigitsText: states the two-digit form only for values below 100; `std::put_time` with out-of-range `tm` fields is not modelled.
