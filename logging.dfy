/**
 * The logging library: the `toString`/`stringify` formatting of values, the log-file
 * extension check, the one priority shared by every logger, the level gate of the six
 * level methods, the record format and the choice between the log file and standard
 * output. The clock and the call site are parameters of each call.
 */
module Logging {
  import opened Common
  import opened LogErrors

  // ---------------------------------------------------------------- toString / stringify

  /**
   * A value handed to `toString`, already classified by the overload that formats it:
   * anything `operator<<` prints (its stream text), an iterator range or container,
   * a pair, or a tuple.
   */
  datatype Loggable =
    | Scalar(text: string)
    | Range(items: seq<Loggable>)
    | Pair(first: Loggable, second: Loggable)
    | Tuple(items: seq<Loggable>)

  /** Reference: texts separated by ", ". */
  function JoinComma(ss: seq<string>): string
  {
    if ss == [] then ""
    else if |ss| == 1 then ss[0]
    else JoinComma(ss[..|ss| - 1]) + ", " + ss[|ss| - 1]
  }

  /** The fold of the tuple overload: every text followed by ", ". */
  function CommaAll(ss: seq<string>): string
  {
    if ss == [] then "" else CommaAll(ss[..|ss| - 1]) + ss[|ss| - 1] + ", "
  }

  /** `str.substr(0, str.size() - 2)`: on an empty string the unsigned size wraps and the whole string is kept. */
  function DropLastTwo(str: string): string
  {
    if |str| >= 2 then str[..|str| - 2] else str
  }

  /** The tuple overload over the texts of its elements. */
  function TupleText(ss: seq<string>): string
  {
    "(" + DropLastTwo(CommaAll(ss)) + ")"
  }

  /** `toString` of each element. */
  function Texts(xs: seq<Loggable>): (ts: seq<string>)
    ensures |ts| == |xs| && forall i :: 0 <= i < |xs| ==> ts[i] == ToString(xs[i])
  {
    seq(|xs|, i requires 0 <= i < |xs| => ToString(xs[i]))
  }

  /** `toString`. */
  function ToString(v: Loggable): string
    decreases v
  {
    match v
    case Scalar(t) => t
    case Range(xs) => "[" + JoinComma(seq(|xs|, i requires 0 <= i < |xs| => ToString(xs[i]))) + "]"
    case Pair(a, b) => "(" + ToString(a) + ", " + ToString(b) + ")"
    case Tuple(xs) => TupleText(seq(|xs|, i requires 0 <= i < |xs| => ToString(xs[i])))
  }

  /** `stringify`: the `toString` texts of the arguments, with no separator. */
  function Stringify(args: seq<Loggable>): string
  {
    if args == [] then "" else Stringify(args[..|args| - 1]) + ToString(args[|args| - 1])
  }

  /** A range is "[" + its elements joined by ", " + "]"; an empty range gives "[]". */
  lemma RangeText(xs: seq<Loggable>)
    ensures ToString(Range(xs)) == "[" + JoinComma(Texts(xs)) + "]"
    ensures xs == [] ==> ToString(Range(xs)) == "[]"
  {
    assert seq(|xs|, i requires 0 <= i < |xs| => ToString(xs[i])) == Texts(xs);
  }

  /** Appending ", " to each text is the joined text followed by one more ", ". */
  lemma {:induction false} CommaAllJoin(ss: seq<string>)
    requires ss != []
    ensures CommaAll(ss) == JoinComma(ss) + ", "
  {
    if |ss| > 1 {
      var front := ss[..|ss| - 1];
      assert front[..|front| - 1] == ss[..|ss| - 2];
      CommaAllJoin(front);
    } else {
      assert ss[..0] == [];
    }
  }

  /** A tuple is "(" + its elements joined by ", " + ")", and "()" when it has none. */
  lemma TupleJoin(ss: seq<string>)
    ensures TupleText(ss) == "(" + JoinComma(ss) + ")"
  {
    if ss != [] {
      CommaAllJoin(ss);
      var j := JoinComma(ss);
      assert (j + ", ")[..|j + ", "| - 2] == j;
    }
  }

  /** A pair prints exactly like the two-element tuple of its halves. */
  lemma PairIsTuple(a: Loggable, b: Loggable)
    ensures ToString(Pair(a, b)) == ToString(Tuple([a, b]))
  {
    var ts := [ToString(a), ToString(b)];
    assert ts == seq(2, i requires 0 <= i < 2 => ToString([a, b][i]));
    assert ts[..1] == [ToString(a)];
    assert JoinComma(ts) == ToString(a) + ", " + ToString(b);
    TupleJoin(ts);
  }

  /** `stringify` of several groups of arguments is the concatenation of each group's text. */
  lemma {:induction false} StringifyAppend(a: seq<Loggable>, b: seq<Loggable>)
    decreases |b|
    ensures Stringify(a + b) == Stringify(a) + Stringify(b)
  {
    if b != [] {
      var front := b[..|b| - 1];
      assert (a + b)[..|a + b| - 1] == a + front;
      StringifyAppend(a, front);
    } else {
      assert a + b == a;
    }
  }

  /** One argument is its own `toString`. */
  lemma StringifyOne(x: Loggable)
    ensures Stringify([x]) == ToString(x)
  {
    assert [x][..0] == [];
  }

  /**
   * A `bool` reaches `toString` through its own `stringstream`, which has no
   * `boolalpha`: `stringify(true)` is "1", whatever flag `stringify`'s own stream has.
   */
  function BoolScalar(b: bool): (v: Loggable)
    ensures v.Scalar? && (v.text == "1" <==> b) && (v.text == "0" <==> !b)
  {
    Scalar(if b then "1" else "0")
  }

  lemma StringifyBool(b: bool)
    ensures Stringify([BoolScalar(b)]) == (if b then "1" else "0")
  {
    StringifyOne(BoolScalar(b));
  }

  // ---------------------------------------------------------------- levels

  datatype LogPriority = TRACE | DEBUG | INFO | WARNING | ERROR | FATAL

  /** The enumerator's position in the declaration, which `<` on the enum class compares. */
  function Rank(p: LogPriority): (r: nat)
    ensures r < 6
  {
    match p
    case TRACE => 0
    case DEBUG => 1
    case INFO => 2
    case WARNING => 3
    case ERROR => 4
    case FATAL => 5
  }

  function LevelName(p: LogPriority): string
  {
    match p
    case TRACE => "TRACE"
    case DEBUG => "DEBUG"
    case INFO => "INFO"
    case WARNING => "WARNING"
    case ERROR => "ERROR"
    case FATAL => "FATAL"
  }

  /**
   * The gate of a level method: it returns early when the shared priority is below its
   * level. `trace` has no such test, which is the same as its gate, since nothing is
   * below TRACE.
   */
  predicate Emits(priority: LogPriority, level: LogPriority)
  {
    level == TRACE || !(Rank(priority) < Rank(level))
  }

  /**
   * A call emits iff its level is at most the priority: a higher priority lets more
   * through, so ERROR suppresses `fatal` and only FATAL lets every level through.
   */
  lemma EmitsIffAtMost(priority: LogPriority, level: LogPriority)
    ensures Emits(priority, level) <==> Rank(level) <= Rank(priority)
    ensures Emits(priority, TRACE)
    ensures Emits(priority, FATAL) <==> priority == FATAL
    ensures Emits(INFO, level) <==> level == TRACE || level == DEBUG || level == INFO
  {
  }

  /** Different levels are written under different names. */
  lemma LevelNamesDistinct(p: LogPriority, q: LogPriority)
    ensures LevelName(p) == LevelName(q) <==> p == q
  {
  }

  // ---------------------------------------------------------------- file name

  const LOG_EXTENSION: string := ".log"

  /** `find_last_of(".")`. */
  function LastDot(s: string): (r: Option<nat>)
    ensures r.Some? ==> r.value < |s| && s[r.value] == '.' && forall k :: r.value < k < |s| ==> s[k] != '.'
    ensures r.None? ==> forall k :: 0 <= k < |s| ==> s[k] != '.'
  {
    if s == [] then None
    else if s[|s| - 1] == '.' then Some(|s| - 1)
    else LastDot(s[..|s| - 1])
  }

  /**
   * What the constructor raises: `substr(npos)` throws `std::out_of_range` when the
   * name has no '.', then the extension check, then the attempt to open the file.
   */
  datatype OpenFault = OutOfRange | Thrown(exception: LogException)

  function OpenError(name: string, opens: bool): Option<OpenFault>
  {
    match LastDot(name)
    case None => Some(OutOfRange)
    case Some(d) =>
      if name[d..] != LOG_EXTENSION then Some(Thrown(NewLogException(INVALID_LOG_FILE_EXTENSION)))
      else if !opens then Some(Thrown(NewLogException(FAIL_TO_OPEN_FILE)))
      else None
  }

  predicate EndsWithLog(name: string)
  {
    |name| >= 4 && name[|name| - 4..] == LOG_EXTENSION
  }

  /**
   * The suffix from the last '.' is ".log" exactly when the name ends with ".log"; a
   * name with no '.' at all faults before the check.
   */
  lemma OpenErrorMeaning(name: string, opens: bool)
    ensures OpenError(name, opens).None? <==> EndsWithLog(name) && opens
    ensures OpenError(name, opens) == Some(OutOfRange) <==> forall k :: 0 <= k < |name| ==> name[k] != '.'
    ensures (exists k :: 0 <= k < |name| && name[k] == '.') && !EndsWithLog(name) ==>
      OpenError(name, opens) == Some(Thrown(NewLogException(INVALID_LOG_FILE_EXTENSION)))
  {
    var n := |name|;
    if EndsWithLog(name) {
      assert name[n - 4] == '.';
      var d := LastDot(name).value;
      assert name[n - 3] == 'l' && name[n - 2] == 'o' && name[n - 1] == 'g';
      assert d == n - 4;
    }
    match LastDot(name)
    case None =>
    case Some(d) =>
      if name[d..] == LOG_EXTENSION {
        assert n - d == 4;
        assert name[n - 4..] == name[d..];
      }
  }

  // ---------------------------------------------------------------- records

  /** `std::experimental::source_location` of the call. */
  datatype SourceLocation = SourceLocation(file: string, line: nat)

  /** `logStr`: `[time] [LEVEL] {"file:line", "message"}` and a newline. */
  function LogStr(level: LogPriority, message: string, loc: SourceLocation, time: string): string
  {
    RecordHead(level, time) + RecordBody(message, loc) + "\n"
  }

  function RecordHead(level: LogPriority, time: string): string
  {
    "[" + time + "] [" + LevelName(level) + "] {\""
  }

  function RecordBody(message: string, loc: SourceLocation): string
  {
    loc.file + ":" + NatToString(loc.line) + "\", \"" + message + "\"}"
  }

  predicate NoNewline(s: string)
  {
    forall k :: 0 <= k < |s| ==> s[k] != '\n'
  }

  lemma NoNewlineAppend(a: string, b: string)
    requires NoNewline(a) && NoNewline(b)
    ensures NoNewline(a + b)
  {
    assert forall k :: |a| <= k < |a + b| ==> (a + b)[k] == b[k - |a|];
  }

  /**
   * A record starts with the bracketed time and level, ends with a newline, and, when
   * none of its parts holds a newline, has no other newline: one record per line.
   */
  lemma LogStrIsOneLine(level: LogPriority, message: string, loc: SourceLocation, time: string)
    ensures var r := LogStr(level, message, loc, time);
      IsPrefix("[" + time + "] [" + LevelName(level) + "] {\"", r) && r[|r| - 1] == '\n'
    ensures var r := LogStr(level, message, loc, time);
      NoNewline(message) && NoNewline(loc.file) && NoNewline(time) ==> NoNewline(r[..|r| - 1])
  {
    var head := RecordHead(level, time);
    var body := RecordBody(message, loc);
    var r := LogStr(level, message, loc, time);
    assert r == (head + body) + "\n";
    assert r[..|head|] == head;
    assert r[..|r| - 1] == head + body;
    if NoNewline(message) && NoNewline(loc.file) && NoNewline(time) {
      NoNewlineAppend("[", time);
      NoNewlineAppend("[" + time, "] [");
      NoNewlineAppend("[" + time + "] [", LevelName(level));
      NoNewlineAppend("[" + time + "] [" + LevelName(level), "] {\"");
      NoNewlineAppend(loc.file, ":");
      NoNewlineAppend(loc.file + ":", NatToString(loc.line));
      NoNewlineAppend(loc.file + ":" + NatToString(loc.line), "\", \"");
      NoNewlineAppend(loc.file + ":" + NatToString(loc.line) + "\", \"", message);
      NoNewlineAppend(loc.file + ":" + NatToString(loc.line) + "\", \"" + message, "\"}");
      NoNewlineAppend(head, body);
    }
  }

  // ---------------------------------------------------------------- loggers

  /** `Logger::m_priority`: one value for every logger, INFO until `setPriority`. */
  class SharedPriority {
    var level: LogPriority

    constructor ()
      ensures level == INFO
    {
      level := INFO;
    }
  }

  /** Standard output, shared by every logger that does not write to its file. */
  class Stdout {
    var text: seq<string>

    constructor ()
      ensures text == []
    {
      text := [];
    }
  }

  class Logger {
    const filePath: string
    var saveLogToFile: bool
    /** Whether `m_logFile` is open. */
    var fileOpen: bool
    /** The records this logger has appended to its file. */
    var fileText: seq<string>
    const priority: SharedPriority
    const stdout: Stdout

    constructor Opened(name: string, priority: SharedPriority, stdout: Stdout)
      ensures filePath == name && saveLogToFile && fileOpen && fileText == []
      ensures this.priority == priority && this.stdout == stdout
    {
      filePath := name;
      saveLogToFile := true;
      fileOpen := true;
      fileText := [];
      this.priority := priority;
      this.stdout := stdout;
    }

    /**
     * `Logger(p_filename)`: a logger that writes to its file, or the fault the
     * constructor raises; `opens` says whether the file can be opened for appending.
     */
    static method Create(name: string, opens: bool, priority: SharedPriority, stdout: Stdout)
      returns (r: Result<Logger, OpenFault>)
      ensures r.Err? <==> OpenError(name, opens).Some?
      ensures r.Err? ==> r.error == OpenError(name, opens).value
      ensures r.Ok? ==> (fresh(r.value) && r.value.filePath == name && r.value.saveLogToFile &&
        r.value.fileOpen && r.value.fileText == [] && r.value.priority == priority && r.value.stdout == stdout)
    {
      var e := OpenError(name, opens);
      if e.Some? {
        return Err(e.value);
      }
      var l := new Logger.Opened(name, priority, stdout);
      return Ok(l);
    }

    /** `enableLogFile`. */
    method EnableLogFile(flag: bool)
      modifies this
      ensures saveLogToFile == flag && fileOpen == old(fileOpen) && fileText == old(fileText)
    {
      saveLogToFile := flag;
    }

    /** `setPriority`: changes the level every logger sharing `priority` reads. */
    method SetPriority(p: LogPriority)
      modifies priority
      ensures priority.level == p
    {
      priority.level := p;
    }

    /** `close`: afterwards the file is closed; closing again changes nothing. */
    method Close()
      modifies this
      ensures !fileOpen && saveLogToFile == old(saveLogToFile) && fileText == old(fileText)
      ensures !old(fileOpen) ==> unchanged(this)
    {
      if fileOpen {
        fileOpen := false;
      }
    }

    /**
     * A level method (`trace` … `fatal`): when the gate lets the call through, the
     * record goes to the file (nowhere once the file is closed) or to standard output.
     */
    method LogAt(level: LogPriority, message: string, loc: SourceLocation, time: string)
      modifies this, stdout
      ensures saveLogToFile == old(saveLogToFile) && fileOpen == old(fileOpen)
      ensures var r := LogStr(level, message, loc, time);
        var emit := Emits(priority.level, level);
        fileText == old(fileText) + (if emit && saveLogToFile && fileOpen then [r] else []) &&
        stdout.text == old(stdout.text) + (if emit && !saveLogToFile then [r] else [])
    {
      if !Emits(priority.level, level) {
        return;
      }
      Log(level, message, loc, time);
    }

    /** `log`: the record goes to the file or to standard output. */
    method Log(level: LogPriority, message: string, loc: SourceLocation, time: string)
      modifies this, stdout
      ensures saveLogToFile == old(saveLogToFile) && fileOpen == old(fileOpen)
      ensures var r := LogStr(level, message, loc, time);
        fileText == old(fileText) + (if saveLogToFile && fileOpen then [r] else []) &&
        stdout.text == old(stdout.text) + (if !saveLogToFile then [r] else [])
    {
      var r := LogStr(level, message, loc, time);
      if saveLogToFile {
        if fileOpen {
          fileText := fileText + [r];
        }
      } else {
        stdout.text := stdout.text + [r];
      }
    }
  }

  /** Setting the priority through one logger changes what every logger sharing it emits. */
  method PriorityIsShared(a: Logger, b: Logger, p: LogPriority, level: LogPriority)
    requires a.priority == b.priority
    modifies a.priority
    ensures Emits(b.priority.level, level) <==> Rank(level) <= Rank(p)
  {
    a.SetPriority(p);
    EmitsIffAtMost(p, level);
  }

  /** The range overload's loop: each element's text, with ", " between elements, inside brackets. */
  method RangeToString(xs: seq<Loggable>) returns (str: string)
    ensures str == ToString(Range(xs))
  {
    str := "[";
    var i := 0;
    while i < |xs|
      invariant 0 <= i <= |xs|
      invariant str == "[" + JoinComma(Texts(xs)[..i]) + (if 0 < i < |xs| then ", " else "")
    {
      var ts := Texts(xs);
      assert ts[..i + 1][..i] == ts[..i];
      str := str + ToString(xs[i]);
      i := i + 1;
      if i != |xs| {
        str := str + ", ";
      }
    }
    str := str + "]";
    assert Texts(xs)[..i] == Texts(xs);
    RangeText(xs);
  }
}
