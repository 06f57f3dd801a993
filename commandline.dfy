/**
 * The database console. `handleInitDB` asks for a directory until one loads (or the
 * user types `exit`); `handleCommandLine` then reads lines and routes each one:
 * `help`, `clear`, `exit`, `db get <key>`, `db get all` and
 * `db write [-f] <key> <type> <value>`. What the program shows is modelled as a list
 * of `Emit`s; the text `std::cin` reads and the lines `readline` returns are inputs.
 */
module CommandLine {
  import opened Common
  import opened Streams
  import opened DbErrors
  import opened DataValues
  import opened Files
  import opened Database

  /** One thing the console shows: text on `std::cout`, text on `std::cerr`, or `system("clear")`. */
  datatype Emit = Out(text: string) | ErrOut(text: string) | ClearScreen

  const PROMPT: string := "Your database path ('exit' if you want to stop): "
  const LOADED: string := "Load successfully\n"
  const EXITING: string := "Exiting...\n"
  const NOT_DB: string := "Invalid command, must have db at the begin\n"
  const UNKNOWN_COMMAND: string := "Invalid command - use help to list all the commands.\n"
  const BAD_RECORD: string := "Invalid format of record, must be db write [-f] <key> <type> <value>.\n"
  const HELP: seq<Emit> := [
    Out("Commands:\n"),
    Out("clear - clear the screen\n"),
    Out("help - show this help\n"),
    Out("db get <key> - get data by key\n"),
    Out("db write [-f] <key> <data-type> <value> - modify data by key\n"),
    Out("db get all - get all data\n"),
    Out("exit - exit the program\n")]

  // ---------------------------------------------------------------- the force flag

  /**
   * `checkForceAndErase`: at the first "-f", the character before it and the flag
   * itself are erased and the force flag is set. A flag at position 0 makes the erase
   * start at `npos`, which throws `std::out_of_range`: `None`.
   */
  function ForceErase(input: string): (r: Option<(string, bool)>)
    ensures r.None? <==> Find(input, "-f") == Some(0)
    ensures r.Some? ==> (r.value.1 <==> Find(input, "-f").Some?)
    ensures r.Some? && !r.value.1 ==> r.value.0 == input
    ensures r.Some? && r.value.1 ==> |r.value.0| == |input| - 3
  {
    match Find(input, "-f")
    case None => Some((input, false))
    case Some(p) => if p == 0 then None else Some((input[..p - 1] + input[p + 2..], true))
  }

  /** A flag typed after a flag-free prefix goes, with the space before it, and the flag is set. */
  lemma ForceEraseTyped(pre: string, post: string)
    requires forall q: nat :: !OccursAt(pre, "-f", q)
    ensures ForceErase(pre + " -f" + post) == Some((pre + post, true))
  {
    var s := pre + " -f" + post;
    var p := |pre| + 1;
    assert s[p..p + 2] == "-f";
    forall q: nat | q < p ensures !OccursAt(s, "-f", q) {
      if OccursAt(s, "-f", q) {
        assert s[q] == '-' && s[q + 1] == 'f' by {
          assert s[q..q + 2][0] == s[q] && s[q..q + 2][1] == s[q + 1];
        }
        if q + 2 <= |pre| {
          assert pre[q..q + 2] == [pre[q], pre[q + 1]] == [s[q], s[q + 1]];
          assert OccursAt(pre, "-f", q);
          assert false;
        }
      }
    }
    assert OccursAt(s, "-f", p);
    var r := Find(s, "-f");
    assert r.Some? && r.value <= p;
    assert !(r.value < p);
    assert s[..p - 1] + s[p + 2..] == pre + post;
  }

  /** A line whose first word is "db" never reaches the throwing erase. */
  lemma DbLineNeverFaults(input: string)
    requires FirstWord(input) == "db"
    ensures ForceErase(input).Some?
  {
    var b := SkipSpace(input, 0);
    var e := TokenEnd(input, b);
    assert FirstWord(input) == input[b..e];
    assert input[b] == 'd';
    assert input[0] != '-';
    assert !OccursAt(input, "-f", 0);
  }

  // ---------------------------------------------------------------- the record pattern

  /**
   * The text `handleWriteCommand` matches: two words are read, then the rest of the
   * line, whose first character (the separating space) is dropped.
   */
  function RecordPart(input: string): string
  {
    var (st1, w1) := Extract(Open(input), "");
    var (st2, w2) := Extract(st1, w1);
    var (st3, line) := GetLine(st2, "");
    if line == "" then line else line[1..]
  }

  /** The fields of `^(/\S+) (\S+) (.+)$`. */
  datatype WriteRecord = WriteRecord(key: string, valueType: string, value: string)

  /** Reference: `r` reads as key, type and value, separated by single spaces. */
  predicate IsWriteRecord(r: string, w: WriteRecord)
  {
    r == w.key + " " + w.valueType + " " + w.value &&
    ValidKey(w.key) &&
    |w.valueType| > 0 && NoSpace(w.valueType) &&
    |w.value| > 0 && NoLineTerminator(w.value)
  }

  /**
   * `std::regex_search` with the record pattern. The key and the type are runs of
   * non-space characters, each closed by one ' '; the value is the rest, non-empty
   * and free of line terminators.
   */
  function MatchWrite(r: string): Option<WriteRecord>
  {
    if |r| < 2 || r[0] != '/' then None
    else
      var e1 := TokenEnd(r, 1);
      if e1 < 2 || e1 == |r| || r[e1] != ' ' then None
      else
        var e2 := TokenEnd(r, e1 + 1);
        if e2 == e1 + 1 || e2 == |r| || r[e2] != ' ' then None
        else
          var v := r[e2 + 1..];
          if v == [] || !NoLineTerminator(v) then None
          else Some(WriteRecord(r[..e1], r[e1 + 1..e2], v))
  }

  /** What the pattern captures is a record that reads back as the text. */
  lemma MatchWriteSound(r: string)
    ensures MatchWrite(r).Some? ==> IsWriteRecord(r, MatchWrite(r).value)
  {
    if MatchWrite(r).Some? {
      var w := MatchWrite(r).value;
      var e1 := TokenEnd(r, 1);
      var e2 := TokenEnd(r, e1 + 1);
      assert w.key == r[..e1] && w.valueType == r[e1 + 1..e2] && w.value == r[e2 + 1..];
      assert r == r[..e1] + " " + r[e1 + 1..e2] + " " + r[e2 + 1..];
    }
  }

  /** Every text that reads as a record is matched, with exactly those fields. */
  lemma MatchWriteComplete(r: string, w: WriteRecord)
    requires IsWriteRecord(r, w)
    ensures MatchWrite(r) == Some(w)
  {
    var e1 := |w.key|;
    var e2 := e1 + 1 + |w.valueType|;
    assert r[1..e1] == w.key[1..];
    TokenEndAt(r, 1, e1);
    assert r[e1 + 1..e2] == w.valueType;
    TokenEndAt(r, e1 + 1, e2);
    assert r[..e1] == w.key;
    assert r[e2 + 1..] == w.value;
  }

  lemma MatchWriteExactly(r: string, w: WriteRecord)
    ensures MatchWrite(r) == Some(w) <==> IsWriteRecord(r, w)
  {
    MatchWriteSound(r);
    if IsWriteRecord(r, w) {
      MatchWriteComplete(r, w);
    }
  }

  /** Two typed words and a record, on one line: the pattern sees that record. */
  lemma RecordPartTyped(w1: string, w2: string, rec: string)
    requires |w1| > 0 && NoSpace(w1) && |w2| > 0 && NoSpace(w2)
    requires forall k :: 0 <= k < |rec| ==> rec[k] != '\n'
    ensures RecordPart(w1 + " " + w2 + " " + rec) == rec
  {
    var pre := w1 + " " + w2;
    var s := pre + (" " + rec);
    assert s == w1 + " " + w2 + " " + rec;
    var e2 := |pre|;
    var st2 := Stream(s, e2, true);
    assert Extract(Extract(Open(s), "").0, w1) == (st2, w2) by {
      TwoWords(w1, w2, " " + rec);
    }
    assert s[e2..] == " " + rec;
    LineEndAll(s, e2);
    assert GetLine(st2, "").1 == " " + rec;
  }

  /** Two extractions from a line that starts with two words deliver the second and stop after it. */
  lemma TwoWords(w1: string, w2: string, rest: string)
    requires |w1| > 0 && NoSpace(w1) && |w2| > 0 && NoSpace(w2)
    requires rest == [] || IsSpace(rest[0])
    ensures var s := w1 + " " + w2 + rest;
      Extract(Extract(Open(s), "").0, w1) == (Stream(s, |w1| + 1 + |w2|, true), w2)
  {
    var s := w1 + " " + w2 + rest;
    var e1 := |w1|;
    var b2 := e1 + 1;
    var e2 := b2 + |w2|;
    assert SkipSpace(s, 0) == 0;
    assert s[0..e1] == w1;
    TokenEndAt(s, 0, e1);
    assert SkipSpace(s, e1 + 1) == b2;
    assert SkipSpace(s, e1) == b2;
    assert s[b2..e2] == w2;
    TokenEndAt(s, b2, e2);
  }

  lemma {:induction false} LineEndAll(s: string, i: nat)
    requires i <= |s|
    requires forall k :: i <= k < |s| ==> s[k] != '\n'
    decreases |s| - i
    ensures LineEnd(s, i) == |s|
  {
    if i < |s| {
      LineEndAll(s, i + 1);
    }
  }

  // ---------------------------------------------------------------- routing a line

  /** What a line that starts the database part of the loop asks for. */
  datatype DbCommand = NotDb | Get(key: string) | Write | UnknownDb

  datatype Command = Blank | Exit | Clear | Help | DbLine(cmd: DbCommand)

  /**
   * The routing of `handleCommandLine`: the four literal lines first; any other line
   * is read word by word.
   */
  function Classify(input: string): (c: Command)
    ensures c == Exit <==> input == "exit"
  {
    if input == "" || input == "\n" then Blank
    else if input == "exit" then Exit
    else if input == "clear" then Clear
    else if input == "help" then Help
    else DbLine(Route(input))
  }

  /**
   * The first word must be "db"; the second word (which keeps "db" when there is
   * none) picks `get`, whose key is the third word or "", or `write`.
   */
  function Route(input: string): DbCommand
  {
    var (st1, query) := Extract(Open(input), "");
    if query != "db" then NotDb
    else
      var (st2, query2) := Extract(st1, query);
      if query2 == "get" then Get(Extract(st2, "").1)
      else if query2 == "write" then Write
      else UnknownDb
  }

  /** Reference: the database command named by a line's words. */
  function RouteOfWords(ws: seq<string>): DbCommand
  {
    if ws == [] || ws[0] != "db" then NotDb
    else if |ws| >= 2 && ws[1] == "get" then Get(if |ws| >= 3 then ws[2] else "")
    else if |ws| >= 2 && ws[1] == "write" then Write
    else UnknownDb
  }

  lemma RouteByWords(input: string)
    ensures Route(input) == RouteOfWords(Tokens(input))
  {
    var st0 := Open(input);
    ExtractNext(st0, "");
    var (st1, q1) := Extract(st0, "");
    ExtractNext(st1, q1);
    var (st2, q2) := Extract(st1, q1);
    ExtractNext(st2, "");
  }

  /** `db get <key>`, typed with single spaces, asks for that key. */
  lemma TypedGet(key: string)
    requires |key| > 0 && NoSpace(key)
    ensures Classify("db get " + key) == DbLine(Get(key))
  {
    var s := "db get " + key;
    assert s[0] == 'd';
    TypedGetWords(key);
    RouteByWords(s);
  }

  lemma TypedGetWords(key: string)
    requires |key| > 0 && NoSpace(key)
    ensures Tokens("db get " + key) == ["db", "get", key]
  {
    var ws := ["db", "get", key];
    assert ws[1..] == ["get", key] && ws[1..][1..] == [key];
    assert JoinWords(ws[1..]) == "get " + key;
    assert JoinWords(ws) == "db get " + key;
    TokensOfJoin(ws);
  }

  /** A write line's first word is "db". */
  lemma WriteIsDb(input: string)
    requires Route(input) == Write
    ensures FirstWord(input) == "db"
  {
  }

  // ---------------------------------------------------------------- what a line shows

  /** One line of console output, ended by `std::endl`. */
  function Line(text: string): (e: Emit)
    ensures e.Out? && |e.text| == |text| + 1 && e.text[..|text|] == text && e.text[|text|] == '\n'
  {
    Out(text + "\n")
  }

  /** Each record on its own line. */
  function AllLines(rs: seq<string>): (out: seq<Emit>)
    ensures |out| == |rs| && forall i :: 0 <= i < |rs| ==> out[i] == Line(rs[i])
  {
    seq(|rs|, i requires 0 <= i < |rs| => Line(rs[i]))
  }

  /** What `getKey` and `getAllKey` print for a database error. */
  function GetError(e: ExceptionType): Emit
  {
    Line("Error: " + Message(e))
  }

  /** `handleGetCommand`: every record for "all"; otherwise the record, or "Error: " and the message. */
  function GetReport(ss: seq<FileState>, key: string): seq<Emit>
  {
    if key == "all" then AllLines(Concat(Blocks(ss), |ss|))
    else match GetIn(ss, key)
      case Ok(text) => [Line(text)]
      case Err(e) => [GetError(e)]
  }

  /** `writeKey`: a success names the record with its formatted value; a failure shows the message. */
  function WriteReport(r: Result<string, ExceptionType>, w: WriteRecord, isForce: bool): Emit
  {
    match r
    case Ok(v) =>
      Out("Successfully write new \"" + w.key + " " + w.valueType + " " + v + "\"" +
          (if isForce then " to DB and saved to file." else " to DB on RAM.") + "\n")
    case Err(e) => Line(Message(e))
  }

  /** What a line shows, the managers' states after it, and whether it ends the session. */
  datatype Step = Step(out: seq<Emit>, states: seq<FileState>, stop: bool)

  /** `handleWriteCommand` on the line `text` left after the force flag is erased. */
  function WriteEffect(ss: seq<FileState>, cs: seq<Config>, text: string, isForce: bool): (s: Step)
    requires |ss| == |cs| && AllAgree(ss)
    ensures |s.states| == |ss| && AllAgree(s.states) && !s.stop
  {
    match MatchWrite(RecordPart(text))
    case None => Step([ErrOut(BAD_RECORD)], ss, false)
    case Some(w) =>
      ModifyKeepsAgreement(ss, cs, w.key, w.valueType, w.value, isForce);
      var m := ModifyFrom(ss, cs, 0, w.key, w.valueType, w.value, isForce);
      Step([WriteReport(m.0, w, isForce)], m.1, false)
  }

  /** `checkForceAndErase`, then `handleWriteCommand`, on a line whose first word is "db". */
  function WriteStep(ss: seq<FileState>, cs: seq<Config>, input: string): (s: Step)
    requires |ss| == |cs| && AllAgree(ss) && FirstWord(input) == "db"
    ensures |s.states| == |ss| && AllAgree(s.states) && !s.stop
  {
    DbLineNeverFaults(input);
    var erased := ForceErase(input).value;
    WriteEffect(ss, cs, erased.0, erased.1)
  }

  /** One line of `handleCommandLine`. */
  function LineStep(ss: seq<FileState>, cs: seq<Config>, input: string): (s: Step)
    requires |ss| == |cs| && AllAgree(ss)
    ensures |s.states| == |ss| && AllAgree(s.states)
    ensures s.stop <==> input == "exit"
  {
    match Classify(input)
    case Blank => Step([], ss, false)
    case Exit => Step([], ss, true)
    case Clear => Step([ClearScreen], ss, false)
    case Help => Step(HELP, ss, false)
    case DbLine(_) => DbStep(ss, cs, input)
  }

  /** A line other than the four literal commands. */
  function DbStep(ss: seq<FileState>, cs: seq<Config>, input: string): (s: Step)
    requires |ss| == |cs| && AllAgree(ss)
    ensures |s.states| == |ss| && AllAgree(s.states) && !s.stop
  {
    match Route(input)
    case NotDb => Step([Out(NOT_DB)], ss, false)
    case Get(key) => Step(GetReport(ss, key), ss, false)
    case Write => WriteIsDb(input); WriteStep(ss, cs, input)
    case UnknownDb => Step([Out(UNKNOWN_COMMAND)], ss, false)
  }

  /**
   * The command loop over the lines `readline` returns: it stops at `exit`, and prints
   * "Exiting..." when the lines run out.
   */
  function Session(ss: seq<FileState>, cs: seq<Config>, lines: seq<string>): (s: Step)
    requires |ss| == |cs| && AllAgree(ss)
    decreases |lines|
    ensures |s.states| == |ss| && AllAgree(s.states)
  {
    if lines == [] then Step([Out(EXITING)], ss, false)
    else
      var first := LineStep(ss, cs, lines[0]);
      if first.stop then first
      else
        var rest := Session(first.states, cs, lines[1..]);
        Step(first.out + rest.out, rest.states, rest.stop)
  }

  /** The loop over the lines from `i` on: line `i` first, then, unless it was `exit`, the rest. */
  lemma SessionAt(ss: seq<FileState>, cs: seq<Config>, lines: seq<string>, i: nat)
    requires |ss| == |cs| && AllAgree(ss) && i < |lines|
    ensures var s := LineStep(ss, cs, lines[i]);
      s.stop ==> Session(ss, cs, lines[i..]) == s
    ensures var s := LineStep(ss, cs, lines[i]);
      var rest := Session(s.states, cs, lines[i + 1..]);
      !s.stop ==> Session(ss, cs, lines[i..]) == Step(s.out + rest.out, rest.states, rest.stop)
  {
    assert lines[i..][0] == lines[i] && lines[i..][1..] == lines[i + 1..];
  }

  /** Lines after an `exit` are never read. */
  lemma {:induction false} SessionEndsAtExit(ss: seq<FileState>, cs: seq<Config>, lines: seq<string>, more: seq<string>)
    requires |ss| == |cs| && AllAgree(ss)
    requires "exit" in lines
    decreases |lines|
    ensures Session(ss, cs, lines + more) == Session(ss, cs, lines)
  {
    assert (lines + more)[0] == lines[0];
    var first := LineStep(ss, cs, lines[0]);
    if lines[0] != "exit" {
      var j :| 0 <= j < |lines| && lines[j] == "exit";
      assert lines[1..][j - 1] == "exit";
      assert (lines + more)[1..] == lines[1..] + more;
      SessionEndsAtExit(first.states, cs, lines[1..], more);
    }
  }

  /** Only `db write` lines change the database. */
  lemma {:induction false} SessionWithoutWrites(ss: seq<FileState>, cs: seq<Config>, lines: seq<string>)
    requires |ss| == |cs| && AllAgree(ss)
    requires forall i :: 0 <= i < |lines| ==> Classify(lines[i]) != DbLine(Write)
    decreases |lines|
    ensures Session(ss, cs, lines).states == ss
  {
    if lines != [] {
      assert Classify(lines[0]) != DbLine(Write);
      SessionWithoutWrites(ss, cs, lines[1..]);
    }
  }

  // ---------------------------------------------------------------- asking for the directory

  datatype InitOutcome = Loaded(path: string) | Quit | Spins

  function InitReport(e: Option<ExceptionType>): Emit
  {
    if e.None? then Out(LOADED) else Line(Message(e.value))
  }

  datatype Dialogue = Dialogue(outcome: InitOutcome, out: seq<Emit>)

  /**
   * The `handleInitDB` loop over the words `std::cin` still holds, `last` being the
   * path read before. Each round prompts and reads a path; "exit" quits; otherwise
   * `init` runs and reports. Once the words are exhausted the read fails and keeps the
   * previous path, so the same failure repeats forever: `Spins`.
   */
  function Dialog(fs: map<string, Directory>, words: seq<string>, last: string, floatText: FloatFormatter): (d: Dialogue)
    decreases |words|
    ensures d.out != [] && d.out[0] == Out(PROMPT)
  {
    var path := if words == [] then last else words[0];
    if path == "exit" then Dialogue(Quit, [Out(PROMPT)])
    else
      var e := InitError(fs, path, floatText);
      if e.None? then Dialogue(Loaded(path), [Out(PROMPT)] + [InitReport(e)])
      else if words == [] then Dialogue(Spins, [Out(PROMPT)] + [InitReport(e)])
      else
        var d := Dialog(fs, words[1..], path, floatText);
        Dialogue(d.outcome, [Out(PROMPT)] + ([InitReport(e)] + d.out))
  }

  /** The dialog loads exactly a directory that was typed and that `init` accepts. */
  lemma {:induction false} DialogLoads(fs: map<string, Directory>, words: seq<string>, last: string, floatText: FloatFormatter)
    decreases |words|
    ensures var d := Dialog(fs, words, last, floatText);
      d.outcome.Loaded? ==>
        (d.outcome.path in words || d.outcome.path == last) && InitError(fs, d.outcome.path, floatText).None?
  {
    if words != [] && words[0] != "exit" && InitError(fs, words[0], floatText).Some? {
      DialogLoads(fs, words[1..], words[0], floatText);
    }
  }

  /** Typing "exit" first quits without trying any directory. */
  lemma DialogExit(fs: map<string, Directory>, words: seq<string>, last: string, floatText: FloatFormatter)
    requires words != [] && words[0] == "exit"
    ensures Dialog(fs, words, last, floatText) == Dialogue(Quit, [Out(PROMPT)])
  {
  }

  // ---------------------------------------------------------------- the console object

  class CommandLineInterface {
    const db: InMemDatabase
    var console: seq<Emit>

    predicate Valid()
      reads db, db.fileManagers
    {
      db.Valid()
    }

    constructor (db: InMemDatabase)
      ensures this.db == db && console == []
    {
      this.db := db;
      console := [];
    }

    /** `initDB`: runs `init` and reports "Load successfully" or the error's message. */
    method InitDB(fs: map<string, Directory>, path: string, floatText: FloatFormatter) returns (ok: bool)
      requires Valid()
      modifies this, db
      ensures Valid()
      ensures ok == InitError(fs, path, floatText).None?
      ensures console == old(console) + [InitReport(InitError(fs, path, floatText))]
      ensures ok ==> (path in fs &&
        db.States() == LoadedStates(path, RegularFiles(fs[path].entries), floatText) &&
        db.Configs() == LoadedConfigs(RegularFiles(fs[path].entries), floatText) &&
        forall k :: 0 <= k < |db.fileManagers| ==> fresh(db.fileManagers[k]))
    {
      var err := db.Init(fs, path, floatText);
      console := console + [InitReport(err)];
      ok := err.None?;
    }

    /**
     * `handleInitDB` over the text typed on standard input: the outcome and the console
     * follow `Dialog` over its words, and a loaded directory leaves its managers loaded.
     */
    method HandleInitDB(fs: map<string, Directory>, typed: string, floatText: FloatFormatter) returns (outcome: InitOutcome)
      requires Valid()
      modifies this, db
      ensures Valid()
      ensures outcome == Dialog(fs, Tokens(typed), "", floatText).outcome
      ensures console == old(console) + Dialog(fs, Tokens(typed), "", floatText).out
      ensures outcome.Loaded? ==> (outcome.path in fs &&
        db.States() == LoadedStates(outcome.path, RegularFiles(fs[outcome.path].entries), floatText) &&
        db.Configs() == LoadedConfigs(RegularFiles(fs[outcome.path].entries), floatText) &&
        forall k :: 0 <= k < |db.fileManagers| ==> fresh(db.fileManagers[k]))
    {
      var st := Open(typed);
      var path := "";
      ghost var shown: seq<Emit> := [];
      ghost var full := Dialog(fs, Tokens(typed), "", floatText);
      while true
        invariant st.Valid() && Valid()
        invariant console == old(console) + shown
        invariant full.outcome == Dialog(fs, Remaining(st), path, floatText).outcome
        invariant full.out == shown + Dialog(fs, Remaining(st), path, floatText).out
        decreases |Remaining(st)|
      {
        ghost var d := Dialog(fs, Remaining(st), path, floatText);
        ghost var before := console;
        var quit, ok;
        st, path, quit, ok := InitRound(fs, st, path, floatText);
        if quit {
          AppendAssoc(old(console), shown, [Out(PROMPT)]);
          return Quit;
        }
        ghost var report := [Out(PROMPT)] + [InitReport(InitError(fs, path, floatText))];
        AppendAssoc(old(console), shown, report);
        if ok {
          return Loaded(path);
        }
        if !st.good {
          return Spins;
        }
        ghost var later := Dialog(fs, Remaining(st), path, floatText);
        assert d.out == [Out(PROMPT)] + ([InitReport(InitError(fs, path, floatText))] + later.out);
        AppendAssoc([Out(PROMPT)], [InitReport(InitError(fs, path, floatText))], later.out);
        AppendAssoc(shown, report, later.out);
        shown := shown + report;
      }
    }

    /**
     * One round of `handleInitDB`: the prompt, `std::cin >> path`, and, unless the path
     * is "exit", `initDB(path)`.
     */
    method InitRound(fs: map<string, Directory>, st: Stream, path: string, floatText: FloatFormatter)
      returns (st': Stream, path': string, quit: bool, ok: bool)
      requires st.Valid() && Valid()
      modifies this, db
      ensures st'.Valid() && Valid()
      ensures Remaining(st) == [] ==> path' == path && Remaining(st') == [] && !st'.good
      ensures Remaining(st) != [] ==> path' == Remaining(st)[0] && Remaining(st') == Remaining(st)[1..] && st'.good
      ensures quit <==> path' == "exit"
      ensures quit ==> console == old(console) + [Out(PROMPT)]
      ensures !quit ==> (ok == InitError(fs, path', floatText).None? &&
        console == old(console) + ([Out(PROMPT)] + [InitReport(InitError(fs, path', floatText))]))
      ensures !quit && ok ==> (path' in fs &&
        db.States() == LoadedStates(path', RegularFiles(fs[path'].entries), floatText) &&
        db.Configs() == LoadedConfigs(RegularFiles(fs[path'].entries), floatText) &&
        forall k :: 0 <= k < |db.fileManagers| ==> fresh(db.fileManagers[k]))
    {
      console := console + [Out(PROMPT)];
      ExtractNext(st, path);
      var next := Extract(st, path);
      st', path' := next.0, next.1;
      if path' == "exit" {
        return st', path', true, false;
      }
      quit := false;
      ok := InitDB(fs, path', floatText);
      AppendAssoc(old(console), [Out(PROMPT)], [InitReport(InitError(fs, path', floatText))]);
    }

    /** `getKey`: the record text, or nothing after printing "Error: " and the message. */
    method GetKey(key: string) returns (r: Option<string>)
      modifies this
      ensures GetIn(db.States(), key).Ok? ==> r == Some(GetIn(db.States(), key).value) && console == old(console)
      ensures GetIn(db.States(), key).Err? ==>
        r == None && console == old(console) + [GetError(GetIn(db.States(), key).error)]
    {
      var result := db.Get(key);
      match result
      case Ok(text) =>
        r := Some(text);
      case Err(e) =>
        console := console + [GetError(e)];
        r := None;
    }

    /** `getAllKey`: every record of every manager, in order. */
    method GetAllKey() returns (all: seq<string>)
      ensures all == Concat(Blocks(db.States()), |db.States()|)
    {
      all := db.GetAll();
    }

    method HandleGetCommand(key: string)
      modifies this
      ensures console == old(console) + GetReport(db.States(), key)
    {
      if key == "all" {
        var result := GetAllKey();
        PrintLines(result);
      } else {
        HandleGetOne(key);
      }
    }

    /** `handleGetCommand` for a single key: the value on its own line, or the error. */
    method HandleGetOne(key: string)
      requires key != "all"
      modifies this
      ensures console == old(console) + GetReport(db.States(), key)
    {
      var result := GetKey(key);
      if result.Some? {
        console := console + [Line(result.value)];
      }
    }

    /** The loop of `handleGetCommand` that prints each record of `getAll`. */
    method PrintLines(rs: seq<string>)
      modifies this
      ensures console == old(console) + AllLines(rs)
    {
      var i := 0;
      while i < |rs|
        invariant 0 <= i <= |rs|
        invariant console == old(console) + AllLines(rs[..i])
      {
        assert AllLines(rs[..i + 1]) == AllLines(rs[..i]) + [Line(rs[i])];
        AppendAssoc(old(console), AllLines(rs[..i]), [Line(rs[i])]);
        console := console + [Line(rs[i])];
        i := i + 1;
      }
      assert rs[..i] == rs;
    }

    /** `writeKey`: the change goes through `modify`, and the outcome is reported. */
    method WriteKey(w: WriteRecord, isForce: bool)
      requires Valid()
      modifies this, db.fileManagers
      ensures Valid() && db.fileManagers == old(db.fileManagers)
      ensures var m := ModifyFrom(old(db.States()), db.Configs(), 0, w.key, w.valueType, w.value, isForce);
        db.States() == m.1 && console == old(console) + [WriteReport(m.0, w, isForce)]
    {
      var r := db.Modify(w.key, w.valueType, w.value, isForce);
      console := console + [WriteReport(r, w, isForce)];
    }

    /** `handleWriteCommand`: a record the pattern matches is written; anything else is refused on `std::cerr`. */
    method HandleWriteCommand(newInput: string, isForce: bool) returns (matched: bool)
      requires Valid()
      modifies this, db.fileManagers
      ensures Valid() && db.fileManagers == old(db.fileManagers)
      ensures matched <==> MatchWrite(RecordPart(newInput)).Some?
      ensures var s := WriteEffect(old(db.States()), db.Configs(), newInput, isForce);
        console == old(console) + s.out && db.States() == s.states
    {
      var st := Open(newInput);
      var next := Extract(st, "");
      next := Extract(next.0, next.1);
      var line := GetLine(next.0, "");
      var record := line.1;
      if record != "" {
        record := record[1..];
      }
      var m := MatchWrite(record);
      if m.None? {
        console := console + [ErrOut(BAD_RECORD)];
        return false;
      }
      WriteKey(m.value, isForce);
      return true;
    }

    /** One line of the command loop; `stop` is set by `exit`. */
    method HandleLine(input: string) returns (stop: bool)
      requires Valid()
      modifies this, db.fileManagers
      ensures Valid() && db.fileManagers == old(db.fileManagers)
      ensures var s := LineStep(old(db.States()), db.Configs(), input);
        console == old(console) + s.out && db.States() == s.states && stop == s.stop
    {
      if input == "" || input == "\n" {
        return false;
      } else if input == "exit" {
        return true;
      } else if input == "clear" {
        console := console + [ClearScreen];
        return false;
      } else if input == "help" {
        console := console + HELP;
        return false;
      }
      HandleDbLine(input);
      return false;
    }

    /** A line that is none of the four literal commands: it must start with "db". */
    method HandleDbLine(input: string)
      requires Valid()
      modifies this, db.fileManagers
      ensures Valid() && db.fileManagers == old(db.fileManagers)
      ensures var s := DbStep(old(db.States()), db.Configs(), input);
        console == old(console) + s.out && db.States() == s.states
    {
      var first := Extract(Open(input), "");
      if first.1 != "db" {
        console := console + [Out(NOT_DB)];
        return;
      }
      var second := Extract(first.0, first.1);
      if second.1 == "get" {
        var key := Extract(second.0, "").1;
        HandleGetCommand(key);
      } else if second.1 == "write" {
        HandleWriteLine(input);
      } else {
        console := console + [Out(UNKNOWN_COMMAND)];
      }
    }

    /** A `db write` line: the force flag is taken out, then the record is written. */
    method HandleWriteLine(input: string)
      requires Valid() && FirstWord(input) == "db"
      modifies this, db.fileManagers
      ensures Valid() && db.fileManagers == old(db.fileManagers)
      ensures var s := WriteStep(old(db.States()), db.Configs(), input);
        console == old(console) + s.out && db.States() == s.states
    {
      DbLineNeverFaults(input);
      var erased := ForceErase(input).value;
      var _ := HandleWriteCommand(erased.0, erased.1);
    }

    /** The command loop over the lines `readline` returns, following `Session`. */
    method CommandLoop(lines: seq<string>) returns (exited: bool)
      requires Valid()
      modifies this, db.fileManagers
      ensures Valid() && db.fileManagers == old(db.fileManagers)
      ensures var s := Session(old(db.States()), db.Configs(), lines);
        console == old(console) + s.out && db.States() == s.states && exited == s.stop
    {
      ghost var cs := db.Configs();
      ghost var cur := db.States();
      ghost var full := Session(cur, cs, lines);
      ghost var shown: seq<Emit> := [];
      var i := 0;
      while i < |lines|
        invariant 0 <= i <= |lines|
        invariant Valid() && db.fileManagers == old(db.fileManagers) && db.Configs() == cs
        invariant db.States() == cur && |cur| == |cs| && AllAgree(cur)
        invariant console == old(console) + shown
        invariant var todo := Session(cur, cs, lines[i..]);
          full == Step(shown + todo.out, todo.states, todo.stop)
      {
        ghost var s := LineStep(cur, cs, lines[i]);
        ghost var rest := Session(s.states, cs, lines[i + 1..]);
        SessionAt(cur, cs, lines, i);
        var stop := HandleLine(lines[i]);
        AppendAssoc(old(console), shown, s.out);
        AppendAssoc(shown, s.out, rest.out);
        shown := shown + s.out;
        cur := s.states;
        if stop {
          return true;
        }
        i := i + 1;
      }
      console := console + [Out(EXITING)];
      return false;
    }

    /**
     * `handleCommandLine`: the directory dialog, then, once a directory has loaded,
     * the command loop over `lines`. The whole transcript is fixed by the directories,
     * the typed path text and the lines.
     */
    method HandleCommandLine(fs: map<string, Directory>, typed: string, lines: seq<string>, floatText: FloatFormatter)
      requires Valid()
      modifies this, db
      ensures Valid()
      ensures var d := Dialog(fs, Tokens(typed), "", floatText);
        !d.outcome.Loaded? ==> console == old(console) + d.out
      ensures var d := Dialog(fs, Tokens(typed), "", floatText);
        d.outcome.Loaded? ==> (d.outcome.path in fs &&
          var rs := RegularFiles(fs[d.outcome.path].entries);
          console == old(console) + d.out + Session(LoadedStates(d.outcome.path, rs, floatText), LoadedConfigs(rs, floatText), lines).out)
    {
      var outcome := HandleInitDB(fs, typed, floatText);
      if !outcome.Loaded? {
        return;
      }
      var _ := CommandLoop(lines);
    }
  }
}
