/**
 * The antenna helpers of the server: a text lookup in the database that turns a
 * database error into "no value", the plot command that `visualizeData` hands to the
 * shell once all four of its configuration values are present, and the random bit
 * string an uplink starts from. What the server prints, logs and runs is a sequence of
 * events on one `Output`, shared by the antenna and the server.
 */
module Antennas {
  import opened Common
  import opened Streams
  import opened DbErrors
  import opened DataValues
  import opened Database
  import Logging
  import Modulation

  // ---------------------------------------------------------------- what the server does outside

  datatype Event =
    | Out(text: string)                                   // std::cout
    | ErrOut(text: string)                                // std::cerr
    | Log(level: Logging.LogPriority, message: string)    // a call on g_serverLogger
    | EnableLogFile(enabled: bool)                        // g_serverLogger.enableLogFile
    | Shell(command: string)                              // system(command)
    | Sent(bytes: string)                                 // send() on a client socket

  /** The console, the server log and the shell, in the order the server uses them. */
  class Output {
    var events: seq<Event>

    constructor ()
      ensures events == []
    {
      events := [];
    }
  }

  /** What `std::bad_variant_access::what()` prints, in libstdc++'s wording. */
  const BAD_VARIANT_ACCESS: string := "std::get: wrong index for variant"

  const SUCCESS: int := 0
  const DB_ERROR_PREFIX: string := "Error when loading database: "
  const MISSING_DATA: string := "Error missing data for visualization."
  const SHELL_SUCCEEDED: string := "Calling system call to visualize data successfully"
  const SHELL_FAILED: string := "Error when calling system call to visualize data."
  const GENERATED_PREFIX: string := "Generated data: "

  // ---------------------------------------------------------------- getValue

  /** What `InMemDatabase::getValue` answers over the files in `ss`. */
  function StoredValue(ss: seq<FileState>, key: string): (r: Result<Variant, Thrown>)
    ensures FirstHolder(ss, key).None? ==> r == Err(Db(KEY_NOT_FOUND))
  {
    match FirstHolder(ss, key)
    case None => Err(Db(KEY_NOT_FOUND))
    case Some(i) => DataValues.GetValue(ss[i].items[key])
  }

  /**
   * One `getValue` of the antenna: the text it returns (none after a database error),
   * what it prints or logs, and whether a standard exception escaped it.
   */
  datatype Answer = Answer(value: Option<string>, events: seq<Event>, escapes: bool)

  function AnswerOf(r: Result<Variant, Thrown>): (a: Answer)
  {
    match r
    case Ok(v) =>
      var store := ExtractValue(v, VChars(""));
      Answer(Some(if store.VChars? then store.chars else ""),
             if v.VChars? then [] else [ErrOut(BAD_VARIANT_ACCESS + "\n")], false)
    case Err(Db(k)) => Answer(None, [Log(Logging.ERROR, DB_ERROR_PREFIX + Message(k))], false)
    case Err(StdConversion) => Answer(None, [], true)
  }

  /** A text record found first comes back whole, with nothing printed. */
  lemma AnswerOfChar(ss: seq<FileState>, key: string)
    requires FirstHolder(ss, key).Some?
    requires ss[FirstHolder(ss, key).value].items[key].valueType == "char"
    ensures AnswerOf(StoredValue(ss, key)) == Answer(Some(CString(ss[FirstHolder(ss, key).value].items[key].value)), [], false)
  {
  }

  /** A record of another type that converts gives "" rather than no value, and the variant error is printed. */
  lemma AnswerOfOtherType(ss: seq<FileState>, key: string)
    requires StoredValue(ss, key).Ok? && !StoredValue(ss, key).value.VChars?
    ensures AnswerOf(StoredValue(ss, key)) == Answer(Some(""), [ErrOut(BAD_VARIANT_ACCESS + "\n")], false)
  {
  }

  /** A key no file holds gives no value, and the database error is logged. */
  lemma AnswerOfMissingKey(ss: seq<FileState>, key: string)
    requires FirstHolder(ss, key).None?
    ensures AnswerOf(StoredValue(ss, key)) == Answer(None, [Log(Logging.ERROR, DB_ERROR_PREFIX + Message(KEY_NOT_FOUND))], false)
  {
  }

  /** No value comes back exactly when the lookup raised a database error. */
  lemma AnswerNoneIffDbError(r: Result<Variant, Thrown>)
    ensures !AnswerOf(r).escapes ==> (AnswerOf(r).value.None? <==> r.Err?)
    ensures AnswerOf(r).escapes <==> r == Err(StdConversion)
  {
  }

  // ---------------------------------------------------------------- visualizeData

  /** The configuration key of the plotting script: "/plotFFT" for a spectrum, "/plotFile" for a wave. */
  function PlotFileKey(isPlotFFT: bool): (key: string)
    ensures isPlotFFT <==> key == "/plotFFT"
    ensures !isPlotFFT <==> key == "/plotFile"
  {
    if isPlotFFT then "/plotFFT" else "/plotFile"
  }

  /**
   * The keys `visualizeData` looks up, in the order its std::map visits the names
   * "fs", "input", "output", "plotFile".
   */
  function DataKeys(isPlotFFT: bool): (keys: seq<string>)
    ensures |keys| == 4
  {
    ["/fs", "/input", "/output", PlotFileKey(isPlotFFT)]
  }

  /** The lookups of a run of keys, stopped by the first standard exception. */
  datatype Fetch = Fetch(values: seq<Option<string>>, events: seq<Event>, escaped: bool)

  function Fetched(ss: seq<FileState>, keys: seq<string>): (f: Fetch)
    ensures !f.escaped ==> |f.values| == |keys|
    decreases |keys|
  {
    if keys == [] then Fetch([], [], false)
    else
      var f := Fetched(ss, keys[..|keys| - 1]);
      if f.escaped then f
      else
        var a := AnswerOf(StoredValue(ss, keys[|keys| - 1]));
        if a.escapes then Fetch(f.values, f.events + a.events, true)
        else Fetch(f.values + [a.value], f.events + a.events, false)
  }

  /** Without an escape, every lookup's value is in place, in key order. */
  lemma {:induction false} FetchedValues(ss: seq<FileState>, keys: seq<string>)
    requires !Fetched(ss, keys).escaped
    decreases |keys|
    ensures forall i :: 0 <= i < |keys| ==>
      !AnswerOf(StoredValue(ss, keys[i])).escapes &&
      Fetched(ss, keys).values[i] == AnswerOf(StoredValue(ss, keys[i])).value
  {
    if keys != [] {
      var front := keys[..|keys| - 1];
      FetchedValues(ss, front);
      forall i | 0 <= i < |keys| - 1
        ensures keys[i] == front[i]
      {
      }
    }
  }

  /** The command string: the script, then its output, input and sample-rate options. */
  function PlotCommand(plot: string, output: string, input: string, fs: string): string
  {
    "python3 " + plot + " --output " + output + " --input " + input + " --fs " + fs
  }

  /** Joining a word in front of at least one more adds it and a space. */
  lemma JoinFront(w: string, ws: seq<string>)
    requires ws != []
    ensures JoinWords([w] + ws) == w + " " + JoinWords(ws)
  {
    assert ([w] + ws)[1..] == ws;
  }

  /** A word between two spaces, in front of the rest. */
  lemma SpacedWord(w: string, rest: string)
    ensures " " + w + " " + rest == " " + (w + " " + rest)
  {
  }

  /** The eight words of the command, joined, nested from the right the way `JoinWords` builds them. */
  lemma PlotWordsJoin(plot: string, output: string, input: string, fs: string)
    ensures JoinWords(["python3", plot, "--output", output, "--input", input, "--fs", fs]) ==
      "python3" + " " + (plot + " " + ("--output" + " " + (output + " " + ("--input" + " " + (input + " " + ("--fs" + " " + fs))))))
  {
    JoinFront("--fs", [fs]);
    assert ["--fs"] + [fs] == ["--fs", fs];
    JoinFront(input, ["--fs", fs]);
    assert [input] + ["--fs", fs] == [input, "--fs", fs];
    JoinFront("--input", [input, "--fs", fs]);
    assert ["--input"] + [input, "--fs", fs] == ["--input", input, "--fs", fs];
    JoinFront(output, ["--input", input, "--fs", fs]);
    assert [output] + ["--input", input, "--fs", fs] == [output, "--input", input, "--fs", fs];
    JoinFront("--output", [output, "--input", input, "--fs", fs]);
    assert ["--output"] + [output, "--input", input, "--fs", fs] == ["--output", output, "--input", input, "--fs", fs];
    JoinFront(plot, ["--output", output, "--input", input, "--fs", fs]);
    assert [plot] + ["--output", output, "--input", input, "--fs", fs] == [plot, "--output", output, "--input", input, "--fs", fs];
    JoinFront("python3", [plot, "--output", output, "--input", input, "--fs", fs]);
    assert ["python3"] + [plot, "--output", output, "--input", input, "--fs", fs] ==
      ["python3", plot, "--output", output, "--input", input, "--fs", fs];
  }

  /** Left-nested text with separators that are words between spaces, regrouped from the right. */
  lemma {:induction false} Regroup(w0: string, w2: string, w4: string, w6: string,
                                   x1: string, x3: string, x5: string, x7: string,
                                   s0: string, s2: string, s4: string, s6: string)
    requires s0 == w0 + " " && s2 == " " + w2 + " " && s4 == " " + w4 + " " && s6 == " " + w6 + " "
    ensures s0 + x1 + s2 + x3 + s4 + x5 + s6 + x7 ==
      w0 + " " + (x1 + " " + (w2 + " " + (x3 + " " + (w4 + " " + (x5 + " " + (w6 + " " + x7))))))
  {
    var r6 := s6 + x7;
    assert r6 == " " + (w6 + " " + x7);
    var r4 := s4 + (x5 + r6);
    assert r4 == " " + (w4 + " " + (x5 + r6));
    var r2 := s2 + (x3 + r4);
    assert r2 == " " + (w2 + " " + (x3 + r4));
    assert s0 + x1 + s2 + x3 + s4 + x5 + s6 + x7 == s0 + (x1 + r2);
  }

  /** The command text, regrouped from the right. */
  lemma PlotCommandRegrouped(plot: string, output: string, input: string, fs: string)
    ensures PlotCommand(plot, output, input, fs) ==
      "python3" + " " + (plot + " " + ("--output" + " " + (output + " " + ("--input" + " " + (input + " " + ("--fs" + " " + fs))))))
  {
    assert "python3 " == "python3" + " ";
    assert " --output " == " " + "--output" + " ";
    assert " --input " == " " + "--input" + " ";
    assert " --fs " == " " + "--fs" + " ";
    Regroup("python3", "--output", "--input", "--fs", plot, output, input, fs, "python3 ", " --output ", " --input ", " --fs ");
  }

  /** The command is its eight words joined by single spaces. */
  lemma PlotCommandJoins(plot: string, output: string, input: string, fs: string)
    ensures PlotCommand(plot, output, input, fs) ==
      JoinWords(["python3", plot, "--output", output, "--input", input, "--fs", fs])
  {
    PlotWordsJoin(plot, output, input, fs);
    PlotCommandRegrouped(plot, output, input, fs);
  }

  /** When every value is one word, the shell reads back exactly the script and its three options. */
  lemma PlotCommandWords(plot: string, output: string, input: string, fs: string)
    requires |plot| > 0 && |output| > 0 && |input| > 0 && |fs| > 0
    requires NoSpace(plot) && NoSpace(output) && NoSpace(input) && NoSpace(fs)
    ensures Tokens(PlotCommand(plot, output, input, fs)) ==
      ["python3", plot, "--output", output, "--input", input, "--fs", fs]
  {
    var ws := ["python3", plot, "--output", output, "--input", input, "--fs", fs];
    PlotCommandJoins(plot, output, input, fs);
    assert NoSpace("python3") && NoSpace("--output") && NoSpace("--input") && NoSpace("--fs");
    TokensOfJoin(ws);
  }

  /** The log entry after `system` returns `code`. */
  function ShellReport(code: int): Event
  {
    if code == SUCCESS then Log(Logging.INFO, SHELL_SUCCEEDED) else Log(Logging.ERROR, SHELL_FAILED)
  }

  /** What one `visualizeData` prints, logs and runs, and whether an exception escaped it. */
  datatype Visual = Visual(events: seq<Event>, escaped: bool)

  predicate AllPresent(values: seq<Option<string>>)
  {
    forall i :: 0 <= i < |values| ==> values[i].Some?
  }

  lemma AllPresentFour(values: seq<Option<string>>)
    requires |values| == 4
    ensures AllPresent(values) <==> values[0].Some? && values[1].Some? && values[2].Some? && values[3].Some?
  {
  }

  function Visualization(ss: seq<FileState>, isPlotFFT: bool, shell: string -> int): (v: Visual)
  {
    var f := Fetched(ss, DataKeys(isPlotFFT));
    if f.escaped then Visual(f.events, true) else Visual(f.events + Reported(f.values, shell), false)
  }

  /** What `visualizeData` does once its four values are looked up: the missing-data error, or the command and its outcome. */
  function Reported(values: seq<Option<string>>, shell: string -> int): seq<Event>
    requires |values| == 4
  {
    if !AllPresent(values) then [Log(Logging.ERROR, MISSING_DATA)]
    else
      var cmd := PlotCommand(values[3].value, values[2].value, values[1].value, values[0].value);
      [Shell(cmd), ShellReport(shell(cmd))]
  }

  /** The text a lookup gave, "" when it gave none. */
  function FoundText(ss: seq<FileState>, key: string): string
  {
    match AnswerOf(StoredValue(ss, key)).value
    case Some(t) => t
    case None => ""
  }

  /** The shell runs a command exactly when no lookup escaped and all four gave a value. */
  lemma ShellIffAllPresent(ss: seq<FileState>, isPlotFFT: bool, shell: string -> int)
    ensures var v := Visualization(ss, isPlotFFT, shell);
      var f := Fetched(ss, DataKeys(isPlotFFT));
      (exists k :: 0 <= k < |v.events| && v.events[k].Shell?) <==> !f.escaped && AllPresent(f.values)
  {
    var keys := DataKeys(isPlotFFT);
    var f := Fetched(ss, keys);
    var v := Visualization(ss, isPlotFFT, shell);
    NoShellWhileFetching(ss, keys);
    if !f.escaped && AllPresent(f.values) {
      assert v.events[|f.events|].Shell?;
    } else if !f.escaped {
      assert v.events == f.events + [Log(Logging.ERROR, MISSING_DATA)];
      assert forall k :: 0 <= k < |v.events| ==> k < |f.events| || v.events[k].Log?;
    }
  }

  /** When the shell runs, the command is built from the values of the plot key, "/output", "/input" and "/fs". */
  lemma ShellCommandOfValues(ss: seq<FileState>, isPlotFFT: bool, shell: string -> int)
    requires !Fetched(ss, DataKeys(isPlotFFT)).escaped && AllPresent(Fetched(ss, DataKeys(isPlotFFT)).values)
    ensures var v := Visualization(ss, isPlotFFT, shell);
      var keys := DataKeys(isPlotFFT);
      v.events[|v.events| - 2] ==
        Shell(PlotCommand(FoundText(ss, keys[3]), FoundText(ss, keys[2]), FoundText(ss, keys[1]), FoundText(ss, keys[0])))
  {
    FetchedValues(ss, DataKeys(isPlotFFT));
  }

  /** The lookups themselves never run the shell. */
  lemma {:induction false} NoShellWhileFetching(ss: seq<FileState>, keys: seq<string>)
    decreases |keys|
    ensures forall k :: 0 <= k < |Fetched(ss, keys).events| ==> !Fetched(ss, keys).events[k].Shell?
  {
    if keys != [] {
      NoShellWhileFetching(ss, keys[..|keys| - 1]);
    }
  }

  // ---------------------------------------------------------------- the antenna object

  class Antenna {
    const db: InMemDatabase
    const out: Output

    /** The antenna sends the server log to its file. */
    constructor (db: InMemDatabase, out: Output)
      modifies out
      ensures this.db == db && this.out == out
      ensures out.events == old(out.events) + [EnableLogFile(true)]
    {
      this.db := db;
      this.out := out;
      out.events := out.events + [EnableLogFile(true)];
    }

    /** `getValue`: the record's text, or nothing after logging a database error. */
    method GetValue(key: string) returns (a: Answer)
      modifies out
      ensures a == AnswerOf(StoredValue(db.States(), key))
      ensures out.events == old(out.events) + a.events
    {
      var r := db.GetValue(key);
      assert r == StoredValue(db.States(), key);
      a := AnswerOf(r);
      out.events := out.events + a.events;
    }

    /**
     * `visualizeData`: four lookups in key order, then either the missing-data error
     * or the plot command and its outcome.
     */
    method VisualizeData(isPlotFFT: bool, shell: string -> int) returns (escaped: bool)
      modifies out
      ensures escaped == Visualization(db.States(), isPlotFFT, shell).escaped
      ensures out.events == old(out.events) + Visualization(db.States(), isPlotFFT, shell).events
    {
      ghost var ss := db.States();
      var f := FetchValues(DataKeys(isPlotFFT));
      assert ss == db.States();
      if f.escaped {
        return true;
      }
      ShowPlot(f.values, shell);
      AppendAssoc(old(out.events), f.events, Reported(f.values, shell));
      assert ss == db.States();
      return false;
    }

    /** The part of `visualizeData` after the lookups: the missing-data error, or the command and its outcome. */
    method ShowPlot(values: seq<Option<string>>, shell: string -> int)
      requires |values| == 4
      modifies out
      ensures out.events == old(out.events) + Reported(values, shell)
    {
      AllPresentFour(values);
      if values[0].None? || values[1].None? || values[2].None? || values[3].None? {
        out.events := out.events + [Log(Logging.ERROR, MISSING_DATA)];
        return;
      }
      var cmd := PlotCommand(values[3].value, values[2].value, values[1].value, values[0].value);
      out.events := out.events + [Shell(cmd)];
      var returnCode := shell(cmd);
      if returnCode == SUCCESS {
        out.events := out.events + [Log(Logging.INFO, SHELL_SUCCEEDED)];
      } else {
        out.events := out.events + [Log(Logging.ERROR, SHELL_FAILED)];
      }
      assert out.events == old(out.events) + [Shell(cmd), ShellReport(shell(cmd))];
    }

    /** The loop of `visualizeData` that fills its value map, one lookup per key. */
    method FetchValues(keys: seq<string>) returns (f: Fetch)
      modifies out
      ensures f == Fetched(db.States(), keys)
      ensures out.events == old(out.events) + f.events
    {
      ghost var ss := db.States();
      var values: seq<Option<string>> := [];
      var shown: seq<Event> := [];
      var i := 0;
      while i < |keys|
        invariant 0 <= i <= |keys| && ss == db.States()
        invariant Fetched(ss, keys[..i]) == Fetch(values, shown, false)
        invariant out.events == old(out.events) + shown
      {
        var a := GetValue(keys[i]);
        FetchedStep(ss, keys, i, a);
        AppendAssoc(old(out.events), shown, a.events);
        if a.escapes {
          FetchedEscapeStays(ss, keys, i + 1);
          return Fetch(values, shown + a.events, true);
        }
        values := values + [a.value];
        shown := shown + a.events;
        i := i + 1;
      }
      assert keys[..i] == keys;
      return Fetch(values, shown, false);
    }

    /** `randomBinaryMessageGenerator`: a random bit string of the length asked for, echoed to the console. */
    method RandomBinaryMessage(length: int) returns (message: string)
      modifies out
      ensures |message| == (if length > 0 then length else 0) && Modulation.IsBinary(message)
      ensures out.events == old(out.events) + [Out(GENERATED_PREFIX + message + "\n")]
    {
      message := Modulation.RandomBinaryMessage(length);
      out.events := out.events + [Out(GENERATED_PREFIX + message + "\n")];
    }
  }

  /** One more key: its answer extends the lookups so far, or ends them when it escapes. */
  lemma FetchedStep(ss: seq<FileState>, keys: seq<string>, i: nat, a: Answer)
    requires i < |keys| && !Fetched(ss, keys[..i]).escaped && a == AnswerOf(StoredValue(ss, keys[i]))
    ensures var f := Fetched(ss, keys[..i]);
      Fetched(ss, keys[..i + 1]) ==
        if a.escapes then Fetch(f.values, f.events + a.events, true)
        else Fetch(f.values + [a.value], f.events + a.events, false)
  {
    assert keys[..i + 1][..i] == keys[..i];
  }

  /** Once a lookup escapes, the longer runs of keys stop there too. */
  lemma {:induction false} FetchedEscapeStays(ss: seq<FileState>, keys: seq<string>, n: nat)
    requires n <= |keys| && Fetched(ss, keys[..n]).escaped
    decreases |keys| - n
    ensures Fetched(ss, keys) == Fetched(ss, keys[..n])
  {
    if n == |keys| {
      assert keys[..n] == keys;
    } else {
      assert keys[..n + 1][..n] == keys[..n];
      FetchedEscapeStays(ss, keys, n + 1);
    }
  }
}
