/**
 * The radio client: its console loop over typed lines, its database commands, and the
 * connection flags it keeps while talking to the server. Sockets become an environment
 * `network` that says how each connection attempt turns out; what the client prints,
 * logs, sends and hands to the shell is a sequence of events.
 */
module ClientApp {
  import opened Common
  import opened Streams
  import opened DbErrors
  import opened DataValues
  import opened Files
  import opened Database
  import opened ClientRecord
  import Logging

  // ---------------------------------------------------------------- what the client does outside

  datatype Event =
    | Out(text: string)                                   // std::cout
    | ErrOut(text: string)                                // std::cerr
    | Shell(command: string)                              // system(command)
    | Log(level: Logging.LogPriority, message: string)    // a call on g_clientLogger
    | EnableLogFile(flag: bool)                           // g_clientLogger.enableLogFile(flag)
    | SetPriority(level: Logging.LogPriority)             // g_clientLogger.setPriority(level)
    | Fault(call: string)                                 // perror(call)
    | Sent(message: string)                               // send() on the socket

  /** One line of console output, ended by `std::endl`. */
  function Line(text: string): (e: Event)
    ensures e.Out? && |e.text| == |text| + 1 && e.text[..|text|] == text && e.text[|text|] == '\n'
  {
    Out(text + "\n")
  }

  function Info(message: string): Event
  {
    Log(Logging.INFO, message)
  }

  function Error(message: string): Event
  {
    Log(Logging.ERROR, message)
  }

  const SERVER_IP: string := "0.0.0.0"
  const SERVER_PORT: nat := 8080
  const BUFFER_SIZE: nat := 1024
  const DB_PATH: string := "./db"
  const PROMPT: string := "(client) "

  // ---------------------------------------------------------------- the connection

  /** How the environment answers one connection attempt: `socket()` or `connect()` may fail. */
  datatype Attempt = NoSocket | Refused | Accepted(fd: nat)

  /** The connection fields of `Client`; `attempts` counts the calls to `socket()` so far. */
  datatype Conn = Conn(socketFd: int, connected: bool, attempts: nat)
  {
    /** A connected client holds an open socket. */
    predicate Valid()
    {
      connected ==> socketFd >= 0
    }
  }

  /** The fields of a freshly constructed client. */
  const NEW_CONN: Conn := Conn(-1, false, 0)

  /** The calls of `initLogger` on the client's logger. */
  const INIT_LOGGER: seq<Event> := [EnableLogFile(true), SetPriority(Logging.ERROR)]

  function ConnectedMessage(): string
  {
    "Connected to server at " + SERVER_IP + ":" + NatToString(SERVER_PORT)
  }

  /**
   * `connectToServer`: a new socket, and on success the connection. Both failures leave
   * no socket and log an error; success logs the server address.
   */
  function Connect(c: Conn, net: nat -> Attempt): (r: (Conn, seq<Event>))
    ensures r.0.attempts == c.attempts + 1
    ensures r.0.connected <==> c.connected || net(c.attempts).Accepted?
    ensures r.0.socketFd == if net(c.attempts).Accepted? then net(c.attempts).fd else -1
    ensures !c.connected ==> r.0.Valid()
    ensures |r.1| == 1 && r.1[0].Log?
    ensures r.1[0].level == Logging.INFO <==> net(c.attempts).Accepted?
  {
    match net(c.attempts)
    case NoSocket => (Conn(-1, c.connected, c.attempts + 1), [Error("Create socket failed")])
    case Refused => (Conn(-1, c.connected, c.attempts + 1), [Error("Failed to connect to server")])
    case Accepted(fd) => (Conn(fd, true, c.attempts + 1), [Info(ConnectedMessage())])
  }

  /** `closeConnection`: no connection and no socket afterwards; an open socket is closed and logged. */
  function Close(c: Conn): (r: (Conn, seq<Event>))
    ensures !r.0.connected && r.0.socketFd == -1 && r.0.attempts == c.attempts && r.0.Valid()
    ensures c.socketFd == -1 ==> r.1 == []
    ensures c.socketFd != -1 ==> r.1 == [Info("Disconnected from server")]
  {
    if c.socketFd != -1 then (Conn(-1, false, c.attempts), [Info("Disconnected from server")])
    else (Conn(-1, false, c.attempts), [])
  }

  /** `reconnectToServer`: close, announce, connect again. */
  function Reconnect(c: Conn, net: nat -> Attempt): (r: (Conn, seq<Event>))
    ensures r.0.Valid() && r.0.attempts == c.attempts + 1
    ensures r.0.connected <==> net(c.attempts).Accepted?
    ensures forall i :: 0 <= i < |r.1| ==> r.1[i].Log?
  {
    var closed := Close(c);
    var connecting := Connect(closed.0, net);
    (connecting.0, closed.1 + [Info("Attempting to reconnect...")] + connecting.1)
  }

  /**
   * `sendMessage`: a disconnected client reconnects first and sends nothing when that fails.
   * A failing `send` is not part of this model.
   */
  function Send(c: Conn, net: nat -> Attempt, message: string): (r: (Conn, seq<Event>))
  {
    if c.connected then (c, [Sent(message)])
    else
      var again := Reconnect(c, net);
      var announce := [Info("Client is not connected to server")] + again.1;
      if again.0.connected then (again.0, announce + [Sent(message)])
      else (again.0, announce + [Error("Can not connect to server")])
  }

  /**
   * The message goes out exactly when the client ends up connected, and then last; a
   * connected client sends at once and a disconnected one makes exactly one new attempt.
   */
  lemma SendOnlyConnected(c: Conn, net: nat -> Attempt, message: string)
    ensures var r := Send(c, net, message);
      (Sent(message) in r.1 <==> r.0.connected) &&
      (r.0.connected ==> r.1[|r.1| - 1] == Sent(message)) &&
      (forall i :: 0 <= i < |r.1| - 1 ==> !r.1[i].Sent?) &&
      (c.connected ==> r == (c, [Sent(message)])) &&
      (!c.connected ==> r.0.attempts == c.attempts + 1 && (r.0.connected <==> net(c.attempts).Accepted?))
  {
    if !c.connected {
      var again := Reconnect(c, net);
      var announce := [Info("Client is not connected to server")] + again.1;
      assert forall i :: 0 <= i < |announce| ==> announce[i].Log?;
    }
  }

  /** Every connection operation keeps a connected client on an open socket. */
  lemma ConnectionStaysValid(c: Conn, net: nat -> Attempt, message: string)
    requires c.Valid()
    ensures Close(c).0.Valid() && Reconnect(c, net).0.Valid() && Send(c, net, message).0.Valid()
  {
  }

  /** Closing twice closes once: the second call changes nothing and logs nothing. */
  lemma CloseIdempotent(c: Conn)
    ensures Close(Close(c).0) == (Close(c).0, [])
  {
  }

  // ---------------------------------------------------------------- what the server sends back

  /** A chunk `recv` delivers: one to `BUFFER_SIZE - 1` bytes. */
  datatype Received = Data(bytes: string) | Closed | RecvError(retry: bool)

  /**
   * What `communicationLoop` prints for a chunk: a final '\n' becomes the terminating NUL,
   * and the buffer is printed as a C string.
   */
  function Displayed(bytes: string): (r: string)
    ensures IsPrefix(r, bytes)
    ensures (forall i :: 0 <= i < |bytes| ==> bytes[i] != '\0') ==>
      r == if bytes != [] && bytes[|bytes| - 1] == '\n' then bytes[..|bytes| - 1] else bytes
  {
    if bytes != [] && bytes[|bytes| - 1] == '\n' then CString(bytes[..|bytes| - 1]) else CString(bytes)
  }

  /** Only one trailing newline is dropped: a chunk ending in two keeps one. */
  lemma OneNewlineDropped(text: string)
    requires forall i :: 0 <= i < |text| ==> text[i] != '\0'
    ensures Displayed(text + "\n\n") == text + "\n"
  {
    var b := text + "\n\n";
    assert b[..|b| - 1] == text + "\n";
  }

  /**
   * The receive loop over what `recv` returns: data is printed and logged, an orderly
   * shutdown or a hard error ends the connection, and a would-block result is retried.
   * The second component tells whether the client is still connected when the results run out.
   */
  function Receive(results: seq<Received>): (r: (seq<Event>, bool))
    decreases |results|
  {
    if results == [] then ([], true)
    else match results[0]
      case Data(bytes) =>
        var rest := Receive(results[1..]);
        ([Line(Displayed(bytes)), Info("Message received: " + Displayed(bytes))] + rest.0, rest.1)
      case Closed => ([Info("Lose connection with server")], false)
      case RecvError(retry) =>
        if retry then Receive(results[1..]) else ([Fault("recv")], false)
  }

  /** The loop ends the connection exactly when a shutdown or a hard error arrives. */
  lemma {:induction false} ReceiveDisconnects(results: seq<Received>)
    decreases |results|
    ensures !Receive(results).1 <==> exists i :: 0 <= i < |results| && (results[i].Closed? || results[i] == RecvError(false))
  {
    if results != [] {
      ReceiveDisconnects(results[1..]);
      if results[0].Data? || results[0] == RecvError(true) {
        assert forall i :: 1 <= i < |results| ==> results[i] == results[1..][i - 1];
        if exists i :: 0 <= i < |results| && (results[i].Closed? || results[i] == RecvError(false)) {
          var i :| 0 <= i < |results| && (results[i].Closed? || results[i] == RecvError(false));
          assert results[1..][i - 1] == results[i];
        }
      }
    }
  }

  // ---------------------------------------------------------------- database commands

  const BAD_RECORD: string := "Invalid format of record, must be db write [-f] <key> <type> <value>.\n"

  /** Each record on its own line. */
  function AllLines(rs: seq<string>): (out: seq<Event>)
    ensures |out| == |rs| && forall i :: 0 <= i < |rs| ==> out[i] == Line(rs[i])
  {
    seq(|rs|, i requires 0 <= i < |rs| => Line(rs[i]))
  }

  /** `handleGetCommand`: every record for "all"; otherwise the record, or the error logged. */
  function GetEvents(ss: seq<FileState>, key: string): seq<Event>
  {
    if key == "all" then AllLines(Concat(Blocks(ss), |ss|))
    else match GetIn(ss, key)
      case Ok(text) => [Line(text)]
      case Err(e) => [Error(Message(e))]
  }

  /** The log entry after `modify`: where the value went, or the error. */
  function WriteLog(r: Result<string, ExceptionType>, key: string, isForce: bool): Event
  {
    match r
    case Ok(_) => Info("Successfully write new value of " + key + (if isForce then " on disk" else " on RAM"))
    case Err(e) => Error(Message(e))
  }

  /** What a step shows, the connection and the managers' states after it, and how the loop goes on. */
  datatype Status = Running | Exited | Crashed | Failed
  datatype Step = Step(events: seq<Event>, conn: Conn, states: seq<FileState>, status: Status)

  /** `handleWriteCommand` on the text after "db write": erase the flag, match the record, modify. */
  function WriteEvents(ss: seq<FileState>, cs: seq<Config>, input: string): (r: (seq<Event>, seq<FileState>))
    requires |ss| == |cs| && AllAgree(ss)
    ensures |r.1| == |ss| && AllAgree(r.1)
  {
    var (processed, isForce) := ForceAndErase(input, false);
    WriteMatched(ss, cs, MatchRecord(processed), isForce)
  }

  /** The part of `handleWriteCommand` after the pattern match. */
  function WriteMatched(ss: seq<FileState>, cs: seq<Config>, m: Option<Fields>, isForce: bool): (r: (seq<Event>, seq<FileState>))
    requires |ss| == |cs| && AllAgree(ss)
    ensures |r.1| == |ss| && AllAgree(r.1)
  {
    match m
    case None => ([ErrOut(BAD_RECORD)], ss)
    case Some(f) =>
      ModifyKeepsAgreement(ss, cs, f.key, f.valueType, f.value, isForce);
      var mod := ModifyFrom(ss, cs, 0, f.key, f.valueType, f.value, isForce);
      ([WriteLog(mod.0, f.key, isForce)], mod.1)
  }

  /**
   * A write changes the database only through `modify` on the matched groups and the
   * flag, and a line the record pattern refuses changes nothing.
   */
  lemma WriteGoesThroughModify(ss: seq<FileState>, cs: seq<Config>, input: string)
    requires |ss| == |cs| && AllAgree(ss)
    ensures var (processed, isForce) := ForceAndErase(input, false);
      var w := WriteEvents(ss, cs, input);
      (MatchRecord(processed).None? ==> w == ([ErrOut(BAD_RECORD)], ss)) &&
      (MatchRecord(processed).Some? ==>
        var f := MatchRecord(processed).value;
        w.1 == ModifyFrom(ss, cs, 0, f.key, f.valueType, f.value, isForce).1 &&
        (isForce <==> Find(input, "-f").Some?))
  {
  }

  /**
   * `handleDatabaseCommands` on the text after "db ". `None` is the `std::out_of_range`
   * that `substr(6)` throws on a "write" that is shorter than six characters.
   */
  function DbEvents(ss: seq<FileState>, cs: seq<Config>, command: string): (r: Option<(seq<Event>, seq<FileState>)>)
    requires |ss| == |cs| && AllAgree(ss)
    ensures r.Some? ==> |r.value.1| == |ss| && AllAgree(r.value.1)
    ensures r.None? <==> FirstWord(command) == "write" && |command| < 6
    ensures r.Some? && FirstWord(command) != "write" ==> r.value.1 == ss
  {
    var (st, query) := Extract(Open(command), "");
    if query == "get" then Some((GetEvents(ss, Extract(st, "").1), ss))
    else if query == "write" then
      if |command| < 6 then None else Some(WriteEvents(ss, cs, command[6..]))
    else Some(([Line("Invalid database query")], ss))
  }

  /** "write" alone faults; "write " does not, because `substr(6)` of it is empty. */
  lemma ShortWriteFaults(ss: seq<FileState>, cs: seq<Config>)
    requires |ss| == |cs| && AllAgree(ss)
    ensures DbEvents(ss, cs, "write").None? && DbEvents(ss, cs, "write ").Some?
  {
    TokensAfterWord("write", "");
    assert "write" + "" == "write";
    TokensAfterWord("write", " ");
  }

  // ---------------------------------------------------------------- one typed line

  /** Which branch of the `start` loop takes a line. */
  datatype Command = Quit | ToServer(message: string) | Blank | Help | Clear(command: string) | Show | DbQuery(command: string) | Invalid

  /** `input.rfind(p, 0) == 0`. */
  predicate StartsWith(input: string, p: string)
  {
    IsPrefix(p, input)
  }

  /** No line starts with two of "server ", "clear" and "db ". */
  lemma PrefixesDiffer(input: string)
    ensures !(StartsWith(input, "server ") && StartsWith(input, "clear"))
    ensures !(StartsWith(input, "server ") && StartsWith(input, "db "))
    ensures !(StartsWith(input, "clear") && StartsWith(input, "db "))
  {
    if |input| > 0 {
      assert StartsWith(input, "server ") ==> input[0] == input[..7][0] == 's';
      assert StartsWith(input, "clear") ==> input[0] == input[..5][0] == 'c';
      assert StartsWith(input, "db ") ==> input[0] == input[..3][0] == 'd';
    }
  }

  /** The branches of the `start` loop, tried in order. */
  function Classify(input: string): Command
  {
    if input == "exit" then Quit
    else if StartsWith(input, "server ") then ToServer(input[7..])
    else if input == "" || input == "\n" then Blank
    else if input == "help" then Help
    else if StartsWith(input, "clear") then Clear(input)
    else if input == "info" then Show
    else if StartsWith(input, "db ") then DbQuery(input[3..])
    else Invalid
  }

  /**
   * The tests never overlap, so the order of the branches does not matter: each command
   * is chosen exactly when its own test passes.
   */
  lemma ClassifyMeaning(input: string)
    ensures var c := Classify(input);
      (c == Quit <==> input == "exit") &&
      (c.ToServer? <==> StartsWith(input, "server ")) &&
      (c.ToServer? ==> c.message == input[7..]) &&
      (c == Blank <==> input == "" || input == "\n") &&
      (c == Help <==> input == "help") &&
      (c.Clear? <==> StartsWith(input, "clear")) &&
      (c.Clear? ==> c.command == input) &&
      (c == Show <==> input == "info") &&
      (c.DbQuery? <==> StartsWith(input, "db ")) &&
      (c.DbQuery? ==> c.command == input[3..])
  {
    PrefixesDiffer(input);
    if input == "exit" || input == "help" || input == "info" || input == "" || input == "\n" {
      assert !StartsWith(input, "server ") && !StartsWith(input, "clear");
      assert !StartsWith(input, "db ") by {
        if |input| >= 3 {
          assert input[..3][0] == input[0] != 'd';
        }
      }
    }
  }

  const HELP: seq<Event> := [
    Line("Available commands: "),
    Line("clear - clear the screen"),
    Line("help - show this help"),
    Line("info - display client information"),
    Line("db get <key> - get data by key"),
    Line("db write [-f] <key> <data-type> <value> - modify data by key"),
    Line("db get all - get all data"),
    Line("exit - exit from client")
  ]

  /** `displayInfo`: the socket, which is -1 when there is no connection. */
  function InfoLines(c: Conn): seq<Event>
  {
    [Line("Client information"), Line("Client Socket: " + IntToString(c.socketFd))]
  }

  /** What a command does, after the prompt. */
  function Respond(c: Conn, ss: seq<FileState>, cs: seq<Config>, net: nat -> Attempt, command: Command): (s: Step)
    requires |ss| == |cs| && AllAgree(ss)
    ensures |s.states| == |ss| && AllAgree(s.states)
    ensures s.status != Failed && (s.status == Exited <==> command == Quit)
    ensures s.status == Crashed ==> command.DbQuery? && FirstWord(command.command) == "write" && |command.command| < 6
    ensures !command.DbQuery? ==> s.states == ss
    ensures !command.ToServer? ==> s.conn == c
  {
    match command
    case ToServer(message) =>
      var r := Send(c, net, message);
      Step(r.1, r.0, ss, Running)
    case DbQuery(query) =>
      (match DbEvents(ss, cs, query)
       case None => Step([], c, ss, Crashed)
       case Some(r) => Step(r.0, c, r.1, Running))
    case _ => Step(LocalEvents(c, command), c, ss, if command == Quit then Exited else Running)
  }

  /** What the client prints by itself for the commands that involve neither the server nor the database. */
  function LocalEvents(c: Conn, command: Command): seq<Event>
  {
    match command
    case Quit => [Line("Exiting client...")]
    case Help => HELP
    case Clear(line) => [Shell(line)]
    case Show => InfoLines(c)
    case Invalid => [Line("Invalid command. Use 'help' to display available commands list")]
    case _ => []
  }

  /** One turn of the `start` loop: the prompt, then the branch `Classify` picks. */
  function LineStep(c: Conn, ss: seq<FileState>, cs: seq<Config>, net: nat -> Attempt, input: string): (s: Step)
    requires |ss| == |cs| && AllAgree(ss)
    ensures |s.states| == |ss| && AllAgree(s.states) && s.status != Failed
    ensures |s.events| > 0 && s.events[0] == Out(PROMPT)
  {
    var r := Respond(c, ss, cs, net, Classify(input));
    Step([Out(PROMPT)] + r.events, r.conn, r.states, r.status)
  }

  /**
   * Only "exit" ends the loop normally, only a short "db write" crashes it, only "db "
   * lines change the database and only "server " lines touch the connection.
   */
  lemma LineStepMeaning(c: Conn, ss: seq<FileState>, cs: seq<Config>, net: nat -> Attempt, input: string)
    requires |ss| == |cs| && AllAgree(ss)
    ensures var s := LineStep(c, ss, cs, net, input);
      (s.status == Exited <==> input == "exit") &&
      (s.status == Crashed ==> StartsWith(input, "db ") && FirstWord(input[3..]) == "write" && |input| < 9) &&
      (!StartsWith(input, "db ") ==> s.states == ss) &&
      (!StartsWith(input, "server ") ==> s.conn == c)
  {
    ClassifyMeaning(input);
  }

  /**
   * The `start` loop over the lines `std::getline` returns. It ends at "exit" or at a
   * crash; when the lines run out it is still `Running`.
   */
  function Session(c: Conn, ss: seq<FileState>, cs: seq<Config>, net: nat -> Attempt, lines: seq<string>): (s: Step)
    requires |ss| == |cs| && AllAgree(ss)
    decreases |lines|
    ensures |s.states| == |ss| && AllAgree(s.states) && s.status != Failed
  {
    if lines == [] then Step([], c, ss, Running)
    else
      var first := LineStep(c, ss, cs, net, lines[0]);
      if first.status != Running then first
      else
        var rest := Session(first.conn, first.states, cs, net, lines[1..]);
        Step(first.events + rest.events, rest.conn, rest.states, rest.status)
  }

  /** The loop from line `i` on: line `i` first, then, unless it ended the loop, the rest. */
  lemma SessionAt(c: Conn, ss: seq<FileState>, cs: seq<Config>, net: nat -> Attempt, lines: seq<string>, i: nat)
    requires |ss| == |cs| && AllAgree(ss) && i < |lines|
    ensures var s := LineStep(c, ss, cs, net, lines[i]);
      s.status != Running ==> Session(c, ss, cs, net, lines[i..]) == s
    ensures var s := LineStep(c, ss, cs, net, lines[i]);
      var rest := Session(s.conn, s.states, cs, net, lines[i + 1..]);
      s.status == Running ==> Session(c, ss, cs, net, lines[i..]) == Step(s.events + rest.events, rest.conn, rest.states, rest.status)
  {
    assert lines[i..][0] == lines[i] && lines[i..][1..] == lines[i + 1..];
  }

  /** Lines after an "exit" are never read. */
  lemma {:induction false} SessionEndsAtExit(c: Conn, ss: seq<FileState>, cs: seq<Config>, net: nat -> Attempt,
                                             lines: seq<string>, more: seq<string>)
    requires |ss| == |cs| && AllAgree(ss)
    requires "exit" in lines
    decreases |lines|
    ensures Session(c, ss, cs, net, lines + more) == Session(c, ss, cs, net, lines)
  {
    assert (lines + more)[0] == lines[0];
    var first := LineStep(c, ss, cs, net, lines[0]);
    if lines[0] != "exit" && first.status == Running {
      var j :| 0 <= j < |lines| && lines[j] == "exit";
      assert lines[1..][j - 1] == "exit";
      assert (lines + more)[1..] == lines[1..] + more;
      SessionEndsAtExit(first.conn, first.states, cs, net, lines[1..], more);
    }
  }

  /** Only lines that start with "db " change the database, and only "server " lines touch the connection. */
  lemma {:induction false} SessionWithoutDb(c: Conn, ss: seq<FileState>, cs: seq<Config>, net: nat -> Attempt, lines: seq<string>)
    requires |ss| == |cs| && AllAgree(ss)
    requires forall i :: 0 <= i < |lines| ==> !StartsWith(lines[i], "db ") && !StartsWith(lines[i], "server ")
    decreases |lines|
    ensures Session(c, ss, cs, net, lines).states == ss && Session(c, ss, cs, net, lines).conn == c
  {
    if lines != [] {
      assert !StartsWith(lines[0], "db ") && !StartsWith(lines[0], "server ");
      LineStepMeaning(c, ss, cs, net, lines[0]);
      SessionWithoutDb(c, ss, cs, net, lines[1..]);
    }
  }

  // ---------------------------------------------------------------- the whole run

  /** What `loadDatabase` logs. */
  function LoadEvents(e: Option<ExceptionType>): seq<Event>
  {
    if e.None? then [Info("Load database successfully from default path: " + DB_PATH)]
    else [Error("Error when loading database: " + Message(e.value) + "from path: " + DB_PATH),
          Error("Client failed to start")]
  }

  /**
   * `start`: load "./db" (a failure exits the process), connect, run the loop, and close
   * the connection once "exit" ends it.
   */
  function Run(fs: map<string, Directory>, floatText: FloatFormatter, net: nat -> Attempt, c: Conn,
               lines: seq<string>): (s: Step)
  {
    var err := InitError(fs, DB_PATH, floatText);
    if err.Some? then Step(LoadEvents(err), c, [], Failed)
    else
      var rs := RegularFiles(fs[DB_PATH].entries);
      var served := Serve(c, LoadedStates(DB_PATH, rs, floatText), LoadedConfigs(rs, floatText), net, lines);
      Step(LoadEvents(err) + served.events, served.conn, served.states, served.status)
  }

  /** The part of `start` after the database has loaded: connect, loop, and close after "exit". */
  function Serve(c: Conn, ss: seq<FileState>, cs: seq<Config>, net: nat -> Attempt, lines: seq<string>): (s: Step)
    requires |ss| == |cs| && AllAgree(ss)
  {
    var connecting := Connect(c, net);
    var loop := Session(connecting.0, ss, cs, net, lines);
    var closing := if loop.status == Exited then Close(loop.conn) else (loop.conn, []);
    Step(connecting.1 + loop.events + closing.1, closing.0, loop.states, loop.status)
  }

  /** A run that reaches "exit" ends disconnected, with no socket, whatever happened before. */
  lemma ExitDisconnects(fs: map<string, Directory>, floatText: FloatFormatter, net: nat -> Attempt, c: Conn, lines: seq<string>)
    requires Run(fs, floatText, net, c, lines).status == Exited
    ensures var s := Run(fs, floatText, net, c, lines);
      !s.conn.connected && s.conn.socketFd == -1 && InitError(fs, DB_PATH, floatText).None?
  {
  }

  /** Without a loadable "./db" the client logs two errors and never connects or reads a line. */
  lemma LoadFailureStops(fs: map<string, Directory>, floatText: FloatFormatter, net: nat -> Attempt, c: Conn, lines: seq<string>)
    requires InitError(fs, DB_PATH, floatText).Some?
    ensures var s := Run(fs, floatText, net, c, lines);
      s.status == Failed && s.conn == c && |s.events| == 2 &&
      forall i :: 0 <= i < 2 ==> s.events[i].Log? && s.events[i].level == Logging.ERROR
  {
  }

  // ---------------------------------------------------------------- the client object

  class Client {
    var socketFd: int
    var running: bool
    var connected: bool
    var attempts: nat
    var events: seq<Event>
    const db: InMemDatabase
    const network: nat -> Attempt

    function Snapshot(): Conn
      reads this
    {
      Conn(socketFd, connected, attempts)
    }

    predicate Valid()
      reads this, db, db.fileManagers
    {
      db.Valid() && Snapshot().Valid()
    }

    /**
     * `Client()`: no socket, not running, not connected; `initLogger` sends the client
     * log to its file and raises the shared priority to ERROR.
     */
    constructor (db: InMemDatabase, network: nat -> Attempt)
      ensures this.db == db && this.network == network
      ensures Snapshot() == NEW_CONN && !running
      ensures events == INIT_LOGGER
    {
      this.db := db;
      this.network := network;
      socketFd := -1;
      running := false;
      connected := false;
      attempts := 0;
      events := INIT_LOGGER;
    }

    method ConnectToServer()
      modifies this
      ensures running == old(running)
      ensures (Snapshot(), events) == (Connect(old(Snapshot()), network).0, old(events) + Connect(old(Snapshot()), network).1)
    {
      var outcome := network(attempts);
      attempts := attempts + 1;
      match outcome {
        case NoSocket =>
          socketFd := -1;
          events := events + [Error("Create socket failed")];
        case Refused =>
          socketFd := -1;
          events := events + [Error("Failed to connect to server")];
        case Accepted(fd) =>
          socketFd := fd;
          events := events + [Info(ConnectedMessage())];
          connected := true;
      }
    }

    method CloseConnection()
      modifies this
      ensures running == old(running)
      ensures (Snapshot(), events) == (Close(old(Snapshot())).0, old(events) + Close(old(Snapshot())).1)
    {
      connected := false;
      if socketFd != -1 {
        socketFd := -1;
        events := events + [Info("Disconnected from server")];
      } else {
        assert events + [] == events;
      }
    }

    method ReconnectToServer()
      modifies this
      ensures running == old(running)
      ensures (Snapshot(), events) == (Reconnect(old(Snapshot()), network).0, old(events) + Reconnect(old(Snapshot()), network).1)
    {
      ghost var c := Snapshot();
      ghost var closed := Close(c);
      CloseConnection();
      events := events + [Info("Attempting to reconnect...")];
      ghost var mid := events;
      ConnectToServer();
      AppendAssoc(old(events), closed.1, [Info("Attempting to reconnect...")]);
      AppendAssoc(old(events), closed.1 + [Info("Attempting to reconnect...")], Connect(closed.0, network).1);
    }

    method SendMessage(message: string)
      modifies this
      ensures running == old(running)
      ensures (Snapshot(), events) == (Send(old(Snapshot()), network, message).0, old(events) + Send(old(Snapshot()), network, message).1)
    {
      if !connected {
        ghost var c := Snapshot();
        events := events + [Info("Client is not connected to server")];
        ReconnectToServer();
        AppendAssoc(old(events), [Info("Client is not connected to server")], Reconnect(c, network).1);
        ghost var announce := [Info("Client is not connected to server")] + Reconnect(c, network).1;
        if !connected {
          AppendAssoc(old(events), announce, [Error("Can not connect to server")]);
          events := events + [Error("Can not connect to server")];
          return;
        }
        AppendAssoc(old(events), announce, [Sent(message)]);
      }
      events := events + [Sent(message)];
    }

    /** `communicationLoop` over the results of successive `recv` calls, run to completion. */
    method CommunicationLoop(results: seq<Received>)
      requires connected
      modifies this
      ensures socketFd == old(socketFd) && attempts == old(attempts) && running == old(running)
      ensures events == old(events) + Receive(results).0 && connected == Receive(results).1
    {
      var i := 0;
      ghost var shown: seq<Event> := [];
      assert results[0..] == results;
      assert shown + Receive(results).0 == Receive(results).0;
      while connected && i < |results|
        invariant 0 <= i <= |results|
        invariant socketFd == old(socketFd) && attempts == old(attempts) && running == old(running)
        invariant events == old(events) + shown
        invariant connected ==> Receive(results) == (shown + Receive(results[i..]).0, Receive(results[i..]).1)
        invariant !connected ==> Receive(results) == (shown, false)
        decreases |results| - i
      {
        assert results[i..][0] == results[i] && results[i..][1..] == results[i + 1..];
        match results[i] {
          case Data(bytes) =>
            var more := [Line(Displayed(bytes)), Info("Message received: " + Displayed(bytes))];
            AppendAssoc(shown, more, Receive(results[i + 1..]).0);
            events := events + more;
            shown := shown + more;
          case Closed =>
            events := events + [Info("Lose connection with server")];
            shown := shown + [Info("Lose connection with server")];
            connected := false;
          case RecvError(retry) =>
            if !retry {
              events := events + [Fault("recv")];
              shown := shown + [Fault("recv")];
              connected := false;
            }
        }
        i := i + 1;
      }
      if connected {
        assert results[i..] == [];
        assert shown + [] == shown;
      }
    }

    /** `handleGetCommand`. */
    method HandleGetCommand(key: string)
      modifies this
      ensures Snapshot() == old(Snapshot()) && running == old(running)
      ensures events == old(events) + GetEvents(db.States(), key)
    {
      if key == "all" {
        var result := db.GetAll();
        PrintLines(result);
      } else {
        HandleGetOne(key);
      }
    }

    /** A single key: its record on its own line, or the error logged. */
    method HandleGetOne(key: string)
      requires key != "all"
      modifies this
      ensures Snapshot() == old(Snapshot()) && running == old(running)
      ensures events == old(events) + GetEvents(db.States(), key)
    {
      var result := db.Get(key);
      match result {
        case Ok(text) => events := events + [Line(text)];
        case Err(e) => events := events + [Error(Message(e))];
      }
    }

    /** The loop that prints each record of `getAll`. */
    method PrintLines(rs: seq<string>)
      modifies this
      ensures Snapshot() == old(Snapshot()) && running == old(running)
      ensures events == old(events) + AllLines(rs)
    {
      var i := 0;
      while i < |rs|
        invariant 0 <= i <= |rs|
        invariant Snapshot() == old(Snapshot()) && running == old(running)
        invariant events == old(events) + AllLines(rs[..i])
      {
        assert AllLines(rs[..i + 1]) == AllLines(rs[..i]) + [Line(rs[i])];
        AppendAssoc(old(events), AllLines(rs[..i]), [Line(rs[i])]);
        events := events + [Line(rs[i])];
        i := i + 1;
      }
      assert rs[..i] == rs;
    }

    /** `handleWriteCommand`: the flag is taken out of a copy; a matched record goes to `modify`. */
    method HandleWriteCommand(input: string)
      requires Valid()
      modifies this, db.fileManagers
      ensures Valid() && db.fileManagers == old(db.fileManagers)
      ensures Snapshot() == old(Snapshot()) && running == old(running)
      ensures var w := WriteEvents(old(db.States()), db.Configs(), input);
        events == old(events) + w.0 && db.States() == w.1
    {
      var erased := ForceAndErase(input, false);
      var m := MatchRecord(erased.0);
      WriteFields(m, erased.1);
    }

    /** A matched record goes to `modify` and its outcome is logged; no match is refused on `std::cerr`. */
    method WriteFields(m: Option<Fields>, isForce: bool)
      requires Valid()
      modifies this, db.fileManagers
      ensures Valid() && db.fileManagers == old(db.fileManagers)
      ensures Snapshot() == old(Snapshot()) && running == old(running)
      ensures var w := WriteMatched(old(db.States()), db.Configs(), m, isForce);
        events == old(events) + w.0 && db.States() == w.1
    {
      if m.None? {
        events := events + [ErrOut(BAD_RECORD)];
        return;
      }
      var f := m.value;
      var r := db.Modify(f.key, f.valueType, f.value, isForce);
      events := events + [WriteLog(r, f.key, isForce)];
    }

    /** `handleDatabaseCommands`; `crashed` is the uncaught `std::out_of_range`. */
    method HandleDatabaseCommands(command: string) returns (crashed: bool)
      requires Valid()
      modifies this, db.fileManagers
      ensures Valid() && db.fileManagers == old(db.fileManagers)
      ensures Snapshot() == old(Snapshot()) && running == old(running)
      ensures var r := DbEvents(old(db.States()), db.Configs(), command);
        crashed == r.None? &&
        (r.None? ==> events == old(events) && db.States() == old(db.States())) &&
        (r.Some? ==> events == old(events) + r.value.0 && db.States() == r.value.1)
    {
      var first := Extract(Open(command), "");
      if first.1 == "get" {
        var key := Extract(first.0, "").1;
        HandleGetCommand(key);
      } else if first.1 == "write" {
        if |command| < 6 {
          return true;
        }
        HandleWriteCommand(command[6..]);
      } else {
        events := events + [Line("Invalid database query")];
      }
      return false;
    }

    /** One turn of the `start` loop. */
    method HandleLine(input: string) returns (status: Status)
      requires Valid()
      modifies this, db.fileManagers
      ensures Valid() && db.fileManagers == old(db.fileManagers)
      ensures var s := LineStep(old(Snapshot()), old(db.States()), db.Configs(), network, input);
        events == old(events) + s.events && Snapshot() == s.conn && db.States() == s.states && status == s.status
    {
      events := events + [Out(PROMPT)];
      var command := Classify(input);
      status := HandleCommand(command);
      AppendAssoc(old(events), [Out(PROMPT)], Respond(old(Snapshot()), old(db.States()), db.Configs(), network, command).events);
    }

    /** The branch of the `start` loop that a classified line takes. */
    method HandleCommand(command: Command) returns (status: Status)
      requires Valid()
      modifies this, db.fileManagers
      ensures Valid() && db.fileManagers == old(db.fileManagers)
      ensures var s := Respond(old(Snapshot()), old(db.States()), db.Configs(), network, command);
        events == old(events) + s.events && Snapshot() == s.conn && db.States() == s.states && status == s.status
    {
      if command.ToServer? {
        status := HandleServerCommand(command);
      } else if command.DbQuery? {
        status := HandleDbCommand(command);
      } else {
        status := HandleLocalCommand(command);
      }
    }

    /** "server <message>": the message goes to the server. */
    method HandleServerCommand(command: Command) returns (status: Status)
      requires Valid() && command.ToServer?
      modifies this, db.fileManagers
      ensures Valid() && db.fileManagers == old(db.fileManagers)
      ensures var s := Respond(old(Snapshot()), old(db.States()), db.Configs(), network, command);
        events == old(events) + s.events && Snapshot() == s.conn && db.States() == s.states && status == s.status
    {
      ConnectionStaysValid(Snapshot(), network, command.message);
      SendMessage(command.message);
      return Running;
    }

    /** "db <query>": the database commands; a short "write" crashes the client. */
    method HandleDbCommand(command: Command) returns (status: Status)
      requires Valid() && command.DbQuery?
      modifies this, db.fileManagers
      ensures Valid() && db.fileManagers == old(db.fileManagers)
      ensures var s := Respond(old(Snapshot()), old(db.States()), db.Configs(), network, command);
        events == old(events) + s.events && Snapshot() == s.conn && db.States() == s.states && status == s.status
    {
      var crashed := HandleDatabaseCommands(command.command);
      if crashed {
        assert events + [] == events;
        return Crashed;
      }
      return Running;
    }

    /** The commands the client answers by itself. */
    method HandleLocalCommand(command: Command) returns (status: Status)
      requires Valid() && !command.ToServer? && !command.DbQuery?
      modifies this
      ensures Snapshot() == old(Snapshot())
      ensures events == old(events) + LocalEvents(old(Snapshot()), command)
      ensures status == if command == Quit then Exited else Running
    {
      match command {
        case Quit =>
          events := events + [Line("Exiting client...")];
          running := false;
          return Exited;
        case Blank =>
          assert events + [] == events;
        case Help =>
          events := events + HELP;
        case Clear(line) =>
          events := events + [Shell(line)];
        case Show =>
          events := events + InfoLines(Snapshot());
        case Invalid =>
          events := events + [Line("Invalid command. Use 'help' to display available commands list")];
      }
      return Running;
    }

    /** The `start` loop over the lines typed, following `Session`. */
    method Loop(lines: seq<string>) returns (status: Status)
      requires Valid()
      modifies this, db.fileManagers
      ensures Valid() && db.fileManagers == old(db.fileManagers)
      ensures var s := Session(old(Snapshot()), old(db.States()), db.Configs(), network, lines);
        events == old(events) + s.events && Snapshot() == s.conn && db.States() == s.states && status == s.status
    {
      ghost var cs := db.Configs();
      ghost var cur := db.States();
      ghost var conn := Snapshot();
      ghost var full := Session(conn, cur, cs, network, lines);
      ghost var shown: seq<Event> := [];
      running := true;
      var i := 0;
      while i < |lines|
        invariant 0 <= i <= |lines|
        invariant Valid() && db.fileManagers == old(db.fileManagers) && db.Configs() == cs
        invariant db.States() == cur && |cur| == |cs| && AllAgree(cur) && Snapshot() == conn
        invariant events == old(events) + shown
        invariant var todo := Session(conn, cur, cs, network, lines[i..]);
          full == Step(shown + todo.events, todo.conn, todo.states, todo.status)
      {
        ghost var s := LineStep(conn, cur, cs, network, lines[i]);
        ghost var rest := Session(s.conn, s.states, cs, network, lines[i + 1..]);
        SessionAt(conn, cur, cs, network, lines, i);
        status := HandleLine(lines[i]);
        AppendAssoc(old(events), shown, s.events);
        AppendAssoc(shown, s.events, rest.events);
        shown := shown + s.events;
        cur := s.states;
        conn := s.conn;
        if status != Running {
          return;
        }
        i := i + 1;
      }
      assert lines[i..] == [];
      assert shown + [] == shown;
      return Running;
    }

    /** `loadDatabase`: `init("./db")` and its report. */
    method LoadDatabase(fs: map<string, Directory>, floatText: FloatFormatter) returns (ok: bool)
      requires Valid()
      modifies this, db
      ensures Valid() && Snapshot() == old(Snapshot())
      ensures ok == InitError(fs, DB_PATH, floatText).None?
      ensures events == old(events) + LoadEvents(InitError(fs, DB_PATH, floatText))
      ensures ok ==> (DB_PATH in fs &&
        db.States() == LoadedStates(DB_PATH, RegularFiles(fs[DB_PATH].entries), floatText) &&
        db.Configs() == LoadedConfigs(RegularFiles(fs[DB_PATH].entries), floatText) &&
        forall k :: 0 <= k < |db.fileManagers| ==> fresh(db.fileManagers[k]))
    {
      var err := db.Init(fs, DB_PATH, floatText);
      events := events + LoadEvents(err);
      ok := err.None?;
    }

    /** `start`, following `Run`. */
    method Start(fs: map<string, Directory>, floatText: FloatFormatter, lines: seq<string>) returns (status: Status)
      requires Valid() && !connected
      modifies this, db
      ensures Valid()
      ensures var s := Run(fs, floatText, network, old(Snapshot()), lines);
        status == s.status && events == old(events) + s.events && Snapshot() == s.conn &&
        (status != Failed ==> db.States() == s.states)
    {
      var ok := LoadDatabase(fs, floatText);
      if !ok {
        return Failed;
      }
      status := ServeLoaded(lines);
      AppendAssoc(old(events), LoadEvents(None), Serve(old(Snapshot()), LoadedStates(DB_PATH, RegularFiles(fs[DB_PATH].entries), floatText),
        LoadedConfigs(RegularFiles(fs[DB_PATH].entries), floatText), network, lines).events);
    }

    /** `start` once the database has loaded, following `Serve`. */
    method ServeLoaded(lines: seq<string>) returns (status: Status)
      requires Valid() && !connected
      modifies this, db.fileManagers
      ensures Valid() && db.fileManagers == old(db.fileManagers)
      ensures var s := Serve(old(Snapshot()), old(db.States()), db.Configs(), network, lines);
        status == s.status && events == old(events) + s.events && Snapshot() == s.conn && db.States() == s.states
    {
      ConnectToServer();
      ghost var connecting := Snapshot();
      ghost var ss := db.States();
      ghost var loop := Session(connecting, ss, db.Configs(), network, lines);
      status := Loop(lines);
      AppendAssoc(old(events), Connect(old(Snapshot()), network).1, loop.events);
      if status == Exited {
        CloseConnection();
        AppendAssoc(old(events), Connect(old(Snapshot()), network).1 + loop.events, Close(loop.conn).1);
      } else {
        assert events + [] == events;
      }
    }
  }
}
