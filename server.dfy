/**
 * The radio server's handling of one client request. The words of the request pick
 * a database lookup, a carrier set-up or release, a downlink transmission (the
 * client's bits are modulated, saved and plotted), an uplink reception (random bits
 * are modulated, made noisy, demodulated and sent back), or an echo of the request.
 * `handleClient` wraps this in the fixed 1024-byte receive buffer.
 *
 * Where the source stops with an uncaught exception or undefined behaviour that a
 * client can provoke, the request ends in a `Crash` naming the fault.
 */
module RadioServer {
  import opened Common
  import opened Streams
  import opened DataValues
  import opened Database
  import opened Carriers
  import opened Modulation
  import opened Antennas
  import CommandLine
  import Numbers
  import Logging

  // ---------------------------------------------------------------- constants

  const BUFFER_SIZE: nat := 1024
  /** A downlink or uplink sends this many bits per 2G/3G/4G request, four times as many for 5G. */
  const UPLINK_BITS: nat := 13
  const INPUT_KEY: string := "/input"

  const ONLY_GET: string := "Only allow get commands for server database."
  const MISSING_SETUP: string := "Missing keyNetwork or frequency"
  const RELEASED: string := "Release carrier setting"
  const INVALID_CARRIER: string := "Invalid command for carrier"
  const REMOVE_OLD: string := "Please remove old network setting"
  const FREQUENCY_OUT_OF_RANGE: string := "Frequency out of range, must be from 1-10"
  const SETUP_CARRIER: string := "Please setup carrier: 'server carrier setup <network> <frequency>"
  const SETUP_NETWORK: string := "Please setup network: 'server carrier setup <network> <frequency>"
  const MISSING_BINARY: string := "Missing binaryData"
  const NOT_BINARY: string := "Data received is not a binary string"
  const RECEIVED_PREFIX: string := "Received binary data: "
  const OPENED_DOWNLINK: string := "Open file successfully"
  const OPENED_UPLINK: string := "Open file is successfull"
  const OPEN_FAILED: string := "Fail to open file for wave input data"
  const INVALID_SYMBOL: string := "Invalid symbol of 16 QAM!"
  const RECEIVED_MESSAGE_PREFIX: string := "Received message: "
  const RECEIVE_ERROR: string := "Error receiving data."

  function SupportedLog(network: string): string { "The server has support " + network + "!" }
  function SetUpMessage(network: string): string { "Successfully set up " + network + " network" }
  const UNSUPPORTED_PREFIX: string := "The server do not support "

  /** The characters of `s`, each as the one-character text `toString` gives a `char`. */
  function Characters(s: string): (cs: seq<Logging.Loggable>)
    ensures |cs| == |s| && forall i :: 0 <= i < |s| ==> cs[i] == Logging.Scalar([s[i]])
  {
    seq(|s|, i requires 0 <= i < |s| => Logging.Scalar([s[i]]))
  }

  /**
   * The `stringify` of an unsupported network. The name arrives as a `const std::string &`,
   * for which the container overload of `toString` is the more specialised one, so it is
   * printed as the bracketed list of its characters. The literals are `char` arrays, which
   * the container overload cannot take (no `cbegin` is found for them), so they print as they are.
   */
  function UnsupportedLog(network: string): string
  {
    Logging.Stringify([Logging.Scalar(UNSUPPORTED_PREFIX), Logging.Range(Characters(network)), Logging.Scalar("!")])
  }
  function UnsupportedMessage(network: string): string { "The server do not support " + network + " network" }
  function DisconnectedLog(fd: int): string { "Client " + IntToString(fd) + " disconnected." }

  /** The unsupported-network log line: the prefix, the name's characters in brackets separated by ", ", then "!". */
  lemma UnsupportedLogText(network: string)
    ensures UnsupportedLog(network) ==
      UNSUPPORTED_PREFIX + "[" + Logging.JoinComma(Logging.Texts(Characters(network))) + "]" + "!"
  {
    var args := [Logging.Scalar(UNSUPPORTED_PREFIX), Logging.Range(Characters(network)), Logging.Scalar("!")];
    assert args[..2][..1] == [args[0]];
    Logging.StringifyOne(args[0]);
    assert Logging.Stringify(args[..2]) == UNSUPPORTED_PREFIX + Logging.ToString(args[1]);
    assert Logging.Stringify(args) == Logging.Stringify(args[..2]) + "!";
    Logging.RangeText(Characters(network));
  }

  /** For "4G" the log reads "The server do not support [4, G]!". */
  lemma UnsupportedLogOf4G()
    ensures UnsupportedLog("4G") == "The server do not support [4, G]!"
  {
    UnsupportedLogText("4G");
    var ts := Logging.Texts(Characters("4G"));
    assert ts == ["4", "G"];
    assert ts[..1] == ["4"];
  }

  // ---------------------------------------------------------------- what goes wrong, what comes back

  /**
   * The ways a request stops the server: `std::stol` throws on the frequency text;
   * the carrier's frequency does not fit the modulator's `unsigned` bit rate, or is 0
   * and divides by zero; an exception escapes a database lookup; the receive buffer
   * is written one past its end.
   */
  datatype Fault = StolFailed | FrequencyUnusable | Uncaught | BufferOverflow

  datatype Reply = Reply(message: string) | Crash(fault: Fault)

  /**
   * What the outside world decides: the normal-distribution draws of `modulate` and
   * of `addNoise`, whether a path can be opened for writing, and each shell
   * command's exit code.
   */
  datatype Env = Env(noise: nat -> real, addedNoise: nat -> real, opens: string -> bool, shell: string -> int)

  // ---------------------------------------------------------------- reading a request

  /** The request, as the words of the received text select it. */
  datatype Request =
    | DbGet(key: string)
    | DbOther
    | CarrierSetup(network: string, frequency: string)
    | CarrierRelease
    | CarrierOther
    | Downlink(data: string)
    | Uplink
    | Echo

  /** The `i`-th word, or "" when there are fewer words (a failed `>>` leaves "" in a fresh string). */
  function Word(words: seq<string>, i: nat): string
  {
    if i < |words| then words[i] else ""
  }

  /** Reference reading of a request from its words. */
  function Parse(buffer: string): Request
  {
    var w := Tokens(buffer);
    var query := Word(w, 0);
    if query == "db" then
      if Word(w, 1) == "get" then DbGet(Word(w, 2)) else DbOther
    else if query == "carrier" then
      if Word(w, 1) == "setup" then CarrierSetup(Word(w, 2), Word(w, 3))
      else if Word(w, 1) == "release" then CarrierRelease
      else CarrierOther
    else if query == "DL" then Downlink(Word(w, 1))
    else if query == "UL" then Uplink
    else Echo
  }

  /** Any first word other than the four commands, including no word at all, is echoed. */
  lemma EchoIffUnknownFirstWord(buffer: string)
    ensures Parse(buffer) == Echo <==>
      var q := Word(Tokens(buffer), 0); q != "db" && q != "carrier" && q != "DL" && q != "UL"
  {
  }

  /** A typed set-up command reads back as the network and frequency it was typed with. */
  lemma ParseTypedSetup(network: string, frequency: string)
    requires |network| > 0 && NoSpace(network) && |frequency| > 0 && NoSpace(frequency)
    ensures Parse(JoinWords(["carrier", "setup", network, frequency])) == CarrierSetup(network, frequency)
  {
    var ws := ["carrier", "setup", network, frequency];
    assert NoSpace(ws[0]) && NoSpace(ws[1]);
    TokensOfJoin(ws);
  }

  /** A typed downlink command reads back as the data it carries. */
  lemma ParseTypedDownlink(data: string)
    requires |data| > 0 && NoSpace(data)
    ensures Parse(JoinWords(["DL", data])) == Downlink(data)
  {
    var ws := ["DL", data];
    assert NoSpace(ws[0]);
    TokensOfJoin(ws);
  }

  /** The words a stream can still deliver once `k` words have been asked for. */
  function Rest(w: seq<string>, k: nat): seq<string>
  {
    if k < |w| then w[k..] else []
  }

  /** One `>>`: the `k`-th word, or the target unchanged when the words have run out. */
  lemma ExtractWord(st: Stream, target: string, w: seq<string>, k: nat)
    requires st.Valid() && Remaining(st) == Rest(w, k)
    ensures var (st', t) := Extract(st, target);
      Remaining(st') == Rest(w, k + 1) && t == (if k < |w| then w[k] else target)
  {
    ExtractNext(st, target);
    if k < |w| {
      assert w[k..][1..] == w[k + 1..];
    }
  }

  /** The `>>` extractions of `handleClientCommand`, on a `std::stringstream` over the text. */
  method ReadRequest(buffer: string) returns (req: Request)
    ensures req == Parse(buffer)
  {
    ghost var w := Tokens(buffer);
    var st := Open(buffer);
    var query := "";
    ExtractWord(st, query, w, 0);
    var next := Extract(st, query);
    st, query := next.0, next.1;
    if query == "db" {
      ExtractWord(st, query, w, 1);
      next := Extract(st, query);
      st, query := next.0, next.1;
      if query == "get" {
        ExtractWord(st, "", w, 2);
        var key := Extract(st, "").1;
        return DbGet(key);
      }
      return DbOther;
    } else if query == "carrier" {
      ExtractWord(st, query, w, 1);
      next := Extract(st, query);
      st, query := next.0, next.1;
      if query == "setup" {
        ExtractWord(st, "", w, 2);
        next := Extract(st, "");
        var keyNetwork;
        st, keyNetwork := next.0, next.1;
        ExtractWord(st, "", w, 3);
        var frequency := Extract(st, "").1;
        return CarrierSetup(keyNetwork, frequency);
      } else if query == "release" {
        return CarrierRelease;
      }
      return CarrierOther;
    } else if query == "DL" {
      ExtractWord(st, "", w, 1);
      var binaryData := Extract(st, "").1;
      return Downlink(binaryData);
    } else if query == "UL" {
      return Uplink;
    }
    return Echo;
  }

  // ---------------------------------------------------------------- isBinaryString

  /** `isBinaryString`: true exactly when every character is '0' or '1' (so also for ""). */
  method IsBinaryString(s: string) returns (b: bool)
    ensures b == IsBinary(s)
  {
    for i := 0 to |s|
      invariant forall j :: 0 <= j < i ==> IsBit(s[j])
    {
      if s[i] != '0' && s[i] != '1' {
        return false;
      }
    }
    return true;
  }

  // ---------------------------------------------------------------- db get

  /** Every record followed by "\n", the way the loop of `handleClientGetDBCommand` builds it. */
  function Terminated(items: seq<string>): string
  {
    if items == [] then "" else Terminated(items[..|items| - 1]) + items[|items| - 1] + "\n"
  }

  /** The text of the console lines, in order. */
  function Printed(es: seq<CommandLine.Emit>): string
  {
    if es == [] then ""
    else
      var e := es[|es| - 1];
      Printed(es[..|es| - 1]) + (if e.ClearScreen? then "" else e.text)
  }

  /** The reply to `db get <key>`: all records for "all", the record on its own line, or "" when it fails. */
  function ClientGetReply(ss: seq<FileState>, key: string): string
  {
    if key == "all" then Terminated(Concat(Blocks(ss), |ss|))
    else match GetIn(ss, key)
      case Ok(text) => text + "\n"
      case Err(_) => ""
  }

  /** What `getKey` prints on the database console meanwhile: the error of a failed lookup. */
  function ClientGetConsole(ss: seq<FileState>, key: string): seq<CommandLine.Emit>
  {
    if key == "all" then []
    else match GetIn(ss, key)
      case Ok(_) => []
      case Err(e) => [CommandLine.GetError(e)]
  }

  lemma {:induction false} PrintedLines(rs: seq<string>)
    decreases |rs|
    ensures Printed(CommandLine.AllLines(rs)) == Terminated(rs)
  {
    if rs != [] {
      var es := CommandLine.AllLines(rs);
      assert es[..|es| - 1] == CommandLine.AllLines(rs[..|rs| - 1]);
      PrintedLines(rs[..|rs| - 1]);
    }
  }

  /**
   * The reply is what the database console's `get` prints for the same key, except
   * that a failed lookup gives "" instead of the error line.
   */
  lemma ClientReplyIsConsoleText(ss: seq<FileState>, key: string)
    ensures key == "all" || GetIn(ss, key).Ok? ==> ClientGetReply(ss, key) == Printed(CommandLine.GetReport(ss, key))
    ensures key != "all" && GetIn(ss, key).Err? ==> ClientGetReply(ss, key) == ""
  {
    if key == "all" {
      PrintedLines(Concat(Blocks(ss), |ss|));
    } else if GetIn(ss, key).Ok? {
      var es := CommandLine.GetReport(ss, key);
      assert es[..|es| - 1] == [];
    }
  }

  /** Replies for several records concatenate. */
  lemma {:induction false} TerminatedAppend(a: seq<string>, b: seq<string>)
    decreases |b|
    ensures Terminated(a + b) == Terminated(a) + Terminated(b)
  {
    if b == [] {
      assert a + b == a;
    } else {
      var b' := b[..|b| - 1];
      assert (a + b)[..|a + b| - 1] == a + b';
      TerminatedAppend(a, b');
    }
  }

  // ---------------------------------------------------------------- setNetworkForServer

  datatype SetUpOutcome = SetUpOutcome(state: CarrierState, message: string, events: seq<Event>)

  /**
   * `setNetworkForServer` on a carrier in state `s`. The frequency is a `ssize_t`
   * that `setFrequency` stores as a `size_t`.
   */
  function NetworkSetUp(config: CarrierConfig, s: CarrierState, network: string, freq: int): SetUpOutcome
  {
    if CheckSupportedCarrier(config, network) && CheckSupportedFrequency(config, freq) then
      var (s', ok) := SetUp(s, network);
      var supported := [Log(Logging.INFO, SupportedLog(network))];
      if ok then SetUpOutcome(s'.(frequency := freq % SIZE_LIMIT), SetUpMessage(network), supported)
      else SetUpOutcome(s', REMOVE_OLD, supported)
    else if !CheckSupportedFrequency(config, freq) then SetUpOutcome(s, FREQUENCY_OUT_OF_RANGE, [])
    else SetUpOutcome(s, UnsupportedMessage(network), [Log(Logging.ERROR, UnsupportedLog(network))])
  }

  /** An inactive carrier becomes active exactly when network and frequency are both supported. */
  lemma SetUpActivatesIffSupported(config: CarrierConfig, s: CarrierState, network: string, freq: int)
    requires !s.active
    ensures var r := NetworkSetUp(config, s, network, freq);
      (r.state.active <==> CheckSupportedCarrier(config, network) && CheckSupportedFrequency(config, freq)) &&
      (r.state.active ==> r.state == CarrierState(true, network, freq % SIZE_LIMIT) && r.message == SetUpMessage(network)) &&
      (!r.state.active ==> r.state == s)
  {
  }

  /** An active carrier never changes, and with a valid request the reply asks for a release first. */
  lemma SetUpKeepsActiveCarrier(config: CarrierConfig, s: CarrierState, network: string, freq: int)
    requires s.active
    ensures var r := NetworkSetUp(config, s, network, freq);
      r.state == s &&
      (CheckSupportedCarrier(config, network) && CheckSupportedFrequency(config, freq) ==> r.message == REMOVE_OLD)
  {
  }

  /** An out-of-range frequency gives its own message, whether or not the network is supported. */
  lemma FrequencyCheckFirst(config: CarrierConfig, s: CarrierState, network: string, freq: int)
    requires !CheckSupportedFrequency(config, freq)
    ensures NetworkSetUp(config, s, network, freq) == SetUpOutcome(s, FREQUENCY_OUT_OF_RANGE, [])
  {
  }

  /** `carrier setup <network> <frequency>`: both words needed, the frequency read by `std::stol`. */
  datatype CarrierOutcome = CarrierOutcome(state: CarrierState, reply: Reply, events: seq<Event>)

  function SetupOutcome(config: CarrierConfig, s: CarrierState, network: string, frequency: string): CarrierOutcome
  {
    if network == "" || frequency == "" then CarrierOutcome(s, Reply(MISSING_SETUP), [])
    else match Numbers.Stol(frequency)
      case None => CarrierOutcome(s, Crash(StolFailed), [])
      case Some(f) =>
        var r := NetworkSetUp(config, s, network, f);
        CarrierOutcome(r.state, Reply(r.message), r.events)
  }

  // ---------------------------------------------------------------- saveInputFile

  datatype Saved = Saved(events: seq<Event>, fileOpen: bool, crashed: bool)

  /** The path a `const char *` receives from the variant: its text, or "" when it holds another type. */
  function PathOf(v: Variant): string
  {
    var store := ExtractValue(v, VChars(""));
    if store.VChars? then store.chars else ""
  }

  /**
   * `saveInputFile`: the "/input" lookup (whose exceptions nothing catches), the
   * variant error when the record is not text, and whether the path opens.
   */
  function SaveInput(ss: seq<FileState>, opens: string -> bool): Saved
  {
    match StoredValue(ss, INPUT_KEY)
    case Err(_) => Saved([], false, true)
    case Ok(v) => Saved(if v.VChars? then [] else [ErrOut(BAD_VARIANT_ACCESS + "\n")], opens(PathOf(v)), false)
  }

  /** Without an "/input" record the server stops; with a text record the file named by it is tried. */
  lemma SaveInputOutcomes(ss: seq<FileState>, opens: string -> bool)
    ensures FirstHolder(ss, INPUT_KEY).None? ==> SaveInput(ss, opens).crashed
    ensures FirstHolder(ss, INPUT_KEY).Some? && ss[FirstHolder(ss, INPUT_KEY).value].items[INPUT_KEY].valueType == "char" ==>
      SaveInput(ss, opens) == Saved([], opens(CString(ss[FirstHolder(ss, INPUT_KEY).value].items[INPUT_KEY].value)), false)
  {
  }

  /** The parts of a transmission that depend on the database: the save of "/input", the wave plot, the spectrum plot. */
  datatype Lookups = Lookups(save: Saved, wave: Visual, spectrum: Visual)

  /** The lookups over the database files `ss`. */
  function LookupsOf(ss: seq<FileState>, env: Env): Lookups
  {
    Lookups(SaveInput(ss, env.opens), Visualization(ss, false, env.shell), Visualization(ss, true, env.shell))
  }

  /**
   * `look` is what the lookups over `ss` come to in `env`. Stated through a quantifier
   * that only a mention of `LookupsOf` instantiates, so that the steps that merely pass
   * the lookups on do not unfold them.
   */
  ghost predicate LooksUp(ss: seq<FileState>, env: Env, look: Lookups)
  {
    forall e {:trigger LookupsOf(ss, e)} :: e == env ==> look == LookupsOf(ss, e)
  }

  /** There is exactly one such `look`: the lookups over `ss`. */
  lemma LooksUpIff(ss: seq<FileState>, env: Env, look: Lookups)
    ensures LooksUp(ss, env, look) <==> look == LookupsOf(ss, env)
  {
    if LooksUp(ss, env, look) {
      assert look == LookupsOf(ss, env);
    }
  }

  // ---------------------------------------------------------------- DL

  /** The modulator's `setFrequency` needs a frequency that converts to a non-zero `unsigned`. */
  predicate FrequencyFits(f: nat)
  {
    1 <= f < UINT_LIMIT
  }

  datatype Outcome = Outcome(reply: Reply, events: seq<Event>)

  datatype Shown = Shown(events: seq<Event>, crashed: bool)

  /** After the downlink's modulation, from the save `sv` and the plot `v`: the events, and whether it crashed. */
  function DownlinkShown(sv: Saved, v: Visual): Shown
  {
    if sv.crashed then Shown(sv.events, true)
    else if sv.fileOpen then Shown(sv.events + [Log(Logging.INFO, OPENED_DOWNLINK)] + v.events, v.escaped)
    else Shown(sv.events + [Log(Logging.ERROR, OPEN_FAILED)], false)
  }

  /** Whether a downlink request gets as far as modulating. */
  predicate Transmits(s: CarrierState, data: string)
  {
    s.active && data != "" && IsBinary(data) && !(s.network == "5G" && |data| % 4 != 0)
  }

  /** A downlink past its checks: the modulator needs a usable frequency; then the save and the plot. */
  function DownlinkSent(s: CarrierState, look: Lookups): Outcome
  {
    if !FrequencyFits(s.frequency) then Outcome(Crash(FrequencyUnusable), [])
    else
      var d := DownlinkShown(look.save, look.wave);
      Outcome(if d.crashed then Crash(Uncaught) else Reply(""), d.events)
  }

  /** `DL <data>`: the four checks in order, then the transmission. A successful one replies "". */
  function DownlinkOutcome(s: CarrierState, look: Lookups, data: string): Outcome
  {
    if !s.active then Outcome(Reply(SETUP_CARRIER), [])
    else if data == "" then Outcome(Reply(MISSING_BINARY), [])
    else if !IsBinary(data) then Outcome(Reply(NOT_BINARY), [])
    else
      var received := [Out(RECEIVED_PREFIX + data + "\n")];
      if s.network == "5G" && |data| % 4 != 0 then
        Outcome(Reply(QAM_LENGTH_ERROR), received + [Log(Logging.ERROR, QAM_LENGTH_ERROR)])
      else
        var t := DownlinkSent(s, look);
        Outcome(t.reply, received + t.events)
  }

  /** The checks come in order: the first that fails decides the reply, and nothing is printed. */
  lemma DownlinkChecksInOrder(s: CarrierState, look: Lookups, data: string)
    ensures !s.active ==> DownlinkOutcome(s, look, data) == Outcome(Reply(SETUP_CARRIER), [])
    ensures s.active && data == "" ==> DownlinkOutcome(s, look, data) == Outcome(Reply(MISSING_BINARY), [])
    ensures s.active && data != "" && !IsBinary(data) ==> DownlinkOutcome(s, look, data) == Outcome(Reply(NOT_BINARY), [])
  {
  }

  /** A downlink that transmits and does not crash replies with the empty string. */
  lemma DownlinkRepliesEmpty(s: CarrierState, look: Lookups, data: string)
    requires Transmits(s, data)
    ensures DownlinkOutcome(s, look, data).reply.Reply? ==> DownlinkOutcome(s, look, data).reply == Reply("")
  {
  }

  // ---------------------------------------------------------------- UL

  function UplinkLength(network: string): nat
  {
    if network == "5G" then UPLINK_BITS * 4 else UPLINK_BITS
  }

  /** The 5G uplink sends whole 4-bit symbols. */
  lemma UplinkLengthFits(network: string)
    ensures SchemeOf(network) == Qam16 ==> UplinkLength(network) % 4 == 0
  {
    SchemeDispatch(network);
  }

  /** The modulated and noisy uplink wave is one the demodulator accepts. */
  lemma UplinkWaveFits(p: Params, bits: string, network: string, env: Env)
    requires SchemeOf(network) == Qam16 ==> |bits| % 4 == 0 && PairsInRange(bits)
    ensures var w := Noisy(Modulated(p, bits, network, env.noise), env.addedNoise);
      (SchemeOf(network) != NoScheme && |w| > 0 ==> p.samplesPerBit > 0) &&
      (SchemeOf(network) == Qam16 && p.samplesPerBit > 0 ==> |w| % p.samplesPerBit == 0)
  {
    ModulatedLength(p, bits, network, env.noise);
    if SchemeOf(network) == Qam16 && p.samplesPerBit > 0 {
      DivOfWindow(|bits| / 4, p.samplesPerBit, 0);
    }
  }

  /** The bits the uplink demodulates: modulate, add noise a second time, demodulate. */
  function Uplinked(p: Params, bits: string, network: string, env: Env): Decoded
    requires IsBinary(bits) && (SchemeOf(network) == Qam16 ==> |bits| % 4 == 0)
  {
    BinaryPairsInRange(bits);
    UplinkWaveFits(p, bits, network, env);
    Demodulated(p, Noisy(Modulated(p, bits, network, env.noise), env.addedNoise), network)
  }

  /** On 2G, 3G and 4G the uplink reply has one character per generated bit. */
  lemma UplinkKeepsLength(p: Params, bits: string, network: string, env: Env)
    requires IsBinary(bits) && SchemeOf(network).Keyed? && p.samplesPerBit > 0
    ensures |Uplinked(p, bits, network, env).bits| == |bits|
  {
    var k := SchemeOf(network).keying;
    var d := p.samplesPerBit;
    var s := Noisy(Noisy(KeyedWave(p, k, bits), env.noise), env.addedNoise);
    assert Modulated(p, bits, network, env.noise) == Noisy(KeyedWave(p, k, bits), env.noise);
    KeyedBitsCount(p, k, s, 0);
    assert |s| == |bits| * d;
    DivOfWindow(|bits|, d, d - 1);
  }

  /** After demodulation, from the save `sv` and the plot `v`: then the generated bits are logged. */
  function UplinkShown(sv: Saved, v: Visual, bits: string): Shown
  {
    if sv.crashed then Shown(sv.events, true)
    else if sv.fileOpen then
      if v.escaped then Shown(sv.events + v.events, true)
      else Shown(sv.events + v.events + [Log(Logging.INFO, OPENED_UPLINK), Log(Logging.INFO, bits)], false)
    else Shown(sv.events + [Log(Logging.ERROR, OPEN_FAILED), Log(Logging.INFO, bits)], false)
  }

  function Repeat(e: Event, n: nat): (r: seq<Event>)
    ensures |r| == n && forall i :: 0 <= i < n ==> r[i] == e
  {
    seq(n, _ => e)
  }

  /**
   * An uplink of `bits` past the carrier check: the modulator needs a usable frequency;
   * then the invalid-symbol errors of the demodulation, the save and the plot. The
   * reply is the demodulated text.
   */
  function UplinkSent(s: CarrierState, look: Lookups, env: Env, p: Params, bits: string): Outcome
    requires IsBinary(bits) && (SchemeOf(s.network) == Qam16 ==> |bits| % 4 == 0)
  {
    if !FrequencyFits(s.frequency) then Outcome(Crash(FrequencyUnusable), [])
    else
      var d := Uplinked(p, bits, s.network, env);
      var u := UplinkShown(look.save, look.spectrum, bits);
      Outcome(if u.crashed then Crash(Uncaught) else Reply(d.bits),
              Repeat(Log(Logging.ERROR, INVALID_SYMBOL), d.invalid) + u.events)
  }

  /**
   * `UL`: with an active carrier, the `bits` generated (printed by the antenna), the
   * modulator `p` as set for the carrier's frequency, the invalid-symbol errors of
   * the demodulation, and the save and plot; the reply is the demodulated text.
   */
  function UplinkOutcome(s: CarrierState, look: Lookups, env: Env, p: Params, bits: string): Outcome
    requires s.active ==> IsBinary(bits) && |bits| == UplinkLength(s.network)
  {
    if !s.active then Outcome(Reply(SETUP_NETWORK), [])
    else
      var t := UplinkSent(s, look, env, p, bits);
      Outcome(t.reply, [Out(GENERATED_PREFIX + bits + "\n")] + t.events)
  }

  // ---------------------------------------------------------------- the whole request

  /** The modulator's fields that `setBinaryInput` and `setFrequency` assign. */
  datatype Tuning = Tuning(carrierFrequency: real, bitRate: nat, samplesPerBit: nat, binaryInput: string)

  /** The modulator's parameters: the constant ones of `base` with the frequency fields of `t`. */
  function Tuned(base: Params, t: Tuning): Params
  {
    base.(carrier := t.carrierFrequency, samplesPerBit := t.samplesPerBit)
  }

  /** `setBinaryInput(bits)`, then `setFrequency(f)` when `f` fits (otherwise the server stops there). */
  function Retuned(t: Tuning, sampleRate: int, bits: string, f: nat): Tuning
  {
    if FrequencyFits(f) then Tuning(f as real, f, SamplesPerBit(sampleRate, f), bits)
    else t.(binaryInput := bits)
  }

  /** The parts of the server a request can change, as values. */
  datatype Snapshot = Snapshot(carrier: CarrierState, tuning: Tuning, events: seq<Event>, console: seq<CommandLine.Emit>)

  /** `db get <key>`: the reply and the console output of the lookup; nothing else changes. */
  predicate HandledGet(ss: seq<FileState>, key: string, before: Snapshot, after: Snapshot, reply: Reply)
  {
    reply == Reply(ClientGetReply(ss, key)) && after == before.(console := before.console + ClientGetConsole(ss, key))
  }

  /** `carrier setup <network> <frequency>`: the carrier and the log as the set-up outcome says. */
  predicate HandledSetup(config: CarrierConfig, network: string, frequency: string, before: Snapshot, after: Snapshot, reply: Reply)
  {
    var o := SetupOutcome(config, before.carrier, network, frequency);
    reply == o.reply && after == before.(carrier := o.state, events := before.events + o.events)
  }

  /** `DL <data>`: the downlink outcome; the modulator is retuned only when the data is transmitted. */
  predicate HandledDownlink(look: Lookups, base: Params, data: string, before: Snapshot, after: Snapshot, reply: Reply)
  {
    var o := DownlinkOutcome(before.carrier, look, data);
    var t := if Transmits(before.carrier, data) then Retuned(before.tuning, base.sampleRate, data, before.carrier.frequency)
      else before.tuning;
    reply == o.reply && after == before.(tuning := t, events := before.events + o.events)
  }

  /**
   * `UL`: without a carrier only the reply; otherwise the uplink outcome for the random
   * bits, which are whatever `after` holds as the modulator's input.
   */
  predicate HandledUplink(look: Lookups, env: Env, base: Params, before: Snapshot, after: Snapshot, reply: Reply)
  {
    if !before.carrier.active then reply == Reply(SETUP_NETWORK) && after == before
    else
      var bits := after.tuning.binaryInput;
      IsBinary(bits) && |bits| == UplinkLength(before.carrier.network) &&
      var o := UplinkOutcome(before.carrier, look, env, Tuned(base, after.tuning), bits);
      reply == o.reply &&
      after == before.(tuning := Retuned(before.tuning, base.sampleRate, bits, before.carrier.frequency),
                       events := before.events + o.events)
  }

  /**
   * `handleClientCommand` on `buffer`, from `before` to `after` with reply `reply`, over
   * the database files `ss` (whose transmission lookups are `look`) and a modulator
   * whose constant parameters are those of `base`.
   */
  predicate Handled(config: CarrierConfig, ss: seq<FileState>, look: Lookups, env: Env, base: Params, buffer: string,
                    before: Snapshot, after: Snapshot, reply: Reply)
  {
    match Parse(buffer)
    case DbGet(key) => HandledGet(ss, key, before, after, reply)
    case DbOther => reply == Reply(ONLY_GET) && after == before
    case CarrierSetup(network, frequency) => HandledSetup(config, network, frequency, before, after, reply)
    case CarrierRelease => reply == Reply(RELEASED) && after == before.(carrier := INITIAL)
    case CarrierOther => reply == Reply(INVALID_CARRIER) && after == before
    case Downlink(data) => HandledDownlink(look, base, data, before, after, reply)
    case Uplink => HandledUplink(look, env, base, before, after, reply)
    case Echo => reply == Reply(buffer) && after == before
  }

  /** Only `carrier setup` and `carrier release` change the carrier. */
  lemma OnlyCarrierCommandsChangeCarrier(config: CarrierConfig, ss: seq<FileState>, look: Lookups, env: Env, base: Params,
                                         buffer: string, before: Snapshot, after: Snapshot, reply: Reply)
    requires Handled(config, ss, look, env, base, buffer, before, after, reply)
    requires !Parse(buffer).CarrierSetup? && !Parse(buffer).CarrierRelease?
    ensures after.carrier == before.carrier
  {
  }

  /** A client can never write to the database, and only `db get` prints on its console. */
  lemma OnlyGetTouchesConsole(config: CarrierConfig, ss: seq<FileState>, look: Lookups, env: Env, base: Params,
                              buffer: string, before: Snapshot, after: Snapshot, reply: Reply)
    requires Handled(config, ss, look, env, base, buffer, before, after, reply)
    requires !Parse(buffer).DbGet?
    ensures after.console == before.console
  {
  }

  /** A client `db` request other than `get` is refused and changes nothing. */
  lemma DbOtherRefused(config: CarrierConfig, ss: seq<FileState>, look: Lookups, env: Env, base: Params,
                       buffer: string, before: Snapshot, after: Snapshot, reply: Reply)
    requires Handled(config, ss, look, env, base, buffer, before, after, reply)
    requires Parse(buffer) == DbOther
    ensures reply == Reply(ONLY_GET) && after == before
  {
  }

  /** A set-up that lacks its network or its frequency word is refused and leaves the carrier as it was. */
  lemma MissingSetupRefused(config: CarrierConfig, ss: seq<FileState>, look: Lookups, env: Env, base: Params,
                            buffer: string, before: Snapshot, after: Snapshot, reply: Reply)
    requires Handled(config, ss, look, env, base, buffer, before, after, reply)
    requires Parse(buffer).CarrierSetup? && (Parse(buffer).network == "" || Parse(buffer).frequency == "")
    ensures reply == Reply(MISSING_SETUP) && after == before
  {
  }

  /** `carrier release` resets the carrier from any state and always says so; a second release changes nothing more. */
  lemma ReleaseResets(config: CarrierConfig, ss: seq<FileState>, look: Lookups, env: Env, base: Params,
                      buffer: string, before: Snapshot, mid: Snapshot, r1: Reply, after: Snapshot, r2: Reply)
    requires Parse(buffer) == CarrierRelease
    requires Handled(config, ss, look, env, base, buffer, before, mid, r1)
    requires Handled(config, ss, look, env, base, buffer, mid, after, r2)
    ensures r1 == r2 == Reply(RELEASED)
    ensures mid == before.(carrier := INITIAL) && after == mid
  {
  }

  /** A bare `carrier` is an invalid carrier command, and a set-up cut short after its network has no frequency. */
  lemma ParseShortCarrier(network: string)
    requires |network| > 0 && NoSpace(network)
    ensures Parse(JoinWords(["carrier"])) == CarrierOther
    ensures Parse(JoinWords(["carrier", "setup", network])) == CarrierSetup(network, "")
  {
    var ws := ["carrier", "setup", network];
    assert NoSpace(ws[0]) && NoSpace(ws[1]);
    TokensOfJoin(ws);
    TokensOfJoin(ws[..1]);
  }

  /** A `db` request whose second word is not `get` is not a get, whatever follows. */
  lemma ParseDbOther(verb: string, key: string)
    requires |verb| > 0 && NoSpace(verb) && verb != "get" && |key| > 0 && NoSpace(key)
    ensures Parse(JoinWords(["db", verb, key])) == DbOther
  {
    var ws := ["db", verb, key];
    assert NoSpace(ws[0]);
    TokensOfJoin(ws);
  }

  /** Everything but the uplink's random bits is determined by the request and the state. */
  lemma HandledDeterministic(config: CarrierConfig, ss: seq<FileState>, look: Lookups, env: Env, base: Params,
                             buffer: string, before: Snapshot, a1: Snapshot, r1: Reply, a2: Snapshot, r2: Reply)
    requires Handled(config, ss, look, env, base, buffer, before, a1, r1)
    requires Handled(config, ss, look, env, base, buffer, before, a2, r2)
    requires a1.tuning.binaryInput == a2.tuning.binaryInput
    ensures a1 == a2 && r1 == r2
  {
  }

  /**
   * `UL` without a carrier only asks for one; with a carrier it generates 13 random bits,
   * 52 on 5G, and makes them the modulator's input.
   */
  lemma UplinkGeneratesBits(config: CarrierConfig, ss: seq<FileState>, look: Lookups, env: Env, base: Params,
                            buffer: string, before: Snapshot, after: Snapshot, reply: Reply)
    requires Handled(config, ss, look, env, base, buffer, before, after, reply)
    requires Parse(buffer) == Uplink
    ensures !before.carrier.active ==> reply == Reply(SETUP_NETWORK) && after == before
    ensures before.carrier.active ==>
      IsBinary(after.tuning.binaryInput) &&
      |after.tuning.binaryInput| == (if before.carrier.network == "5G" then 52 else 13)
  {
  }

  /** An uplink on 2G, 3G or 4G that does not crash replies with one character per generated bit: 13. */
  lemma UplinkReplyLength(look: Lookups, env: Env, base: Params, before: Snapshot, after: Snapshot, reply: Reply)
    requires HandledUplink(look, env, base, before, after, reply)
    requires before.carrier.active && SchemeOf(before.carrier.network).Keyed?
    requires reply.Reply? && after.tuning.samplesPerBit > 0
    ensures |reply.message| == UPLINK_BITS
  {
    UplinkKeepsLength(Tuned(base, after.tuning), after.tuning.binaryInput, before.carrier.network, env);
  }

  // ---------------------------------------------------------------- handleClient's buffer

  /** What `recv` leaves in the zeroed 1024-byte buffer, with the terminator the server writes. */
  function ReceiveBuffer(bytes: string): (buffer: string)
    requires |bytes| < BUFFER_SIZE
    ensures |buffer| == BUFFER_SIZE && buffer[..|bytes|] == bytes
    ensures forall i :: |bytes| <= i < BUFFER_SIZE ==> buffer[i] == '\0'
  {
    bytes + ['\0'] + seq(BUFFER_SIZE - |bytes| - 1, _ => '\0')
  }

  /**
   * `strcpy(buffer, message.c_str())` then `send(buffer, message.size())`: the bytes
   * sent, or None when the copy or the send would pass the end of the buffer.
   */
  function Transmission(buffer: string, message: string): Option<string>
    requires |buffer| == BUFFER_SIZE
  {
    var c := CString(message);
    if |c| + 1 > BUFFER_SIZE || |message| > BUFFER_SIZE then None
    else Some((c + ['\0'] + buffer[|c| + 1..])[..|message|])
  }

  /** A short reply without NUL characters goes out exactly as it is. */
  lemma TransmissionOfPlainReply(buffer: string, message: string)
    requires |buffer| == BUFFER_SIZE && |message| < BUFFER_SIZE
    requires forall i :: 0 <= i < |message| ==> message[i] != '\0'
    ensures Transmission(buffer, message) == Some(message)
  {
    var c := CString(message);
    assert c == message;
    var t := c + ['\0'] + buffer[|c| + 1..];
    assert t[..|message|] == message;
  }

  /** An echoed request comes back as the text the server read from the buffer. */
  lemma EchoSentBack(bytes: string)
    requires |bytes| < BUFFER_SIZE
    ensures Transmission(ReceiveBuffer(bytes), CString(bytes)) == Some(CString(bytes))
  {
    TransmissionOfPlainReply(ReceiveBuffer(bytes), CString(bytes));
  }

  /** A reply with a NUL inside is cut there; the rest of its length is old buffer contents. */
  lemma TransmissionCutAtNul(buffer: string, message: string)
    requires |buffer| == BUFFER_SIZE && Transmission(buffer, message).Some?
    ensures var c := CString(message); var t := Transmission(buffer, message).value;
      |t| == |message| && t[..|c|] == c && (|c| < |message| ==> t[|c|] == '\0')
  {
  }

  /** One `recv` result. */
  datatype Received = Data(bytes: string) | Closed | RecvError

  /**
   * What `handleClient` did: nothing to answer; the buffer overflowed; or the request
   * text, its reply, and the bytes sent (None for a crash, or for a reply that
   * overflows the buffer when copied back).
   */
  datatype Served = NoRequest | Overflowed | Served(request: string, reply: Reply, sent: Option<string>)

  // ---------------------------------------------------------------- the server object

  class Server {
    const carrier: Carrier
    const modulator: Modulator
    const antenna: Antenna
    /** The database console object `g_serverDatabase`; its `db` is the one the antenna reads. */
    const cli: CommandLine.CommandLineInterface
    const out: Output
    const config: CarrierConfig

    predicate Valid()
    {
      antenna.out == out && antenna.db == cli.db
    }

    function TuningOf(): Tuning
      reads modulator
    {
      Tuning(modulator.carrierFrequency, modulator.bitRate, modulator.samplesPerBit, modulator.binaryInput)
    }

    function Snap(): Snapshot
      reads carrier, modulator, out, cli
    {
      Snapshot(carrier.State(), TuningOf(), out.events, cli.console)
    }

    /** A server with a new, inactive carrier and the given modulator, antenna and database. */
    constructor (modulator: Modulator, antenna: Antenna, cli: CommandLine.CommandLineInterface, out: Output, config: CarrierConfig)
      requires antenna.out == out && antenna.db == cli.db
      ensures this.modulator == modulator && this.antenna == antenna && this.cli == cli
      ensures this.out == out && this.config == config
      ensures fresh(carrier) && carrier.State() == INITIAL && Valid()
    {
      this.carrier := new Carrier();
      this.modulator := modulator;
      this.antenna := antenna;
      this.cli := cli;
      this.out := out;
      this.config := config;
    }

    /** `setNetworkForServer`. */
    method SetNetworkForServer(network: string, freq: int) returns (message: string)
      modifies carrier, out
      ensures var r := NetworkSetUp(config, old(carrier.State()), network, freq);
        carrier.State() == r.state && message == r.message && out.events == old(out.events) + r.events
    {
      if CheckSupportedCarrier(config, network) && CheckSupportedFrequency(config, freq) {
        out.events := out.events + [Log(Logging.INFO, SupportedLog(network))];
        var ok := carrier.SetNetwork(network);
        if ok {
          carrier.SetFrequency(freq % SIZE_LIMIT);
          message := SetUpMessage(network);
        } else {
          message := REMOVE_OLD;
        }
      } else if !CheckSupportedFrequency(config, freq) {
        message := FREQUENCY_OUT_OF_RANGE;
      } else {
        out.events := out.events + [Log(Logging.ERROR, UnsupportedLog(network))];
        message := UnsupportedMessage(network);
      }
    }

    /** `carrier setup <network> <frequency>`. */
    method HandleCarrierSetup(network: string, frequency: string) returns (reply: Reply)
      modifies carrier, out
      ensures var o := SetupOutcome(config, old(carrier.State()), network, frequency);
        carrier.State() == o.state && reply == o.reply && out.events == old(out.events) + o.events
    {
      if network == "" || frequency == "" {
        return Reply(MISSING_SETUP);
      }
      var numFreq := Numbers.Stol(frequency);
      if numFreq.None? {
        return Crash(StolFailed);
      }
      var message := SetNetworkForServer(network, numFreq.value);
      return Reply(message);
    }

    /** The reply to `db get all`: every record line of `getAllKey`, each followed by a newline. */
    method AllRecordsReply() returns (message: string)
      ensures message == ClientGetReply(cli.db.States(), "all")
    {
      message := "";
      var result := cli.GetAllKey();
      var i := 0;
      while i < |result|
        invariant 0 <= i <= |result| && message == Terminated(result[..i])
      {
        assert result[..i + 1][..i] == result[..i];
        message := message + result[i] + "\n";
        i := i + 1;
      }
      assert result[..i] == result;
    }

    /** `handleClientGetDBCommand`. */
    method HandleClientGetDBCommand(key: string) returns (message: string)
      modifies cli
      ensures message == ClientGetReply(cli.db.States(), key)
      ensures cli.console == old(cli.console) + ClientGetConsole(cli.db.States(), key)
    {
      message := "";
      if key == "all" {
        message := AllRecordsReply();
      } else {
        var result := cli.GetKey(key);
        if result.Some? {
          message := message + result.value + "\n";
        }
      }
    }

    /** `saveInputFile`; the wave values it writes to the file are not modelled. */
    method SaveInputFile(env: Env, ghost ss: seq<FileState>, ghost look: Lookups) returns (saved: Saved)
      requires ss == cli.db.States() && LooksUp(ss, env, look)
      modifies out
      ensures saved == look.save
      ensures out.events == old(out.events) + saved.events
    {
      assert look.save == SaveInput(ss, env.opens) by {
        assert look == LookupsOf(ss, env);
      }
      var r := cli.db.GetValue(INPUT_KEY);
      assert r == StoredValue(ss, INPUT_KEY);
      if r.Err? {
        return Saved([], false, true);
      }
      var v := r.value;
      var shown: seq<Event> := if v.VChars? then [] else [ErrOut(BAD_VARIANT_ACCESS + "\n")];
      out.events := out.events + shown;
      var inputFilePath := PathOf(v);
      return Saved(shown, env.opens(inputFilePath), false);
    }

    /** The downlink's plot once the file is open: the wave. */
    method PlotDownlink(env: Env, ghost ss: seq<FileState>, ghost look: Lookups) returns (crashed: bool)
      requires Valid() && ss == cli.db.States() && LooksUp(ss, env, look)
      modifies out
      ensures crashed == look.wave.escaped && out.events == old(out.events) + look.wave.events
    {
      assert look.wave == Visualization(ss, false, env.shell) by {
        assert look == LookupsOf(ss, env);
      }
      crashed := antenna.VisualizeData(false, env.shell);
    }

    /** The downlink after the checks: save the modulated wave and plot it. */
    method ShowDownlink(env: Env, ghost ss: seq<FileState>, ghost look: Lookups) returns (crashed: bool)
      requires Valid() && ss == cli.db.States() && LooksUp(ss, env, look)
      modifies out
      ensures var d := DownlinkShown(look.save, look.wave);
        crashed == d.crashed && out.events == old(out.events) + d.events
    {
      var saved := SaveInputFile(env, ss, look);
      if saved.crashed {
        return true;
      }
      if saved.fileOpen {
        out.events := out.events + [Log(Logging.INFO, OPENED_DOWNLINK)];
        crashed := PlotDownlink(env, ss, look);
        AppendAssoc(old(out.events), saved.events, [Log(Logging.INFO, OPENED_DOWNLINK)]);
        AppendAssoc(old(out.events), saved.events + [Log(Logging.INFO, OPENED_DOWNLINK)], look.wave.events);
      } else {
        out.events := out.events + [Log(Logging.ERROR, OPEN_FAILED)];
        crashed := false;
      }
    }

    /** The downlink past its checks: tune the modulator to the data and the carrier's frequency, modulate, save and plot. */
    method TransmitDownlink(data: string, env: Env, ghost ss: seq<FileState>, ghost look: Lookups) returns (reply: Reply)
      requires Valid() && ss == cli.db.States() && LooksUp(ss, env, look)
      requires Transmits(carrier.State(), data)
      modifies modulator, out
      ensures var o := DownlinkSent(carrier.State(), look);
        reply == o.reply && out.events == old(out.events) + o.events
      ensures TuningOf() == Retuned(old(TuningOf()), modulator.sampleRate, data, carrier.frequency)
    {
      modulator.SetBinaryInput(data);
      if !FrequencyFits(carrier.frequency) {
        return Crash(FrequencyUnusable);
      }
      modulator.SetFrequency(carrier.frequency as real);
      BinaryPairsInRange(data);
      SchemeDispatch(carrier.network);
      var signalModulated := modulator.Modulate(carrier.network, env.noise);
      assert signalModulated.Ok?;
      var crashed := ShowDownlink(env, ss, look);
      return if crashed then Crash(Uncaught) else Reply("");
    }

    /** `DL <data>`. */
    method HandleDownlink(data: string, env: Env, ghost ss: seq<FileState>, ghost look: Lookups) returns (reply: Reply)
      requires Valid() && ss == cli.db.States() && LooksUp(ss, env, look)
      modifies modulator, out
      ensures var o := DownlinkOutcome(carrier.State(), look, data);
        reply == o.reply && out.events == old(out.events) + o.events
      ensures TuningOf() == if Transmits(carrier.State(), data)
        then Retuned(old(TuningOf()), modulator.sampleRate, data, carrier.frequency) else old(TuningOf())
    {
      if !carrier.active {
        return Reply(SETUP_CARRIER);
      }
      if data == "" {
        return Reply(MISSING_BINARY);
      }
      var binary := IsBinaryString(data);
      if !binary {
        return Reply(NOT_BINARY);
      }
      out.events := out.events + [Out(RECEIVED_PREFIX + data + "\n")];
      if carrier.network == "5G" && |data| % 4 != 0 {
        out.events := out.events + [Log(Logging.ERROR, QAM_LENGTH_ERROR)];
        return Reply(QAM_LENGTH_ERROR);
      }
      reply := TransmitDownlink(data, env, ss, look);
      AppendAssoc(old(out.events), [Out(RECEIVED_PREFIX + data + "\n")], DownlinkSent(carrier.State(), look).events);
    }

    /** The uplink's plot once the file is open: the spectrum, then, unless that stopped the server, the bits. */
    method PlotUplink(env: Env, bits: string, ghost ss: seq<FileState>, ghost look: Lookups) returns (crashed: bool)
      requires Valid() && ss == cli.db.States() && LooksUp(ss, env, look)
      modifies out
      ensures crashed == look.spectrum.escaped
      ensures out.events == old(out.events) + look.spectrum.events +
        (if crashed then [] else [Log(Logging.INFO, OPENED_UPLINK), Log(Logging.INFO, bits)])
    {
      assert look.spectrum == Visualization(ss, true, env.shell) by {
        assert look == LookupsOf(ss, env);
      }
      crashed := antenna.VisualizeData(true, env.shell);
      if !crashed {
        out.events := out.events + [Log(Logging.INFO, OPENED_UPLINK), Log(Logging.INFO, bits)];
      }
    }

    /** The uplink after the demodulation: save the wave, plot its spectrum, log the bits. */
    method ShowUplink(env: Env, bits: string, ghost ss: seq<FileState>, ghost look: Lookups) returns (crashed: bool)
      requires Valid() && ss == cli.db.States() && LooksUp(ss, env, look)
      modifies out
      ensures var u := UplinkShown(look.save, look.spectrum, bits);
        crashed == u.crashed && out.events == old(out.events) + u.events
    {
      var saved := SaveInputFile(env, ss, look);
      if saved.crashed {
        return true;
      }
      if saved.fileOpen {
        ghost var shown := look.spectrum.events +
          (if look.spectrum.escaped then [] else [Log(Logging.INFO, OPENED_UPLINK), Log(Logging.INFO, bits)]);
        crashed := PlotUplink(env, bits, ss, look);
        AppendAssoc(old(out.events), saved.events, shown);
        if !crashed {
          AppendAssoc(saved.events, look.spectrum.events, [Log(Logging.INFO, OPENED_UPLINK), Log(Logging.INFO, bits)]);
        }
      } else {
        out.events := out.events + [Log(Logging.ERROR, OPEN_FAILED), Log(Logging.INFO, bits)];
        crashed := false;
      }
    }

    /** The uplink's round trip through the modulator: modulate its input, add noise a second time, demodulate. */
    method Exchange(network: string, env: Env) returns (d: Decoded)
      requires IsBinary(modulator.binaryInput)
      requires SchemeOf(network) == Qam16 ==> |modulator.binaryInput| % 4 == 0
      ensures d == Uplinked(modulator.Settings(), modulator.binaryInput, network, env)
    {
      BinaryPairsInRange(modulator.binaryInput);
      var signalGenerated := modulator.Modulate(network, env.noise);
      assert signalGenerated.Ok?;
      var signal := signalGenerated.value;
      modulator.AddNoise(signal, env.addedNoise);
      UplinkWaveFits(modulator.Settings(), modulator.binaryInput, network, env);
      var bits, invalid := modulator.Demodulate(signal, network);
      d := Decoded(bits, invalid);
    }

    /** The uplink past the carrier check, with the generated bits as the modulator's input. */
    method TransmitUplink(env: Env, ghost ss: seq<FileState>, ghost look: Lookups) returns (reply: Reply)
      requires Valid() && ss == cli.db.States() && LooksUp(ss, env, look)
      requires IsBinary(modulator.binaryInput) && (SchemeOf(carrier.network) == Qam16 ==> |modulator.binaryInput| % 4 == 0)
      modifies modulator, out
      ensures modulator.binaryInput == old(modulator.binaryInput)
      ensures TuningOf() == Retuned(old(TuningOf()), modulator.sampleRate, modulator.binaryInput, carrier.frequency)
      ensures var o := UplinkSent(carrier.State(), look, env, modulator.Settings(), modulator.binaryInput);
        reply == o.reply && out.events == old(out.events) + o.events
    {
      if !FrequencyFits(carrier.frequency) {
        return Crash(FrequencyUnusable);
      }
      modulator.SetFrequency(carrier.frequency as real);
      var d := Exchange(carrier.network, env);
      out.events := out.events + Repeat(Log(Logging.ERROR, INVALID_SYMBOL), d.invalid);
      var crashed := ShowUplink(env, modulator.binaryInput, ss, look);
      AppendAssoc(old(out.events), Repeat(Log(Logging.ERROR, INVALID_SYMBOL), d.invalid),
                  UplinkShown(look.save, look.spectrum, modulator.binaryInput).events);
      return if crashed then Crash(Uncaught) else Reply(d.bits);
    }

    /** `UL`. */
    method HandleUplink(env: Env, ghost ss: seq<FileState>, ghost look: Lookups) returns (reply: Reply)
      requires Valid() && ss == cli.db.States() && LooksUp(ss, env, look)
      modifies modulator, out
      ensures !carrier.active ==> reply == Reply(SETUP_NETWORK) && out.events == old(out.events) && TuningOf() == old(TuningOf())
      ensures carrier.active ==>
        IsBinary(modulator.binaryInput) && |modulator.binaryInput| == UplinkLength(carrier.network) &&
        TuningOf() == Retuned(old(TuningOf()), modulator.sampleRate, modulator.binaryInput, carrier.frequency)
      ensures var o := UplinkOutcome(carrier.State(), look, env, modulator.Settings(), modulator.binaryInput);
        reply == o.reply && out.events == old(out.events) + o.events
    {
      if !carrier.active {
        return Reply(SETUP_NETWORK);
      }
      var bitSize: int := UPLINK_BITS;
      if carrier.network == "5G" {
        bitSize := bitSize * 4;
      }
      var binaryGenerated := antenna.RandomBinaryMessage(bitSize);
      assert |binaryGenerated| == UplinkLength(carrier.network);
      UplinkLengthFits(carrier.network);
      ghost var generated := out.events;
      modulator.SetBinaryInput(binaryGenerated);
      reply := TransmitUplink(env, ss, look);
      AppendAssoc(old(out.events), [Out(GENERATED_PREFIX + binaryGenerated + "\n")],
                  UplinkSent(carrier.State(), look, env, modulator.Settings(), binaryGenerated).events);
    }

    /** `handleClientCommand`, over the database files `ss` whose transmission lookups are `look`. */
    method HandleClientCommand(buffer: string, env: Env, ghost ss: seq<FileState>, ghost look: Lookups) returns (reply: Reply)
      requires Valid() && ss == cli.db.States() && LooksUp(ss, env, look)
      modifies carrier, modulator, out, cli
      ensures Handled(config, ss, look, env, modulator.Settings(), buffer, old(Snap()), Snap(), reply)
    {
      var req := ReadRequest(buffer);
      match req
      case DbGet(key) =>
        var message := HandleClientGetDBCommand(key);
        reply := Reply(message);
        assert ss == cli.db.States();
        assert HandledGet(ss, key, old(Snap()), Snap(), reply);
      case DbOther =>
        reply := Reply(ONLY_GET);
      case CarrierSetup(keyNetwork, frequency) =>
        reply := HandleCarrierSetup(keyNetwork, frequency);
        assert HandledSetup(config, keyNetwork, frequency, old(Snap()), Snap(), reply);
      case CarrierRelease =>
        carrier.ReleaseCarrier();
        reply := Reply(RELEASED);
      case CarrierOther =>
        reply := Reply(INVALID_CARRIER);
      case Downlink(binaryData) =>
        reply := HandleDownlink(binaryData, env, ss, look);
        assert HandledDownlink(look, modulator.Settings(), binaryData, old(Snap()), Snap(), reply);
      case Uplink =>
        reply := HandleUplink(env, ss, look);
        assert HandledUplink(look, env, modulator.Settings(), old(Snap()), Snap(), reply);
      case Echo =>
        reply := Reply(buffer);
    }

    /**
     * `handleClient` for one `recv` result of at most 1024 bytes: the request is the
     * text up to the first NUL; the reply is copied back into the buffer and sent.
     */
    method HandleClient(fd: int, received: Received, env: Env, ghost look: Lookups) returns (served: Served)
      requires Valid() && LooksUp(cli.db.States(), env, look)
      requires received.Data? ==> 0 < |received.bytes| <= BUFFER_SIZE
      modifies carrier, modulator, out, cli
      ensures received.Closed? ==>
        served == NoRequest && Snap() == old(Snap()).(events := old(out.events) + [Log(Logging.INFO, DisconnectedLog(fd))])
      ensures received.RecvError? ==>
        served == NoRequest && Snap() == old(Snap()).(events := old(out.events) + [Log(Logging.ERROR, RECEIVE_ERROR)])
      ensures received.Data? && |received.bytes| == BUFFER_SIZE ==> served == Overflowed && Snap() == old(Snap())
      ensures received.Data? && |received.bytes| < BUFFER_SIZE ==>
        served.Served? && served.request == CString(received.bytes) &&
        served.sent == (if served.reply.Reply? then Transmission(ReceiveBuffer(received.bytes), served.reply.message) else None) &&
        var before := old(Snap()).(events := old(out.events) + [Log(Logging.INFO, RECEIVED_MESSAGE_PREFIX + served.request)]);
        var ss := old(cli.db.States());
        if served.sent.Some? then
          |out.events| > 0 && out.events[|out.events| - 1] == Sent(served.sent.value) &&
          Handled(config, ss, look, env, modulator.Settings(), served.request, before,
                  Snap().(events := out.events[..|out.events| - 1]), served.reply)
        else Handled(config, ss, look, env, modulator.Settings(), served.request, before, Snap(), served.reply)
    {
      ghost var ss := cli.db.States();
      match received
      case Closed =>
        out.events := out.events + [Log(Logging.INFO, DisconnectedLog(fd))];
        return NoRequest;
      case RecvError =>
        out.events := out.events + [Log(Logging.ERROR, RECEIVE_ERROR)];
        return NoRequest;
      case Data(bytes) =>
        if |bytes| == BUFFER_SIZE {
          return Overflowed;
        }
        var buffer := ReceiveBuffer(bytes);
        var request := CString(bytes);
        assert CString(buffer) == request by {
          CStringOfTerminated(bytes);
        }
        out.events := out.events + [Log(Logging.INFO, RECEIVED_MESSAGE_PREFIX + request)];
        var reply := HandleClientCommand(request, env, ss, look);
        if reply.Crash? {
          return Served(request, reply, None);
        }
        var sent := Transmission(buffer, reply.message);
        if sent.Some? {
          ghost var handled := out.events;
          out.events := out.events + [Sent(sent.value)];
          assert out.events[..|out.events| - 1] == handled;
        }
        return Served(request, reply, sent);
    }
  }

  /** The text read from the buffer is the received text up to its first NUL. */
  lemma CStringOfTerminated(bytes: string)
    requires |bytes| < BUFFER_SIZE
    ensures CString(ReceiveBuffer(bytes)) == CString(bytes)
  {
    var zeros := seq(BUFFER_SIZE - |bytes| - 1, _ => '\0');
    CStringBeforeNul(bytes, zeros);
    CStringBeforeNul(bytes, []);
    assert bytes + ['\0'] + [] == bytes + ['\0'];
    CStringAtNul(bytes);
  }

  /** Whatever follows a NUL does not reach the string. */
  lemma {:induction false} CStringBeforeNul(a: string, b: string)
    decreases |a|
    ensures CString(a + ['\0'] + b) == CString(a + ['\0'])
  {
    if a != [] && a[0] != '\0' {
      assert (a + ['\0'] + b)[1..] == a[1..] + ['\0'] + b;
      assert (a + ['\0'])[1..] == a[1..] + ['\0'];
      CStringBeforeNul(a[1..], b);
    }
  }

  /** A terminator added at the end changes nothing. */
  lemma {:induction false} CStringAtNul(a: string)
    decreases |a|
    ensures CString(a + ['\0']) == CString(a)
  {
    if a != [] && a[0] != '\0' {
      assert (a + ['\0'])[1..] == a[1..] + ['\0'];
      CStringAtNul(a[1..]);
    }
  }
}
