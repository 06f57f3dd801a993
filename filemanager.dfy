/**
 * One database file. Its text is a list of lines, each either blank or a record
 * `key type "value"`. Loading rebuilds the record map and the key order (with ""
 * standing for a blank line); saving prints the key order back; `saveLine` patches
 * just one line of the file; `modify` changes a record in memory only.
 */
module Files {
  import opened Common
  import Streams
  import DbErrors
  import opened DataValues

  /** The three groups of a record line. */
  datatype RecordLine = RecordLine(key: string, valueType: string, value: string)

  /**
   * `regex_search(line, ^(/\S+) (\S+) "(.+)"$)`. `\S` cannot match the separating
   * space, so the key and the type are the maximal non-space runs; `.` excludes
   * '\n' and '\r', and the last character must be the closing quote.
   */
  function ParseRecordLine(line: string): (r: Option<RecordLine>)
    ensures r.Some? ==> WellFormed(r.value)
  {
    var f := FieldEnds(line);
    if f.None? then None
    else
      var u := Unquote(line[f.value.1 + 1..]);
      if u.None? then None
      else Some(RecordLine(line[..f.value.0], line[f.value.0 + 1..f.value.1], u.value))
  }

  /** Where the key and the type end, when both are followed by one space. */
  function FieldEnds(line: string): (r: Option<(nat, nat)>)
    ensures r.Some? ==> 2 <= r.value.0 < r.value.1 < |line| && line[r.value.0] == ' ' && line[r.value.1] == ' '
    ensures r.Some? ==> ValidKey(line[..r.value.0]) && |line[r.value.0 + 1..r.value.1]| > 0 && NoSpace(line[r.value.0 + 1..r.value.1])
  {
    var e1 := Streams.TokenEnd(line, 0);
    if e1 < 2 || line[0] != '/' || e1 == |line| || line[e1] != ' ' then None
    else
      var e2 := Streams.TokenEnd(line, e1 + 1);
      if e2 == e1 + 1 || e2 == |line| || line[e2] != ' ' then None
      else Some((e1, e2))
  }

  /** `"(.+)"$`: a quoted, non-empty value up to the end of the line. */
  function Unquote(rest: string): (v: Option<string>)
    ensures v.Some? ==> rest == "\"" + v.value + "\"" && |v.value| > 0 && NoLineTerminator(v.value)
  {
    if |rest| < 3 || rest[0] != '"' || rest[|rest| - 1] != '"' then None
    else if !NoLineTerminator(rest[1..|rest| - 1]) then None
    else Some(rest[1..|rest| - 1])
  }

  /** A key the line pattern can read: '/' and at least one more non-space character. */
  predicate ValidKey(k: string)
  {
    |k| >= 2 && k[0] == '/' && NoSpace(k)
  }

  predicate WellFormed(r: RecordLine)
  {
    ValidKey(r.key) && |r.valueType| > 0 && NoSpace(r.valueType) &&
    |r.value| > 0 && NoLineTerminator(r.value)
  }

  /** The line `saveMemoryToFile` and `saveLine` write for a record. */
  function FormatRecordLine(key: string, d: DataValue): string
  {
    key + " " + d.GetTypeToSave() + " " + d.GetValueToSave()
  }

  /** Printing a well-formed record and parsing the line gives the record back. */
  lemma ParseOfFormat(r: RecordLine)
    requires WellFormed(r)
    ensures ParseRecordLine(FormatRecordLine(r.key, DataValue(r.valueType, r.value))) == Some(r)
  {
    var q := "\"" + r.value + "\"";
    var line := r.key + " " + r.valueType + " " + q;
    assert FormatRecordLine(r.key, DataValue(r.valueType, r.value)) == line;
    FieldEndsOfFormat(r.key, r.valueType, q);
    UnquoteOfQuoted(r.value);
  }

  lemma UnquoteOfQuoted(v: string)
    requires |v| > 0 && NoLineTerminator(v)
    ensures Unquote("\"" + v + "\"") == Some(v)
  {
    var q := "\"" + v + "\"";
    assert q[1..|q| - 1] == v;
  }

  lemma FieldEndsOfFormat(k: string, t: string, q: string)
    requires ValidKey(k) && |t| > 0 && NoSpace(t)
    ensures var line := k + " " + t + " " + q;
      var e1 := |k|;
      var e2 := |k| + 1 + |t|;
      FieldEnds(line) == Some((e1, e2)) &&
      line[..e1] == k && line[e1 + 1..e2] == t && line[e2 + 1..] == q
  {
    var line := k + " " + t + " " + q;
    TokenEndsOfFormat(k, t, q);
    SlicesOfFormat(k, t, q);
    assert line[0] == k[0];
  }

  lemma TokenEndsOfFormat(k: string, t: string, q: string)
    requires |k| > 0 && NoSpace(k) && |t| > 0 && NoSpace(t)
    ensures var line := k + " " + t + " " + q;
      Streams.TokenEnd(line, 0) == |k| && Streams.TokenEnd(line, |k| + 1) == |k| + 1 + |t|
  {
    KeyEndOfFormat(k, t, q);
    TypeEndOfFormat(k, t, q);
  }

  lemma KeyEndOfFormat(k: string, t: string, q: string)
    requires NoSpace(k)
    ensures Streams.TokenEnd(k + " " + t + " " + q, 0) == |k|
  {
    var line := k + " " + t + " " + q;
    assert line[0..|k|] == k;
    assert IsSpace(line[|k|]);
    Streams.TokenEndAt(line, 0, |k|);
  }

  lemma TypeEndOfFormat(k: string, t: string, q: string)
    requires NoSpace(t)
    ensures Streams.TokenEnd(k + " " + t + " " + q, |k| + 1) == |k| + 1 + |t|
  {
    var line := k + " " + t + " " + q;
    assert line[|k| + 1..|k| + 1 + |t|] == t;
    assert IsSpace(line[|k| + 1 + |t|]);
    Streams.TokenEndAt(line, |k| + 1, |k| + 1 + |t|);
  }

  lemma SlicesOfFormat(k: string, t: string, q: string)
    ensures var line := k + " " + t + " " + q;
      line[|k|] == ' ' && line[|k| + 1 + |t|] == ' ' &&
      line[0..|k|] == k && line[..|k|] == k && line[|k| + 1..|k| + 1 + |t|] == t && line[|k| + 1 + |t| + 1..] == q
  {
  }

  /** Every line the parser accepts is exactly the printed form of what it read. */
  lemma FormatOfParse(line: string)
    requires ParseRecordLine(line).Some?
    ensures var r := ParseRecordLine(line).value;
      FormatRecordLine(r.key, DataValue(r.valueType, r.value)) == line
  {
    var (e1, e2) := FieldEnds(line).value;
    var rest := line[e2 + 1..];
    assert line == line[..e1] + " " + line[e1 + 1..e2] + " " + rest;
  }

  /** `m_items[key]`: a missing key reads as a default-constructed value. */
  function Lookup(items: map<string, DataValue>, k: string): DataValue
  {
    if k in items then items[k] else DataValue("", "")
  }

  /** The state `loadFileToMemory` has built, and the exception that stopped it. */
  datatype LoadState = LoadState(order: seq<string>, items: map<string, DataValue>, err: Option<DbErrors.ExceptionType>)

  /** Every key of the map is listed, and every listed non-blank key is in the map. */
  predicate KeysAgree(order: seq<string>, items: map<string, DataValue>)
  {
    (forall k :: k in items ==> k != "" && k in order) &&
    (forall j :: 0 <= j < |order| && order[j] != "" ==> order[j] in items)
  }

  /** The kinds of error a load can stop on. */
  predicate IsLoadError(e: DbErrors.ExceptionType)
  {
    e == DbErrors.INVALID_TYPE || e == DbErrors.INVALID_TYPE_VALUE || e == DbErrors.BAD_FORMATTING_LINE
  }

  /** What the load loop keeps: the map and the key order agree, and every record is valid. */
  predicate LoadInvariant(s: LoadState)
  {
    KeysAgree(s.order, s.items) &&
    (forall k :: k in s.items ==> ValidKey(k) && ValidateType(s.items[k].valueType)) &&
    (s.err.Some? ==> IsLoadError(s.err.value))
  }

  /** One iteration of the load loop: it keeps the invariant, and a line it accepts adds one entry to the order. */
  function LoadStep(s: LoadState, line: string, floatText: FloatFormatter): (r: LoadState)
    ensures LoadInvariant(s) ==> LoadInvariant(r)
    ensures s.err.Some? ==> r == s
    ensures s.err.None? && r.err.None? ==> |r.order| == |s.order| + 1
  {
    if s.err.Some? then s
    else match ParseRecordLine(line)
      case Some(r) =>
        if !ValidateType(r.valueType) then s.(err := Some(DbErrors.INVALID_TYPE))
        else (match ValidateAndFormat(r.valueType, r.value, floatText)
          case None => s.(err := Some(DbErrors.INVALID_TYPE_VALUE))
          case Some(f) => LoadState(s.order + [r.key], s.items[r.key := DataValue(r.valueType, f)], None))
      case None =>
        if line == "" || line == "\n" then s.(order := s.order + [""])
        else s.(err := Some(DbErrors.BAD_FORMATTING_LINE))
  }

  /**
   * The load loop over a list of lines, starting from the cleared state. Whatever
   * stopped it, the map and the key order agree, and every stored record is valid.
   */
  function LoadLines(lines: seq<string>, floatText: FloatFormatter): (s: LoadState)
    ensures LoadInvariant(s)
    ensures s.err.None? ==> |s.order| == |lines|
  {
    if lines == [] then LoadState([], map[], None)
    else LoadStep(LoadLines(lines[..|lines| - 1], floatText), lines[|lines| - 1], floatText)
  }

  /** Once a line has failed, the later lines change nothing. */
  lemma {:induction false} LoadStopsAtError(lines: seq<string>, i: nat, floatText: FloatFormatter)
    requires i <= |lines|
    requires LoadLines(lines[..i], floatText).err.Some?
    decreases |lines| - i
    ensures LoadLines(lines, floatText) == LoadLines(lines[..i], floatText)
  {
    if i < |lines| {
      assert lines[..i + 1][..i] == lines[..i];
      LoadStopsAtError(lines, i + 1, floatText);
    } else {
      assert lines[..i] == lines;
    }
  }

  lemma LoadOneLine(floatText: FloatFormatter)
    ensures LoadLines(["/k char \"a\""], floatText) == LoadState(["/k"], map["/k" := DataValue("char", "a")], None)
  {
    var a := RecordLine("/k", "char", "a");
    ParseOfFormat(a);
    var la := FormatRecordLine(a.key, DataValue(a.valueType, a.value));
    assert la == "/k char \"a\"";
    assert [la][..0] == [];
    assert ValidateType("char");
    assert ValidateAndFormat("char", "a", floatText) == Some("a");
    var s0 := LoadLines([], floatText);
    assert s0 == LoadState([], map[], None);
    assert LoadLines([la], floatText) == LoadStep(s0, la, floatText);
    assert [] + ["/k"] == ["/k"];
  }

  /** A key that appears on two lines keeps the later value and is listed twice. */
  lemma DuplicateKeyLastWins(floatText: FloatFormatter)
    ensures var s := LoadLines(["/k char \"a\"", "/k char \"b\""], floatText);
      s.err.None? && s.order == ["/k", "/k"] && s.items == map["/k" := DataValue("char", "b")]
  {
    var ls := ["/k char \"a\"", "/k char \"b\""];
    assert ls[..1] == ["/k char \"a\""];
    LoadOneLine(floatText);
    ReloadSameKey(floatText);
  }

  lemma ReloadSameKey(floatText: FloatFormatter)
    ensures LoadStep(LoadState(["/k"], map["/k" := DataValue("char", "a")], None), "/k char \"b\"", floatText) ==
      LoadState(["/k", "/k"], map["/k" := DataValue("char", "b")], None)
  {
    var b := RecordLine("/k", "char", "b");
    ParseOfFormat(b);
    assert FormatRecordLine(b.key, DataValue(b.valueType, b.value)) == "/k char \"b\"";
    assert ValidateType("char");
    assert ValidateAndFormat("char", "b", floatText) == Some("b");
    assert ["/k"] + ["/k"] == ["/k", "/k"];
    assert map["/k" := DataValue("char", "a")]["/k" := DataValue("char", "b")] == map["/k" := DataValue("char", "b")];
  }

  /** `saveMemoryToFile`'s output: one line per key-order entry, blank for "". */
  function Serialize(order: seq<string>, items: map<string, DataValue>): (lines: seq<string>)
    ensures |lines| == |order|
  {
    if order == [] then []
    else
      var k := order[|order| - 1];
      Serialize(order[..|order| - 1], items) + [if k == "" then "" else FormatRecordLine(k, Lookup(items, k))]
  }

  lemma {:induction false} SerializeAt(order: seq<string>, items: map<string, DataValue>, j: nat)
    requires j < |order|
    ensures Serialize(order, items)[j] == if order[j] == "" then "" else FormatRecordLine(order[j], Lookup(items, order[j]))
  {
    if j < |order| - 1 {
      SerializeAt(order[..|order| - 1], items, j);
    }
  }

  /** A record that survives a save and a reload unchanged. */
  predicate Stored(k: string, d: DataValue, floatText: FloatFormatter)
  {
    WellFormed(RecordLine(k, d.valueType, d.value)) && ValidateType(d.valueType) &&
    ValidateAndFormat(d.valueType, d.value, floatText) == Some(d.value)
  }

  function Restrict(items: map<string, DataValue>, order: seq<string>): map<string, DataValue>
  {
    map k | k in items && k in order :: items[k]
  }

  /**
   * Loading what `saveMemoryToFile` wrote reproduces the key order and the map,
   * provided every record is one that a load could have produced.
   */
  lemma LoadOfSerialize(order: seq<string>, items: map<string, DataValue>, floatText: FloatFormatter)
    requires KeysAgree(order, items)
    requires forall k :: k in items ==> Stored(k, items[k], floatText)
    ensures LoadLines(Serialize(order, items), floatText) == LoadState(order, items, None)
  {
    LoadOfSerializeRestricted(order, items, floatText);
    assert Restrict(items, order) == items;
  }

  /** The same round trip, for the records of the listed keys only. */
  lemma {:induction false} LoadOfSerializeRestricted(order: seq<string>, items: map<string, DataValue>, floatText: FloatFormatter)
    requires "" !in items && forall j :: 0 <= j < |order| ==> order[j] == "" || order[j] in items
    requires forall k :: k in items ==> Stored(k, items[k], floatText)
    ensures LoadLines(Serialize(order, items), floatText) == LoadState(order, Restrict(items, order), None)
  {
    if order == [] {
      assert Restrict(items, order) == map[];
    } else {
      LoadOfSerializeRestricted(order[..|order| - 1], items, floatText);
      LoadOfSerializeStep(order, items, floatText);
    }
  }

  /** Saving one more key and reading its line back extends the rebuilt state by that key. */
  lemma LoadOfSerializeStep(order: seq<string>, items: map<string, DataValue>, floatText: FloatFormatter)
    requires order != []
    requires order[|order| - 1] == "" || order[|order| - 1] in items
    requires "" !in items
    requires forall k :: k in items ==> Stored(k, items[k], floatText)
    requires var pre := order[..|order| - 1];
      LoadLines(Serialize(pre, items), floatText) == LoadState(pre, Restrict(items, pre), None)
    ensures LoadLines(Serialize(order, items), floatText) == LoadState(order, Restrict(items, order), None)
  {
    var pre := order[..|order| - 1];
    var k := order[|order| - 1];
    var line := if k == "" then "" else FormatRecordLine(k, Lookup(items, k));
    var lines := Serialize(order, items);
    assert lines == Serialize(pre, items) + [line];
    assert lines[..|lines| - 1] == Serialize(pre, items);
    LoadStepRestores(pre, k, items, floatText);
    SplitLast(order);
  }

  /** Reading back the line saved for one more key extends the rebuilt state by that key. */
  lemma LoadStepRestores(pre: seq<string>, k: string, items: map<string, DataValue>, floatText: FloatFormatter)
    requires k == "" || k in items
    requires "" !in items
    requires forall k :: k in items ==> Stored(k, items[k], floatText)
    ensures var line := if k == "" then "" else FormatRecordLine(k, Lookup(items, k));
      LoadStep(LoadState(pre, Restrict(items, pre), None), line, floatText) ==
      LoadState(pre + [k], Restrict(items, pre + [k]), None)
  {
    if k == "" {
      assert Restrict(items, pre + [k]) == Restrict(items, pre);
    } else {
      var d := items[k];
      ParseOfFormat(RecordLine(k, d.valueType, d.value));
      assert Restrict(items, pre + [k]) == Restrict(items, pre)[k := d];
    }
  }

  /** The position `saveLine` rewrites: the first entry of the key order equal to the key. */
  function FirstIndex(order: seq<string>, key: string): (i: nat)
    requires key in order
    ensures i < |order| && order[i] == key
    ensures forall j :: 0 <= j < i ==> order[j] != key
  {
    if order[0] == key then 0 else 1 + FirstIndex(order[1..], key)
  }

  /** What `getByKey` and `getAll` print for a record: key, type and value. */
  function RecordText(k: string, d: DataValue): (r: string)
    ensures r == k + " " + d.valueType + " " + d.value
  {
    k + " " + d.GetDataValue()
  }

  /** The non-blank entries of the key order, in order. */
  function NonBlank(order: seq<string>): (ks: seq<string>)
    ensures |ks| <= |order|
    ensures forall x :: x in ks <==> x in order && x != ""
  {
    if order == [] then []
    else
      var rest := NonBlank(order[..|order| - 1]);
      var k := order[|order| - 1];
      assert forall j :: 0 <= j < |order| - 1 ==> order[..|order| - 1][j] == order[j];
      if k == "" then rest else rest + [k]
  }

  /** What `getAll` returns for one file: the text of each listed record, in key order. */
  function AllRecords(order: seq<string>, items: map<string, DataValue>): (r: seq<string>)
    ensures |r| == |NonBlank(order)|
    ensures forall j :: 0 <= j < |r| ==> r[j] == RecordText(NonBlank(order)[j], Lookup(items, NonBlank(order)[j]))
  {
    var ks := NonBlank(order);
    seq(|ks|, j requires 0 <= j < |ks| => RecordText(ks[j], Lookup(items, ks[j])))
  }

  /**
   * Patching one line of a saved file agrees with saving the whole file again, when
   * the patched key occurs once in the key order.
   */
  lemma {:induction false} SaveLineMatchesSave(order: seq<string>, items: map<string, DataValue>, key: string, d: DataValue)
    requires key in order && key != ""
    requires forall j :: 0 <= j < |order| && order[j] == key ==> j == FirstIndex(order, key)
    ensures Serialize(order, items)[FirstIndex(order, key) := FormatRecordLine(key, d)] == Serialize(order, items[key := d])
  {
    var i := FirstIndex(order, key);
    var a := Serialize(order, items)[i := FormatRecordLine(key, d)];
    var b := Serialize(order, items[key := d]);
    forall j | 0 <= j < |order| ensures a[j] == b[j] {
      SerializeAt(order, items, j);
      SerializeAt(order, items[key := d], j);
    }
  }

  /** A database file: its key order, its records and the lines on disk. */
  const READ_FAILED: string := "Error opening file for reading!\n"
  const LINE_OUT_OF_RANGE: string := "Line number out of range!\n"
  const WRITE_FAILED: string := "Error opening file for writing!\n"

  /**
   * What `saveLine` writes to `std::cerr` for a key at position `pos` of a file of
   * `lineCount` lines: the first of the three checks that fails, or nothing when the
   * line is written.
   */
  function SaveLineError(readable: bool, writable: bool, pos: nat, lineCount: nat): (r: Option<string>)
    ensures r.None? <==> readable && pos < lineCount && writable
    ensures !readable ==> r == Some(READ_FAILED)
    ensures readable && pos >= lineCount ==> r == Some(LINE_OUT_OF_RANGE)
    ensures readable && pos < lineCount && !writable ==> r == Some(WRITE_FAILED)
  {
    if !readable then Some(READ_FAILED)
    else if pos >= lineCount then Some(LINE_OUT_OF_RANGE)
    else if !writable then Some(WRITE_FAILED)
    else None
  }

  class FileManager {
    const filePath: string
    /** Whether the file at `filePath` can be opened for reading, and for writing. */
    const readable: bool
    const writable: bool
    const floatText: FloatFormatter
    var keysOrder: seq<string>
    var items: map<string, DataValue>
    var fileLines: seq<string>

    predicate Valid()
      reads this
    {
      KeysAgree(keysOrder, items)
    }

    /** `FileManager(path)`: nothing loaded yet. */
    constructor (path: string, lines: seq<string>, canRead: bool, canWrite: bool, fmt: FloatFormatter)
      ensures Valid()
      ensures filePath == path && fileLines == lines && readable == canRead && writable == canWrite && floatText == fmt
      ensures keysOrder == [] && items == map[]
    {
      filePath := path;
      fileLines := lines;
      readable := canRead;
      writable := canWrite;
      floatText := fmt;
      keysOrder := [];
      items := map[];
    }

    /**
     * `loadFileToMemory`: CAN_NOT_OPEN_FILE_IN leaves everything as it was; otherwise
     * the state is what the load loop builds from the cleared state, including the
     * partial state when a line raises an exception.
     */
    method LoadFileToMemory() returns (err: Option<DbErrors.ExceptionType>)
      requires Valid()
      modifies this`keysOrder, this`items
      ensures Valid()
      ensures !readable ==>
        err == Some(DbErrors.CAN_NOT_OPEN_FILE_IN) && keysOrder == old(keysOrder) && items == old(items)
      ensures readable ==> LoadState(keysOrder, items, err) == LoadLines(fileLines, floatText)
    {
      if !readable {
        err := Some(DbErrors.CAN_NOT_OPEN_FILE_IN);
        return;
      }
      items := map[];
      keysOrder := [];
      var i := 0;
      while i < |fileLines|
        invariant 0 <= i <= |fileLines|
        invariant LoadLines(fileLines[..i], floatText) == LoadState(keysOrder, items, None)
      {
        var line := fileLines[i];
        assert fileLines[..i + 1][..i] == fileLines[..i];
        assert fileLines[..i + 1][i] == line;
        var parsed := ParseRecordLine(line);
        if parsed.Some? {
          var r := parsed.value;
          if !ValidateType(r.valueType) {
            err := Some(DbErrors.INVALID_TYPE);
            LoadStopsAtError(fileLines, i + 1, floatText);
            return;
          }
          var f := ValidateAndFormat(r.valueType, r.value, floatText);
          if f.None? {
            err := Some(DbErrors.INVALID_TYPE_VALUE);
            LoadStopsAtError(fileLines, i + 1, floatText);
            return;
          }
          items := items[r.key := DataValue(r.valueType, f.value)];
          keysOrder := keysOrder + [r.key];
        } else if line == "" || line == "\n" {
          keysOrder := keysOrder + [""];
        } else {
          err := Some(DbErrors.BAD_FORMATTING_LINE);
          LoadStopsAtError(fileLines, i + 1, floatText);
          return;
        }
        i := i + 1;
      }
      assert fileLines[..i] == fileLines;
      err := None;
    }

    /**
     * `saveMemoryToFile`: CAN_NOT_OPEN_FILE_OUT writes nothing; otherwise the file
     * becomes one line per key-order entry.
     */
    method SaveMemoryToFile() returns (err: Option<DbErrors.ExceptionType>)
      modifies this`fileLines
      ensures !writable ==> err == Some(DbErrors.CAN_NOT_OPEN_FILE_OUT) && fileLines == old(fileLines)
      ensures writable ==> err == None && fileLines == Serialize(keysOrder, items)
    {
      if !writable {
        return Some(DbErrors.CAN_NOT_OPEN_FILE_OUT);
      }
      var lines: seq<string> := [];
      var i := 0;
      while i < |keysOrder|
        invariant 0 <= i <= |keysOrder|
        invariant lines == Serialize(keysOrder[..i], items)
      {
        var key := keysOrder[i];
        assert keysOrder[..i + 1][..i] == keysOrder[..i];
        if key == "" {
          lines := lines + [""];
        } else {
          lines := lines + [FormatRecordLine(key, Lookup(items, key))];
        }
        i := i + 1;
      }
      assert keysOrder[..i] == keysOrder;
      fileLines := lines;
      return None;
    }

    /**
     * `saveLine`: rewrites, in the file on disk, only the line at the key's first
     * position in the key order. Nothing is written, and the reason goes to
     * `std::cerr`, when the file cannot be read, when it has fewer lines than that
     * position, or when it cannot be written. The key must be listed: the source
     * reads an uninitialised index otherwise.
     */
    method SaveLine(key: string) returns (error: Option<string>)
      requires key in keysOrder
      modifies this`fileLines
      ensures error == SaveLineError(readable, writable, FirstIndex(keysOrder, key), |old(fileLines)|)
      ensures var i := FirstIndex(keysOrder, key);
        if error.None?
        then fileLines == old(fileLines)[i := FormatRecordLine(key, Lookup(items, key))]
        else fileLines == old(fileLines)
      ensures |fileLines| == |old(fileLines)|
      ensures forall j :: 0 <= j < |fileLines| && j != FirstIndex(keysOrder, key) ==> fileLines[j] == old(fileLines)[j]
    {
      var index := 0;
      while keysOrder[index] != key
        invariant 0 <= index <= FirstIndex(keysOrder, key)
        decreases FirstIndex(keysOrder, key) - index
      {
        index := index + 1;
      }
      var lineToSave := FormatRecordLine(key, Lookup(items, key));
      if !readable {
        return Some(READ_FAILED);
      }
      var lines := fileLines;
      if index >= |lines| {
        return Some(LINE_OUT_OF_RANGE);
      }
      lines := lines[index := lineToSave];
      if !writable {
        return Some(WRITE_FAILED);
      }
      fileLines := lines;
      return None;
    }

    /** `getByKey`: "" for an absent key, otherwise "key type value". */
    function GetByKey(key: string): (r: string)
      reads this
      ensures key !in items ==> r == ""
      ensures key in items ==> r == RecordText(key, items[key])
      ensures key in items ==> r != "" && IsPrefix(key + " ", r)
    {
      if key !in items then "" else RecordText(key, items[key])
    }

    /** `getValueByKey`: KEY_NOT_FOUND for an absent key, otherwise the record's `getValue`. */
    function GetValueByKey(key: string): (r: Result<Variant, Thrown>)
      reads this
      ensures key !in items ==> r == Err(Db(DbErrors.KEY_NOT_FOUND))
      ensures key in items ==> r == GetValue(items[key])
    {
      if key !in items then Err(Db(DbErrors.KEY_NOT_FOUND)) else GetValue(items[key])
    }

    /**
     * `modify`: checks that the key exists, then the type, then the value, and raises
     * the first failure with nothing changed; otherwise it replaces the record with
     * the formatted value, which it also hands back, and keeps the key order.
     */
    method Modify(key: string, valueType: string, value: string) returns (r: Result<string, DbErrors.ExceptionType>)
      requires Valid()
      modifies this`items
      ensures Valid()
      ensures key !in old(items) ==> r == Err(DbErrors.KEY_NOT_FOUND)
      ensures key in old(items) && !ValidateType(valueType) ==> r == Err(DbErrors.INVALID_TYPE)
      ensures key in old(items) && ValidateType(valueType) && ValidateAndFormat(valueType, value, floatText).None? ==>
        r == Err(DbErrors.INVALID_TYPE_VALUE)
      ensures key in old(items) && ValidateType(valueType) && ValidateAndFormat(valueType, value, floatText).Some? ==>
        r == Ok(ValidateAndFormat(valueType, value, floatText).value)
      ensures r.Err? ==> items == old(items)
      ensures r.Ok? ==>
        key in old(items) && ValidateAndFormat(valueType, value, floatText) == Some(r.value) &&
        items == old(items)[key := DataValue(valueType, r.value)]
    {
      if key !in items {
        return Err(DbErrors.KEY_NOT_FOUND);
      }
      if !ValidateType(valueType) {
        return Err(DbErrors.INVALID_TYPE);
      }
      var formatted := ValidateAndFormat(valueType, value, floatText);
      if formatted.None? {
        return Err(DbErrors.INVALID_TYPE_VALUE);
      }
      items := items[key := DataValue(valueType, formatted.value)];
      return Ok(formatted.value);
    }

    /** `getAll`: the text of every record, in key order, skipping blank placeholders. */
    method GetAll() returns (result: seq<string>)
      ensures result == AllRecords(keysOrder, items)
    {
      result := [];
      var i := 0;
      while i < |keysOrder|
        invariant 0 <= i <= |keysOrder|
        invariant |result| == |NonBlank(keysOrder[..i])|
        invariant forall j :: 0 <= j < |result| ==>
          result[j] == RecordText(NonBlank(keysOrder[..i])[j], Lookup(items, NonBlank(keysOrder[..i])[j]))
      {
        var key := keysOrder[i];
        assert keysOrder[..i + 1][..i] == keysOrder[..i];
        if key != "" {
          result := result + [RecordText(key, Lookup(items, key))];
        }
        i := i + 1;
      }
      assert keysOrder[..i] == keysOrder;
    }
  }
}
