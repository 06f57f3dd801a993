/**
 * The in-memory database: one `FileManager` per regular file of the database
 * directory, consulted in directory order. Lookups answer from the first file that
 * holds the key; a modification goes to the first file that holds the key and can be
 * forced through to disk at once; `getAll` concatenates the records of every file.
 */
module Database {
  import opened Common
  import opened DbErrors
  import opened DataValues
  import opened Files

  /** Which alternative of `std::variant<int, unsigned long, float, char const*>` a value is. */
  function Alternative(v: Variant): nat
  {
    match v
    case VInt(_) => 0
    case VULong(_) => 1
    case VFloat(_) => 2
    case VChars(_) => 3
  }

  /**
   * `extractValue<T>(var, store)`: `store` is the caller's variable of type T, shown as
   * a value of that alternative. When the variant holds a T the store receives it;
   * otherwise `std::get` throws, the error is printed and the store keeps its value.
   */
  function ExtractValue(v: Variant, store: Variant): (r: Variant)
    ensures Alternative(r) == Alternative(store)
    ensures Alternative(v) == Alternative(store) ==> r == v
    ensures Alternative(v) != Alternative(store) ==> r == store
  {
    if Alternative(v) == Alternative(store) then v else store
  }

  /** A stored `s32` that converts comes out whole through an `int` store and not at all through another. */
  lemma ExtractOfSigned(d: DataValue, store: Variant)
    requires d.valueType == "s32" && GetValue(d).Ok?
    ensures store.VInt? ==> ExtractValue(GetValue(d).value, store) == VInt(Numbers.Stoi(d.value).value)
    ensures !store.VInt? ==> ExtractValue(GetValue(d).value, store) == store
  {
  }

  /** Extracting again from the same variant changes nothing more. */
  lemma ExtractIdempotent(v: Variant, store: Variant)
    ensures ExtractValue(v, ExtractValue(v, store)) == ExtractValue(v, store)
  {
  }

  /** What a manager holds that its operations change: key order, records, and the file's lines. */
  datatype FileState = FileState(keysOrder: seq<string>, items: map<string, DataValue>, fileLines: seq<string>)

  /** The first state at or after `from` whose records hold `key`. */
  function FirstHolderFrom(ss: seq<FileState>, key: string, from: nat): (r: Option<nat>)
    requires from <= |ss|
    decreases |ss| - from
    ensures r.Some? ==> from <= r.value < |ss| && key in ss[r.value].items
    ensures r.Some? ==> forall k :: from <= k < r.value ==> key !in ss[k].items
    ensures r.None? <==> forall k :: from <= k < |ss| ==> key !in ss[k].items
  {
    if from == |ss| then None
    else if key in ss[from].items then Some(from)
    else FirstHolderFrom(ss, key, from + 1)
  }

  function FirstHolder(ss: seq<FileState>, key: string): Option<nat>
  {
    FirstHolderFrom(ss, key, 0)
  }

  /** What `get` answers over the files in `ss`. */
  function GetIn(ss: seq<FileState>, key: string): (r: Result<string, ExceptionType>)
    ensures key == "" ==> r == Err(NO_KEY_PROVIDED)
    ensures key != "" && FirstHolder(ss, key).None? ==> r == Err(KEY_NOT_FOUND)
    ensures key != "" && FirstHolder(ss, key).Some? ==>
      r == Ok(RecordText(key, ss[FirstHolder(ss, key).value].items[key]))
    ensures r.Ok? <==> key != "" && exists k :: 0 <= k < |ss| && key in ss[k].items
  {
    if key == "" then Err(NO_KEY_PROVIDED)
    else
      var h := FirstHolder(ss, key);
      if h.None? then Err(KEY_NOT_FOUND) else Ok(RecordText(key, ss[h.value].items[key]))
  }

  /** The file lines after `saveLine(key)` on a manager with record state `s`. */
  function SavedLine(s: FileState, readable: bool, writable: bool, key: string): (lines: seq<string>)
    requires key in s.keysOrder
    ensures |lines| == |s.fileLines|
    ensures forall j :: 0 <= j < |lines| && j != FirstIndex(s.keysOrder, key) ==> lines[j] == s.fileLines[j]
  {
    var pos := FirstIndex(s.keysOrder, key);
    if readable && pos < |s.fileLines| && writable
    then s.fileLines[pos := FormatRecordLine(key, Lookup(s.items, key))]
    else s.fileLines
  }

  /**
   * After the first holder takes a new record, `get` answers with that record, and
   * every other key answers as before.
   */
  lemma GetAfterModify(ss: seq<FileState>, key: string, other: string, d: DataValue, lines: seq<string>)
    requires FirstHolder(ss, key).Some?
    ensures var h := FirstHolder(ss, key).value;
      var ss' := ss[h := FileState(ss[h].keysOrder, ss[h].items[key := d], lines)];
      GetIn(ss', key) == (if key == "" then Err(NO_KEY_PROVIDED) else Ok(RecordText(key, d))) &&
      (other != key ==> GetIn(ss', other) == GetIn(ss, other))
  {
    var h := FirstHolder(ss, key).value;
    var ss' := ss[h := FileState(ss[h].keysOrder, ss[h].items[key := d], lines)];
    FirstHolderSame(ss, ss', key, 0);
    if other != key {
      FirstHolderSame(ss, ss', other, 0);
    }
  }

  /** Replacing one state by one that holds the same keys keeps every first holder. */
  lemma {:induction false} FirstHolderSame(ss: seq<FileState>, ss': seq<FileState>, key: string, from: nat)
    requires |ss| == |ss'| && from <= |ss|
    requires forall k :: 0 <= k < |ss| ==> (key in ss[k].items <==> key in ss'[k].items)
    decreases |ss| - from
    ensures FirstHolderFrom(ss, key, from) == FirstHolderFrom(ss', key, from)
  {
    if from < |ss| {
      FirstHolderSame(ss, ss', key, from + 1);
    }
  }

  /** The first `n` blocks, one after the other. */
  function Concat(blocks: seq<seq<string>>, n: nat): seq<string>
    requires n <= |blocks|
  {
    if n == 0 then [] else Concat(blocks, n - 1) + blocks[n - 1]
  }

  /** The earlier blocks come first. */
  lemma {:induction false} ConcatPrefix(blocks: seq<seq<string>>, m: nat, n: nat)
    requires m <= n <= |blocks|
    decreases n - m
    ensures |Concat(blocks, m)| <= |Concat(blocks, n)| && Concat(blocks, n)[..|Concat(blocks, m)|] == Concat(blocks, m)
  {
    if m < n {
      ConcatPrefix(blocks, m, n - 1);
    }
  }

  /** Block `k` sits right after the blocks before it. */
  lemma {:induction false} ConcatBlock(blocks: seq<seq<string>>, n: nat, k: nat, j: nat)
    requires k < n <= |blocks| && j < |blocks[k]|
    ensures |Concat(blocks, k)| + j < |Concat(blocks, n)|
    ensures Concat(blocks, n)[|Concat(blocks, k)| + j] == blocks[k][j]
  {
    ConcatPrefix(blocks, k + 1, n);
    var pre := Concat(blocks, k);
    assert Concat(blocks, k + 1) == pre + blocks[k];
    assert Concat(blocks, k + 1)[|pre| + j] == blocks[k][j];
  }

  /** Every entry comes from some block. */
  lemma {:induction false} ConcatFromBlocks(blocks: seq<seq<string>>, n: nat, i: nat)
    requires n <= |blocks| && i < |Concat(blocks, n)|
    ensures exists k, j :: 0 <= k < n && 0 <= j < |blocks[k]| && Concat(blocks, n)[i] == blocks[k][j]
  {
    var prev := Concat(blocks, n - 1);
    if i < |prev| {
      ConcatFromBlocks(blocks, n - 1, i);
      var k, j :| 0 <= k < n - 1 && 0 <= j < |blocks[k]| && prev[i] == blocks[k][j];
      assert Concat(blocks, n)[i] == prev[i];
    } else {
      assert Concat(blocks, n)[i] == blocks[n - 1][i - |prev|];
    }
  }

  /** The record texts of each file, in directory order. */
  function Blocks(ss: seq<FileState>): (bs: seq<seq<string>>)
    ensures |bs| == |ss|
    ensures forall k :: 0 <= k < |ss| ==> bs[k] == AllRecords(ss[k].keysOrder, ss[k].items)
  {
    seq(|ss|, k requires 0 <= k < |ss| => AllRecords(ss[k].keysOrder, ss[k].items))
  }

  /** The record text of the `j`-th listed key of file `k`. */
  function RecordOf(ss: seq<FileState>, k: nat, j: nat): string
    requires k < |ss| && j < |NonBlank(ss[k].keysOrder)|
  {
    var key := NonBlank(ss[k].keysOrder)[j];
    RecordText(key, Lookup(ss[k].items, key))
  }

  /**
   * What `getAll` returns: the records of file `k` form one block, in that file's key
   * order, right after the records of the files before it; and nothing else appears.
   */
  lemma DbRecordsBlock(ss: seq<FileState>, k: nat, j: nat)
    requires k < |ss| && j < |NonBlank(ss[k].keysOrder)|
    ensures var all := Concat(Blocks(ss), |ss|);
      |Concat(Blocks(ss), k)| + j < |all| && all[|Concat(Blocks(ss), k)| + j] == RecordOf(ss, k, j)
  {
    ConcatBlock(Blocks(ss), |ss|, k, j);
  }

  lemma DbRecordsFromFiles(ss: seq<FileState>, i: nat)
    requires i < |Concat(Blocks(ss), |ss|)|
    ensures exists k, j ::
      0 <= k < |ss| && 0 <= j < |NonBlank(ss[k].keysOrder)| &&
      Concat(Blocks(ss), |ss|)[i] == RecordOf(ss, k, j)
  {
    ConcatFromBlocks(Blocks(ss), |ss|, i);
    var k, j :| 0 <= k < |ss| && 0 <= j < |Blocks(ss)[k]| && Concat(Blocks(ss), |ss|)[i] == Blocks(ss)[k][j];
    assert Concat(Blocks(ss), |ss|)[i] == RecordOf(ss, k, j);
  }

  /** The settings of a manager that never change: file access and float formatting. */
  datatype Config = Config(readable: bool, writable: bool, floatText: FloatFormatter)

  /** A manager's state after it takes record `d` for `key`, and, when forced, writes that line. */
  function Updated(s: FileState, c: Config, key: string, d: DataValue, isForce: bool): (s': FileState)
    requires key in s.keysOrder
    ensures s'.keysOrder == s.keysOrder && s'.items == s.items[key := d]
    ensures !isForce ==> s'.fileLines == s.fileLines
    ensures isForce ==> s'.fileLines == SavedLine(s.(items := s.items[key := d]), c.readable, c.writable, key)
  {
    var t := s.(items := s.items[key := d]);
    if isForce then t.(fileLines := SavedLine(t, c.readable, c.writable, key)) else t
  }

  predicate AllAgree(ss: seq<FileState>)
  {
    forall k :: 0 <= k < |ss| ==> KeysAgree(ss[k].keysOrder, ss[k].items)
  }

  /**
   * The `modify` loop from manager `from` on: the outcome, and the states after it.
   * A miss moves on, except at the last manager.
   */
  function ModifyFrom(ss: seq<FileState>, cs: seq<Config>, from: nat, key: string, valueType: string,
                      value: string, isForce: bool): (Result<string, ExceptionType>, seq<FileState>)
    requires |ss| == |cs| && from <= |ss| && AllAgree(ss)
    decreases |ss| - from
  {
    if from == |ss| then (Ok(value), ss)
    else if key !in ss[from].items then
      if from + 1 == |ss| then (Err(KEY_NOT_FOUND), ss)
      else ModifyFrom(ss, cs, from + 1, key, valueType, value, isForce)
    else if !ValidateType(valueType) then (Err(INVALID_TYPE), ss)
    else
      var f := ValidateAndFormat(valueType, value, cs[from].floatText);
      if f.None? then (Err(INVALID_TYPE_VALUE), ss)
      else (Ok(f.value), ss[from := Updated(ss[from], cs[from], key, DataValue(valueType, f.value), isForce)])
  }

  /**
   * The first holder of the key decides: a type error, a value error, or the change
   * applied to that manager alone. KEY_NOT_FOUND needs every manager to miss, and no
   * manager at all means no error.
   */
  lemma {:induction false} ModifyFromMeaning(ss: seq<FileState>, cs: seq<Config>, from: nat, key: string,
                                             valueType: string, value: string, isForce: bool)
    requires |ss| == |cs| && from <= |ss| && AllAgree(ss)
    decreases |ss| - from
    ensures var r := ModifyFrom(ss, cs, from, key, valueType, value, isForce);
      (from == |ss| ==> r == (Ok(value), ss)) &&
      (from < |ss| && FirstHolderFrom(ss, key, from).None? ==> r == (Err(KEY_NOT_FOUND), ss)) &&
      (FirstHolderFrom(ss, key, from).Some? ==>
        var h := FirstHolderFrom(ss, key, from).value;
        var f := ValidateAndFormat(valueType, value, cs[h].floatText);
        r == if !ValidateType(valueType) then (Err(INVALID_TYPE), ss)
          else if f.None? then (Err(INVALID_TYPE_VALUE), ss)
          else (Ok(f.value), ss[h := Updated(ss[h], cs[h], key, DataValue(valueType, f.value), isForce)]))
  {
    if from < |ss| && key !in ss[from].items && from + 1 < |ss| {
      ModifyFromMeaning(ss, cs, from + 1, key, valueType, value, isForce);
    }
  }

  /** A modification keeps every key order, and so every manager's agreement with its records. */
  lemma {:induction false} ModifyKeepsAgreement(ss: seq<FileState>, cs: seq<Config>, key: string, valueType: string, value: string, isForce: bool)
    requires |ss| == |cs| && AllAgree(ss)
    ensures var (r, ss') := ModifyFrom(ss, cs, 0, key, valueType, value, isForce);
      |ss'| == |ss| && AllAgree(ss') && forall k :: 0 <= k < |ss| ==> ss'[k].keysOrder == ss[k].keysOrder
  {
    ModifyFromMeaning(ss, cs, 0, key, valueType, value, isForce);
  }

  /** One entry of a directory listing: its name, whether it is a regular file, and the file itself. */
  datatype DirEntry = DirEntry(name: string, regular: bool, lines: seq<string>, readable: bool, writable: bool)

  /** A directory as `opendir` and `readdir` see it. */
  datatype Directory = Directory(opens: bool, entries: seq<DirEntry>)

  /** The regular files of a listing, in listing order. */
  function RegularFiles(es: seq<DirEntry>): (rs: seq<DirEntry>)
    ensures |rs| <= |es|
    ensures forall k :: 0 <= k < |rs| ==> rs[k].regular
  {
    if es == [] then []
    else
      var last := es[|es| - 1];
      assert es == es[..|es| - 1] + [last];
      RegularFiles(es[..|es| - 1]) + (if last.regular then [last] else [])
  }

  /** One more entry of the listing adds itself when it is a regular file, and nothing otherwise. */
  lemma RegularFilesStep(es: seq<DirEntry>, i: nat)
    requires i < |es|
    ensures RegularFiles(es[..i + 1]) == RegularFiles(es[..i]) + (if es[i].regular then [es[i]] else [])
  {
    assert es[..i + 1][..i] == es[..i];
  }

  /** The regular files are exactly the entries that are regular files. */
  lemma {:induction false} RegularFilesMembers(es: seq<DirEntry>)
    ensures forall e :: e in RegularFiles(es) <==> e in es && e.regular
  {
    if es != [] {
      var init := es[..|es| - 1];
      RegularFilesMembers(init);
      assert es == init + [es[|es| - 1]];
    }
  }

  /** Taking more of the listing only adds regular files at the end. */
  lemma {:induction false} RegularFilesPrefix(es: seq<DirEntry>, n: nat)
    requires n <= |es|
    decreases |es| - n
    ensures |RegularFiles(es[..n])| <= |RegularFiles(es)|
    ensures RegularFiles(es)[..|RegularFiles(es[..n])|] == RegularFiles(es[..n])
  {
    if n < |es| {
      RegularFilesPrefix(es, n + 1);
      assert es[..n + 1][..n] == es[..n];
      if n + 1 == |es| {
        assert es[..n + 1] == es;
      }
    } else {
      assert es[..n] == es;
    }
  }

  /** What `loadFileToMemory` raises for a file, if anything. */
  function LoadError(e: DirEntry, floatText: FloatFormatter): Option<ExceptionType>
  {
    if !e.readable then Some(CAN_NOT_OPEN_FILE_IN) else LoadLines(e.lines, floatText).err
  }

  /** The first regular file at or after `from` whose load fails. */
  function FirstLoadError(rs: seq<DirEntry>, floatText: FloatFormatter, from: nat): (r: Option<nat>)
    requires from <= |rs|
    decreases |rs| - from
    ensures r.Some? ==> from <= r.value < |rs|
  {
    if from == |rs| then None
    else if LoadError(rs[from], floatText).Some? then Some(from)
    else FirstLoadError(rs, floatText, from + 1)
  }

  /** The first failing file: every file before it loads, and it does not. */
  lemma {:induction false} FirstLoadErrorMeaning(rs: seq<DirEntry>, floatText: FloatFormatter, from: nat)
    requires from <= |rs|
    decreases |rs| - from
    ensures var r := FirstLoadError(rs, floatText, from);
      (r.Some? ==>
        LoadError(rs[r.value], floatText).Some? &&
        forall k :: from <= k < r.value ==> LoadError(rs[k], floatText).None?) &&
      (r.None? <==> forall k :: from <= k < |rs| ==> LoadError(rs[k], floatText).None?)
  {
    if from < |rs| && LoadError(rs[from], floatText).None? {
      FirstLoadErrorMeaning(rs, floatText, from + 1);
    }
  }

  /** Appending one more file to a listing that loads cleanly. */
  lemma {:induction false} FirstLoadErrorExtend(rs: seq<DirEntry>, e: DirEntry, floatText: FloatFormatter, from: nat)
    requires from <= |rs| && FirstLoadError(rs, floatText, from).None?
    decreases |rs| - from
    ensures LoadError(e, floatText).None? ==> FirstLoadError(rs + [e], floatText, from).None?
    ensures LoadError(e, floatText).Some? ==> FirstLoadError(rs + [e], floatText, from) == Some(|rs|)
  {
    var t := rs + [e];
    if from < |rs| {
      assert t[from] == rs[from];
      FirstLoadErrorExtend(rs, e, floatText, from + 1);
    } else {
      assert t[from] == e;
    }
  }

  /** An error already found in a prefix of the listing is the first error of the whole listing. */
  lemma {:induction false} FirstLoadErrorPrefix(rs: seq<DirEntry>, floatText: FloatFormatter, m: nat, from: nat)
    requires from <= m <= |rs|
    requires FirstLoadError(rs[..m], floatText, from).Some?
    decreases m - from
    ensures FirstLoadError(rs, floatText, from) == FirstLoadError(rs[..m], floatText, from)
  {
    assert rs[..m][from] == rs[from];
    if LoadError(rs[from], floatText).None? {
      FirstLoadErrorPrefix(rs, floatText, m, from + 1);
    }
  }

  /** A load failure at regular file `es[i]` is the first failure of the whole listing. */
  lemma FailureEndsListing(es: seq<DirEntry>, i: nat, floatText: FloatFormatter)
    requires i < |es| && es[i].regular
    requires FirstLoadError(RegularFiles(es[..i]), floatText, 0).None?
    requires LoadError(es[i], floatText).Some?
    ensures var pre := RegularFiles(es[..i + 1]);
      |RegularFiles(es[..i])| < |pre| <= |RegularFiles(es)| && RegularFiles(es)[..|pre|] == pre &&
      FirstLoadError(RegularFiles(es), floatText, 0) == Some(|RegularFiles(es[..i])|) &&
      RegularFiles(es)[|RegularFiles(es[..i])|] == es[i]
  {
    var rs := RegularFiles(es);
    var pre := RegularFiles(es[..i + 1]);
    RegularFilesStep(es, i);
    FirstLoadErrorExtend(RegularFiles(es[..i]), es[i], floatText, 0);
    RegularFilesPrefix(es, i + 1);
    FirstLoadErrorPrefix(rs, floatText, |pre|, 0);
    assert rs[..|pre|][|RegularFiles(es[..i])|] == es[i];
  }

  /** What a manager shows of itself: its path, its records and lines, and its permissions. */
  datatype ManagerView = ManagerView(filePath: string, state: FileState, readable: bool, writable: bool)

  /**
   * A manager made for file `e` of directory `path` and then loaded: a readable file holds
   * the records its lines load to (up to the first bad line), an unreadable one none.
   */
  function Expected(path: string, e: DirEntry, floatText: FloatFormatter): ManagerView
  {
    var l := LoadLines(e.lines, floatText);
    ManagerView(path + "/" + e.name,
                if e.readable then FileState(l.order, l.items, e.lines) else FileState([], map[], e.lines),
                e.readable, e.writable)
  }

  function ExpectedAll(path: string, rs: seq<DirEntry>, floatText: FloatFormatter): (vs: seq<ManagerView>)
    ensures |vs| == |rs| && forall k :: 0 <= k < |rs| ==> vs[k] == Expected(path, rs[k], floatText)
  {
    seq(|rs|, k requires 0 <= k < |rs| => Expected(path, rs[k], floatText))
  }

  lemma ExpectedAllAppend(path: string, rs: seq<DirEntry>, e: DirEntry, floatText: FloatFormatter)
    ensures ExpectedAll(path, rs + [e], floatText) == ExpectedAll(path, rs, floatText) + [Expected(path, e, floatText)]
  {
    assert forall k :: 0 <= k < |rs| ==> (rs + [e])[k] == rs[k];
  }

  /** What `init(path)` raises, if anything. */
  function InitError(fs: map<string, Directory>, path: string, floatText: FloatFormatter): Option<ExceptionType>
  {
    if path !in fs then Some(INVALID_DIR)
    else if !fs[path].opens then Some(CAN_NOT_OPEN_DIR)
    else
      var rs := RegularFiles(fs[path].entries);
      var f := FirstLoadError(rs, floatText, 0);
      if f.None? then None else LoadError(rs[f.value], floatText)
  }

  /** `init` succeeds exactly on an existing directory that opens and whose every regular file loads. */
  lemma InitSucceeds(fs: map<string, Directory>, path: string, floatText: FloatFormatter)
    ensures InitError(fs, path, floatText).None? <==>
      path in fs && fs[path].opens &&
      forall e :: e in fs[path].entries && e.regular ==> LoadError(e, floatText).None?
  {
    if path in fs && fs[path].opens {
      var es := fs[path].entries;
      var rs := RegularFiles(es);
      RegularFilesMembers(es);
      FirstLoadErrorMeaning(rs, floatText, 0);
      if FirstLoadError(rs, floatText, 0).None? {
        forall e | e in es && e.regular ensures LoadError(e, floatText).None? {
          var k :| 0 <= k < |rs| && rs[k] == e;
        }
      }
    }
  }

  /** The states of the managers a successful `init` leaves: one per regular file, loaded. */
  function LoadedStates(path: string, rs: seq<DirEntry>, floatText: FloatFormatter): (ss: seq<FileState>)
    ensures |ss| == |rs| && AllAgree(ss)
    ensures forall k :: 0 <= k < |rs| ==> ss[k] == Expected(path, rs[k], floatText).state
  {
    seq(|rs|, k requires 0 <= k < |rs| => Expected(path, rs[k], floatText).state)
  }

  /** The settings of the managers a successful `init` leaves: each file's access, one float format. */
  function LoadedConfigs(rs: seq<DirEntry>, floatText: FloatFormatter): (cs: seq<Config>)
    ensures |cs| == |rs|
    ensures forall k :: 0 <= k < |rs| ==> cs[k] == Config(rs[k].readable, rs[k].writable, floatText)
  {
    seq(|rs|, k requires 0 <= k < |rs| => Config(rs[k].readable, rs[k].writable, floatText))
  }

  class InMemDatabase {
    var fileManagers: seq<FileManager>

    /** The state of every manager, in directory order. */
    function States(): (ss: seq<FileState>)
      reads this, fileManagers
      ensures |ss| == |fileManagers|
      ensures forall k :: 0 <= k < |ss| ==>
        ss[k] == FileState(fileManagers[k].keysOrder, fileManagers[k].items, fileManagers[k].fileLines)
    {
      var fms := fileManagers;
      seq(|fms|, k requires 0 <= k < |fms| reads fms => FileState(fms[k].keysOrder, fms[k].items, fms[k].fileLines))
    }

    /** Every manager as it shows itself, in directory order. */
    function Views(): (vs: seq<ManagerView>)
      reads this, fileManagers
      ensures |vs| == |fileManagers|
      ensures forall k :: 0 <= k < |vs| ==>
        vs[k] == ManagerView(fileManagers[k].filePath, States()[k], fileManagers[k].readable, fileManagers[k].writable)
    {
      var fms := fileManagers;
      seq(|fms|, k requires 0 <= k < |fms| reads fms =>
        ManagerView(fms[k].filePath, FileState(fms[k].keysOrder, fms[k].items, fms[k].fileLines), fms[k].readable, fms[k].writable))
    }

    /** The fixed settings of every manager, in directory order. */
    function Configs(): (cs: seq<Config>)
      reads this
      ensures |cs| == |fileManagers|
      ensures forall k :: 0 <= k < |cs| ==>
        cs[k] == Config(fileManagers[k].readable, fileManagers[k].writable, fileManagers[k].floatText)
    {
      var fms := fileManagers;
      seq(|fms|, k requires 0 <= k < |fms| => Config(fms[k].readable, fms[k].writable, fms[k].floatText))
    }

    /** The managers are distinct objects, each with a key order that agrees with its records. */
    predicate Valid()
      reads this, fileManagers
    {
      (forall j, k :: 0 <= j < k < |fileManagers| ==> fileManagers[j] != fileManagers[k]) &&
      AllAgree(States())
    }

    /** The singleton instance starts with no files. */
    constructor ()
      ensures Valid() && fileManagers == []
    {
      fileManagers := [];
    }
    /**
     * `init(path)`: a missing directory raises INVALID_DIR and changes nothing. Otherwise
     * the list is cleared; a directory that cannot be opened raises CAN_NOT_OPEN_DIR.
     * Otherwise a manager is made for each regular file, in listing order, appended and
     * loaded; the first load error stops the listing, with the failing manager already
     * appended.
     */
    method Init(fs: map<string, Directory>, path: string, floatText: FloatFormatter) returns (err: Option<ExceptionType>)
      modifies this
      ensures path !in fs ==> err == Some(INVALID_DIR) && fileManagers == old(fileManagers)
      ensures path in fs && !fs[path].opens ==> err == Some(CAN_NOT_OPEN_DIR) && fileManagers == []
      ensures path in fs && fs[path].opens ==>
        var rs := RegularFiles(fs[path].entries);
        var f := FirstLoadError(rs, floatText, 0);
        err == (if f.None? then None else LoadError(rs[f.value], floatText)) &&
        Views() == ExpectedAll(path, if f.None? then rs else rs[..f.value + 1], floatText) &&
        forall k :: 0 <= k < |fileManagers| ==> fresh(fileManagers[k]) && fileManagers[k].floatText == floatText
      ensures err == InitError(fs, path, floatText)
      ensures err.None? ==> States() == LoadedStates(path, RegularFiles(fs[path].entries), floatText)
      ensures err.None? ==> Configs() == LoadedConfigs(RegularFiles(fs[path].entries), floatText)
      ensures path in fs || old(Valid()) ==> Valid()
    {
      if path !in fs {
        return Some(INVALID_DIR);
      }
      fileManagers := [];
      var dir := fs[path];
      if !dir.opens {
        return Some(CAN_NOT_OPEN_DIR);
      }
      err := LoadListing(path, dir.entries, floatText);
      ghost var rs := RegularFiles(dir.entries);
      FirstLoadErrorMeaning(rs, floatText, 0);
      if err.None? {
        ViewsGiveStates(path, rs, floatText);
        ViewsGiveConfigs(path, rs, floatText);
      }
    }

    lemma ViewsGiveConfigs(path: string, rs: seq<DirEntry>, floatText: FloatFormatter)
      requires Views() == ExpectedAll(path, rs, floatText)
      requires forall k :: 0 <= k < |fileManagers| ==> fileManagers[k].floatText == floatText
      ensures Configs() == LoadedConfigs(rs, floatText)
    {
      forall k | 0 <= k < |rs| ensures Configs()[k] == LoadedConfigs(rs, floatText)[k] {
        assert Views()[k] == Expected(path, rs[k], floatText);
      }
    }

    lemma ViewsGiveStates(path: string, rs: seq<DirEntry>, floatText: FloatFormatter)
      requires Views() == ExpectedAll(path, rs, floatText)
      ensures States() == LoadedStates(path, rs, floatText)
    {
      forall k | 0 <= k < |rs| ensures States()[k] == LoadedStates(path, rs, floatText)[k] {
        assert States()[k] == Views()[k].state;
      }
    }

    /** The listing loop of `init`, on a cleared list of managers. */
    method LoadListing(path: string, es: seq<DirEntry>, floatText: FloatFormatter) returns (err: Option<ExceptionType>)
      requires fileManagers == []
      modifies this
      ensures Valid()
      ensures var rs := RegularFiles(es);
        var f := FirstLoadError(rs, floatText, 0);
        err == (if f.None? then None else LoadError(rs[f.value], floatText)) &&
        Views() == ExpectedAll(path, if f.None? then rs else rs[..f.value + 1], floatText) &&
        forall k :: 0 <= k < |fileManagers| ==> fresh(fileManagers[k]) && fileManagers[k].floatText == floatText
    {
      var i := 0;
      while i < |es|
        invariant 0 <= i <= |es|
        invariant Valid()
        invariant FirstLoadError(RegularFiles(es[..i]), floatText, 0).None?
        invariant Views() == ExpectedAll(path, RegularFiles(es[..i]), floatText)
        invariant forall k :: 0 <= k < |fileManagers| ==> fresh(fileManagers[k]) && fileManagers[k].floatText == floatText
      {
        ghost var fms := fileManagers;
        var e := LoadEntry(path, es, i, floatText);
        forall k | 0 <= k < |fileManagers|
          ensures fresh(fileManagers[k]) && fileManagers[k].floatText == floatText
        {
          if k < |fms| {
            assert fileManagers[k] == fms[k];
          } else {
            assert k == |fms|;
          }
        }
        if e.Some? {
          return e;
        }
        i := i + 1;
      }
      assert es[..i] == es;
      err := None;
    }

    /**
     * The loop body of `init` for entry `es[i]`: a regular file gets a manager, and a
     * load error ends the listing with the outcome of the whole `init`.
     */
    method LoadEntry(path: string, es: seq<DirEntry>, i: nat, floatText: FloatFormatter) returns (err: Option<ExceptionType>)
      requires i < |es| && Valid()
      requires FirstLoadError(RegularFiles(es[..i]), floatText, 0).None?
      requires Views() == ExpectedAll(path, RegularFiles(es[..i]), floatText)
      modifies this
      ensures Valid()
      ensures |old(fileManagers)| <= |fileManagers| <= |old(fileManagers)| + 1
      ensures fileManagers[..|old(fileManagers)|] == old(fileManagers)
      ensures |fileManagers| > |old(fileManagers)| ==>
        fresh(fileManagers[|old(fileManagers)|]) && fileManagers[|old(fileManagers)|].floatText == floatText
      ensures err.None? ==>
        FirstLoadError(RegularFiles(es[..i + 1]), floatText, 0).None? &&
        Views() == ExpectedAll(path, RegularFiles(es[..i + 1]), floatText)
      ensures err.Some? ==>
        var rs := RegularFiles(es);
        var f := FirstLoadError(rs, floatText, 0);
        f.Some? && err == LoadError(rs[f.value], floatText) &&
        Views() == ExpectedAll(path, rs[..f.value + 1], floatText)
    {
      RegularFilesStep(es, i);
      ghost var before := RegularFiles(es[..i]);
      if !es[i].regular {
        assert RegularFiles(es[..i + 1]) == before;
        return None;
      }
      err := AddFile(path, es[i], floatText);
      FirstLoadErrorExtend(before, es[i], floatText, 0);
      ExpectedAllAppend(path, before, es[i], floatText);
      if err.Some? {
        FailureEndsListing(es, i, floatText);
        assert RegularFiles(es)[..|before| + 1] == RegularFiles(es[..i + 1]);
      }
    }

    /** One regular file of `init`: a new manager for it is appended and loaded. */
    method AddFile(path: string, e: DirEntry, floatText: FloatFormatter) returns (err: Option<ExceptionType>)
      requires Valid()
      modifies this
      ensures Valid()
      ensures |fileManagers| == |old(fileManagers)| + 1 && fileManagers[..|old(fileManagers)|] == old(fileManagers)
      ensures fresh(fileManagers[|old(fileManagers)|]) && fileManagers[|old(fileManagers)|].floatText == floatText
      ensures Views() == old(Views()) + [Expected(path, e, floatText)]
      ensures err == LoadError(e, floatText)
    {
      var fm := new FileManager(path + "/" + e.name, e.lines, e.readable, e.writable, floatText);
      ghost var ss := States();
      ghost var vs := Views();
      fileManagers := fileManagers + [fm];
      assert States()[..|ss|] == ss;
      err := fm.LoadFileToMemory();
      assert States()[..|ss|] == ss;
      assert Views()[..|vs|] == vs;
    }

    /** `get`: NO_KEY_PROVIDED for "", otherwise the record text from the first file holding the key. */
    method Get(key: string) returns (r: Result<string, ExceptionType>)
      ensures r == GetIn(States(), key)
    {
      if key == "" {
        return Err(NO_KEY_PROVIDED);
      }
      var i := 0;
      while i < |fileManagers|
        invariant 0 <= i <= |fileManagers|
        invariant FirstHolder(States(), key) == FirstHolderFrom(States(), key, i)
      {
        var result := fileManagers[i].GetByKey(key);
        if result != "" {
          return Ok(result);
        }
        i := i + 1;
      }
      return Err(KEY_NOT_FOUND);
    }

    /** One iteration of the `modify` loop: manager `i` tries the change. */
    method ModifyAt(i: nat, key: string, valueType: string, value: string, isForce: bool)
      returns (r: Result<string, ExceptionType>)
      requires Valid() && i < |fileManagers|
      modifies fileManagers[i]
      ensures AllAgree(old(States()))
      ensures key !in old(States())[i].items ==> r == Err(KEY_NOT_FOUND)
      ensures key in old(States())[i].items ==>
        var f := ValidateAndFormat(valueType, value, Configs()[i].floatText);
        r == if !ValidateType(valueType) then Err(INVALID_TYPE) else if f.None? then Err(INVALID_TYPE_VALUE) else Ok(f.value)
      ensures r.Err? ==> States() == old(States())
      ensures r.Ok? ==> key in old(States())[i].keysOrder
      ensures r.Ok? ==>
        States() == old(States())[i := Updated(old(States())[i], Configs()[i], key, DataValue(valueType, r.value), isForce)]
    {
      ghost var ss := States();
      var fm := fileManagers[i];
      assert fm.Valid();
      assert ss[i] == FileState(fm.keysOrder, fm.items, fm.fileLines);
      assert forall k :: 0 <= k < |fileManagers| && k != i ==> fileManagers[k] != fm;
      r := fm.Modify(key, valueType, value);
      if r.Ok? && isForce {
        var saveError := fm.SaveLine(key);
      }
      ghost var s' := FileState(fm.keysOrder, fm.items, fm.fileLines);
      forall k | 0 <= k < |ss| ensures States()[k] == ss[i := s'][k] {
        if k != i {
          assert fileManagers[k] != fm;
        }
      }
      assert States() == ss[i := s'];
    }

    /**
     * `modify`: the managers are tried in order and the first that holds the key takes
     * the change, written through to its file at once when `isForce`. A type or value
     * error from that manager stops the search. KEY_NOT_FOUND is raised only when the
     * last manager misses too; with no manager at all nothing happens. The returned
     * text is `value` after the call: the formatted value on success.
     */
    method Modify(key: string, valueType: string, value: string, isForce: bool)
      returns (r: Result<string, ExceptionType>)
      requires Valid()
      modifies fileManagers
      ensures Valid()
      ensures AllAgree(old(States())) && (r, States()) == ModifyFrom(old(States()), Configs(), 0, key, valueType, value, isForce)
    {
      ghost var ss := States();
      ghost var cs := Configs();
      ModifyKeepsAgreement(ss, cs, key, valueType, value, isForce);
      var i := 0;
      while i < |fileManagers|
        invariant 0 <= i <= |fileManagers|
        invariant |fileManagers| > 0 ==> i < |fileManagers|
        invariant States() == ss
        invariant ModifyFrom(ss, cs, 0, key, valueType, value, isForce) == ModifyFrom(ss, cs, i, key, valueType, value, isForce)
      {
        var res := ModifyAt(i, key, valueType, value, isForce);
        if res.Ok? {
          return res;
        }
        if res.error == INVALID_TYPE || res.error == INVALID_TYPE_VALUE {
          return res;
        }
        if i + 1 == |fileManagers| {
          return Err(KEY_NOT_FOUND);
        }
        i := i + 1;
      }
      return Ok(value);
    }

    /**
     * `save`: every manager writes its records back to its file; the first file that
     * cannot be written stops the rest. Each iteration works on a copy of the manager,
     * which writes the same file.
     */
    method Save() returns (err: Option<ExceptionType>)
      requires Valid()
      modifies fileManagers
      ensures err.None? <==> forall k :: 0 <= k < |fileManagers| ==> fileManagers[k].writable
      ensures err.Some? ==> err == Some(CAN_NOT_OPEN_FILE_OUT)
      ensures |States()| == |old(States())|
      ensures forall k :: 0 <= k < |fileManagers| ==>
        var s := old(States())[k];
        States()[k] == if forall j :: 0 <= j <= k ==> fileManagers[j].writable
          then s.(fileLines := Serialize(s.keysOrder, s.items))
          else s
    {
      var i := 0;
      while i < |fileManagers|
        invariant 0 <= i <= |fileManagers|
        invariant forall k :: 0 <= k < i ==> fileManagers[k].writable
        invariant |States()| == |old(States())|
        invariant forall k :: 0 <= k < |fileManagers| ==>
          var s := old(States())[k];
          States()[k] == if k < i then s.(fileLines := Serialize(s.keysOrder, s.items)) else s
      {
        var fm := fileManagers[i];
        assert forall k :: 0 <= k < |fileManagers| && k != i ==> fileManagers[k] != fm;
        ghost var before := States();
        var e := fm.SaveMemoryToFile();
        if e.Some? {
          assert States() == before;
          return e;
        }
        assert States() == before[i := FileState(fm.keysOrder, fm.items, fm.fileLines)];
        i := i + 1;
      }
      return None;
    }

    /** `getAll`: the records of every file, file after file, each in its key order. */
    method GetAll() returns (all: seq<string>)
      ensures all == Concat(Blocks(States()), |fileManagers|)
    {
      ghost var ss := States();
      all := [];
      var i := 0;
      while i < |fileManagers|
        invariant 0 <= i <= |fileManagers|
        invariant all == Concat(Blocks(ss), i)
      {
        var temp := fileManagers[i].GetAll();
        assert ss[i].keysOrder == fileManagers[i].keysOrder && ss[i].items == fileManagers[i].items;
        all := all + temp;
        i := i + 1;
      }
      assert |States()| == |ss|;
      assert forall k :: 0 <= k < |ss| ==> States()[k] == ss[k];
      assert States() == ss;
    }

    /**
     * `getValue`: the converted value from the first file holding the key; a
     * conversion error there propagates, and KEY_NOT_FOUND is raised when no file
     * holds the key.
     */
    method GetValue(key: string) returns (r: Result<Variant, Thrown>)
      ensures FirstHolder(States(), key).None? ==> r == Err(Db(KEY_NOT_FOUND))
      ensures FirstHolder(States(), key).Some? ==> r == DataValues.GetValue(States()[FirstHolder(States(), key).value].items[key])
    {
      var i := 0;
      while i < |fileManagers|
        invariant 0 <= i <= |fileManagers|
        invariant FirstHolder(States(), key) == FirstHolderFrom(States(), key, i)
      {
        var res := fileManagers[i].GetValueByKey(key);
        if res.Ok? || res.error != Db(KEY_NOT_FOUND) {
          return res;
        }
        i := i + 1;
      }
      return Err(Db(KEY_NOT_FOUND));
    }
  }
}
