# Radio Simulation — a verified model of its core

Radio Simulation is a small client/server system written in C++ that imitates a radio link.

- **Server.** It accepts text requests from clients over TCP and answers each one with a text reply.
  - A request can read the server's configuration database (`db get …`).
  - It can set up or release the server's single carrier (`carrier setup <network> <frequency>`, `carrier release`).
  - It can push a bit string down the link (`DL <bits>`).
  - It can ask for a randomly generated bit string to be sent up the link (`UL`).
- **Modulator.** It turns bits into a sampled waveform, adds noise to it, and recovers bits from a waveform. The scheme depends on the carrier's network:
  - ASK for "2G";
  - PSK for "3G";
  - FSK for "4G";
  - 16-QAM for "5G".
- **Antenna.** It looks up the plot settings in the database, builds the plot command for an external Python script and runs it, and generates the uplink's random bits. The noise is added by the modulator and once more by the server, not by the antenna.
- **Configuration database.** It holds typed records `/key type "value"` in text files. Each file has a file manager, and an in-memory database searches an ordered list of file managers.
- **Console program.** It is a stand-alone command line over that database, offering `db get`, `db write` and `db write -f`.
- **Client.** It has its own copy of the database, forwards `server …` lines to the server and prints the replies.
- **Logger.** It is shared by all components. It gates messages by a priority common to every logger instance and formats container, pair and tuple arguments as text.

This project models that core in Dafny and proves what each operation promises. The modelled areas are:

- the server's request router;
- the carrier state machine;
- the modulator's structure: scheme dispatch, window arithmetic, which parameter each bit selects, the 16-QAM tables and the demodulators' decision rules;
- typed value validation and formatting;
- the record-file parser and serialiser;
- the in-memory database's lookups and updates;
- the console's and the client's command handling;
- the antenna's plot command;
- the logger.

## Modelling conventions

- **Where updates happen.** Classes in the source whose fields are updated in place are Dafny classes. These are the carrier, the modulator, the file manager, the database, the console, the client, the logger and the antenna. Their methods are proved against pure functions of a value snapshot of their state (`State()`, `States()`, `Views()`).
- **Outside world.** Everything outside the program is a parameter or a recorded event:
  - directory listings and file contents are maps and sequences of lines;
  - console input is a sequence of lines, console output a sequence of `Emit` events;
  - network peers are sequences of attempts or received chunks;
  - the clock is a time-stamp string;
  - noise draws are a function from sample index to a real;
  - random bits are a nondeterministic choice of '0'/'1';
  - `system()` calls are recorded commands;
  - the server's configuration values are a `CarrierConfig` and a `Signs` record.
- **Sample values.** These come from an uninterpreted cosine (the `Cosine` type, held in `Params.cosine`) of the carrier parameters and the sample tick. Sums and comparisons are over reals. Lengths, indices, table entries and decision structure are exact.
- **Faults.** Uncaught C++ exceptions and undefined behaviour that input can reach become fault results. These are:
  - `std::stol` on a non-numeric frequency;
  - `std::string::substr` past the end;
  - the one-byte overrun of a full receive buffer;
  - `std::out_of_range` from a log file name without a '.'.
- **`operator>>`.** Extraction works on a `Stream` value (the text, a position and a good flag). A failed extraction leaves its target unchanged, as in C++.

## Model

| member | source | states |
|---|---|---|
| Common.Find | server/src/carrier.cc:58 | `std::string::find`: a returned position is the first occurrence of the pattern; no result exactly when the pattern occurs nowhere |
| Common.CString | server/src/server.cc:287 | building a `std::string` from a `char*` keeps the longest NUL-free prefix, and it stops at the first NUL |
| Common.NatToString | database/src/dataValue.cc:45 | `std::to_string` of an unsigned value: non-empty, all digits, no leading zero, and "0" exactly for 0 |
| Common.IntToString | database/src/dataValue.cc:29 | `std::to_string` of a signed value: starts with '-' exactly when negative, and otherwise is the unsigned text of the magnitude |
| Streams.Open | server/src/server.cc:288 | a new `stringstream` is good and positioned at the start of the given text |
| Streams.Extract | server/src/server.cc:294 | `operator>>` keeps the text; a stream that has already failed leaves both itself and the target unchanged |
| Streams.ExtractNext | server/src/server.cc:294-316 | `operator>>` yields the next whitespace token and consumes it; when no token remains the stream fails and the target keeps its old value |
| Streams.TokensAreWords | database/src/commandLine.cc:200-214 | every token read from a text is non-empty and contains no whitespace |
| Streams.FirstWord | database/src/commandLine.cc:200-202 | the first word read from a line is its first token, and it is empty exactly when the line has no tokens |
| Streams.GetLine | database/src/commandLine.cc:132 | `std::getline` returns the rest of the current line, with no newline in it and stopping at the next '\n'; at end of input the target is unchanged |
| Streams.TokensOfJoin | server/src/server.cc:294-316 | tokenising words joined by single spaces gives back exactly those words |
| Numbers.Stoi | database/src/dataValue.cc:29 | `std::stoi` succeeds exactly when the text starts with an optionally signed digit run whose value fits a 32-bit `int`, and then returns that value |
| Numbers.Stol | server/src/server.cc:322 | `std::stol` succeeds exactly when the leading integer fits a 64-bit `long`, and then returns it |
| Numbers.Stoul | database/src/dataValue.cc:45 | `std::stoul` accepts leading integers of magnitude at most `ULONG_MAX`; it returns non-negative values unchanged and wraps negative ones modulo 2^64 |
| Numbers.StoiOfIntToString | database/src/dataValue.cc:29 | `stoi` reads back the decimal text of every 32-bit integer |
| Numbers.StoulOfNatToString | database/src/dataValue.cc:45 | `stoul` reads back the decimal text of every unsigned 64-bit value |
| Numbers.StolOfIntToString | server/src/server.cc:322 | `stol` reads back the decimal text of every 64-bit integer |
| Numbers.StoulLeadingZeros | database/src/dataValue.cc:45 | leading zeros do not change the value `stoul` reads |
| Numbers.StoiTrailingText | database/src/dataValue.cc:29 | `stoi` ignores text after the digits ("12ab" gives 12) and rejects text with no leading digits |
| Numbers.StoulMinusOne | database/src/dataValue.cc:41-45 | `stoul("-1")` is `ULONG_MAX`, which is why the source rejects a leading '-' before calling it |
| DbErrors.Code | database/inc/dbException.h:8-30 | each database exception kind has an enumerator value in 0..9 |
| DbErrors.KindOfCode | database/inc/dbException.h:8-30 | exactly the values 0..9 name a kind, and each names the kind whose enumerator it is |
| DbErrors.CodeInjective | database/inc/dbException.h:8-30 | distinct kinds have distinct enumerator values, because the value identifies the kind |
| DbErrors.NewDBException | database/src/dbException.cc:3-6 | the constructor records the given kind |
| DbErrors.What | database/src/dbException.cc:8-35 | `what()` gives each of the ten kinds its own fixed message, and any value outside the enum gives "Unknown database error." |
| DbErrors.WhatOfNew | database/src/dbException.cc:3-35 | the message of a newly built exception is the message of its kind |
| DbErrors.MessagesDistinct | database/src/dbException.cc:10-34 | the ten messages are pairwise distinct and none is the unknown-error text |
| DbErrors.MessageExample | database/src/dbException.cc:24-25 | KEY_NOT_FOUND reads "Key not found in database." |
| LogErrors.Code | logging/inc/logException.h:17-23 | each logger exception kind has an enumerator value 0 or 1 |
| LogErrors.NewLogException | logging/src/logException.cc:3-6 | the constructor records the given kind |
| LogErrors.What | logging/src/logException.cc:8-19 | FAIL_TO_OPEN_FILE gives "Fail to open file.", INVALID_LOG_FILE_EXTENSION gives "Invalid log file extension.", anything else gives "Unknown logger error."; each holds in both directions |
| LogErrors.WhatOfNew | logging/src/logException.cc:3-19 | a newly built exception never reports the unknown-error text |
| DataValues.ValidateType | database/src/dataValue.cc:4-7 | `validateType` is membership in the fixed list of type names; `ValidTypesAreExactlyFour` names the four |
| DataValues.ValidTypesAreExactlyFour | database/src/dataValue.cc:4-7 | `validateType` accepts exactly "char", "u32", "s32" and "f32" |
| DataValues.DropTrailing | database/src/dataValue.cc:11-12 | erasing from `find_last_not_of(c) + 1` leaves the longest prefix not ending in `c`; only copies of `c` are removed |
| DataValues.DropTrailingExact | database/src/dataValue.cc:11-12 | a run of `c` appended to a text not ending in `c` is exactly what gets removed |
| DataValues.TrimmingFloatString | database/src/dataValue.cc:9-13 | the trimmed float text is a prefix of the input that never ends in '.'; what was removed is a run of '0's and '.'s in which no '.' follows a '0' |
| DataValues.TrimmingFixedPoint | database/src/dataValue.cc:53-60 | on `to_string`-style text "i.f000" the trimming gives "i.f", or "i" when the fraction is all zeros |
| DataValues.ValidateAndFormat | database/src/dataValue.cc:15-67 | an unknown type is rejected; u32 and s32 values with a space are rejected; char values are accepted unchanged; s32 is accepted exactly when `stoi` succeeds and becomes its canonical decimal; u32 is accepted exactly when it does not start with '-' and `stoul` succeeds, and becomes its canonical decimal; f32 goes through the float formatter |
| DataValues.FormatIdempotent | database/src/dataValue.cc:15-52 | formatting an already formatted char, s32 or u32 value accepts it and changes nothing |
| DataValues.S32Range | database/src/dataValue.cc:25-36 | an accepted s32 value parses to a 32-bit integer |
| DataValues.U32AcceptsLargeValues | database/src/dataValue.cc:37-52 | the "u32" check uses the 64-bit `stoul`, so 2^32 is accepted |
| DataValues.LeadingZerosFormatted | database/src/dataValue.cc:45 | "0001234" as u32 is stored as "1234" |
| DataValues.GetDataValue | database/src/dataValue.cc:69-72 | the displayed record is the type, one space, then the value, and both parts can be read back from it |
| DataValues.SetDataValue | database/src/dataValue.cc:74-78 | setting a value replaces both the type and the value |
| DataValues.GetTypeToSave | database/src/dataValue.cc:80-83 | the type is saved unquoted |
| DataValues.GetValueToSave | database/src/dataValue.cc:85-88 | the saved value is the value wrapped in one pair of double quotes, so stripping the first and last character restores it |
| DataValues.GetValue | database/src/dataValue.cc:90-112 | the typed variant is: the NUL-free prefix for char; the `stoi` result for s32 and the `stoul` result for u32, failing when the parse fails; the text for f32; INVALID_TYPE for any other type |
| DataValues.GetValueOfFormatted | database/src/dataValue.cc:96-103 | a stored s32 or u32 value always converts back, to the number originally parsed from the user's text |
| Files.ParseRecordLine | database/src/fileManager.cc:14-25 | a line the record pattern accepts yields a well-formed record: a key starting with '/', a key and type without whitespace, and a non-empty value with no line terminator |
| Files.ParseOfFormat | database/src/fileManager.cc:67-68 | parsing the line written for any well-formed record gives back that record |
| Files.FormatOfParse | database/src/fileManager.cc:14-25 | writing out a parsed record gives back exactly the line it was parsed from |
| Files.LoadStep | database/src/fileManager.cc:18-48 | one line of the load loop keeps the key order and the map in agreement with every record valid; an accepted line adds exactly one entry to the order; once an exception is recorded, nothing changes |
| Files.LoadLines | database/src/fileManager.cc:15-48 | loading from the cleared state ends with agreeing order and map and valid records; a load that raised nothing has one order entry per line |
| Files.LoadStopsAtError | database/src/fileManager.cc:26-47 | after the first failing line, the rest of the file has no effect, because the exception ends the load |
| Files.LoadOneLine | database/src/fileManager.cc:34-37 | a single record line gives one key in the order and one record in the map |
| Files.DuplicateKeyLastWins | database/src/fileManager.cc:36-37 | a key that appears twice keeps its last value and appears twice in the key order |
| Files.ReloadSameKey | database/src/fileManager.cc:36-37 | a second line for a loaded key overwrites its record and appends the key again |
| Files.Serialize | database/src/fileManager.cc:59-69 | the save writes exactly one line per key-order entry |
| Files.SerializeAt | database/src/fileManager.cc:59-69 | line j is blank for a blank placeholder and is otherwise `key type "value"` for the j-th key |
| Files.LoadOfSerialize | database/src/fileManager.cc:52-71 | loading what the save wrote reproduces the key order and the map, when they agree and every record is in stored form |
| Files.LoadOfSerializeRestricted | database/src/fileManager.cc:52-71 | when the map may hold keys missing from the order, a save and a reload keep the order and drop exactly those keys |
| Files.FirstIndex | database/src/fileManager.cc:76-83 | the search in `saveLine` finds the first position of the key in the key order |
| Files.NonBlank | database/src/fileManager.cc:174-179 | the keys `getAll` visits are exactly the non-blank entries of the key order |
| Files.AllRecords | database/src/fileManager.cc:171-184 | `getAll` gives one "key type value" text per non-blank key, in key order |
| Files.SaveLineMatchesSave | database/src/fileManager.cc:73-122 | when a key occurs once in the order, rewriting its line in a saved file gives the same lines as saving the updated map |
| Files.FileManager.constructor | database/src/fileManager.cc:3-5 | a new manager has its path, an empty map and an empty key order |
| Files.FileManager.LoadFileToMemory | database/src/fileManager.cc:7-50 | a file that cannot be opened raises CAN_NOT_OPEN_FILE_IN and changes nothing; otherwise the new order, map and error are those of the load loop over the file's lines |
| Files.FileManager.SaveMemoryToFile | database/src/fileManager.cc:52-71 | a file that cannot be opened raises CAN_NOT_OPEN_FILE_OUT and keeps its lines; otherwise the file becomes the serialised order and map |
| Files.SaveLineError | database/src/fileManager.cc:86-115 | the `std::cerr` message of `saveLine`: none exactly when the file is readable, long enough and writable; otherwise the reading, range or writing message, in that order of checks |
| Files.FileManager.SaveLine | database/src/fileManager.cc:73-122 | only the line at the key's first index is replaced, by the key's record; an unreadable or unwritable file or an index past the end leaves the file unchanged and returns the message written to `std::cerr`; the line count never changes |
| Files.FileManager.GetByKey | database/src/fileManager.cc:124-132 | an absent key gives ""; a present key gives "key type value", which starts with the key and a space |
| Files.FileManager.GetValueByKey | database/src/fileManager.cc:134-149 | an absent key raises KEY_NOT_FOUND; a present key gives its typed value, or the error from converting it |
| Files.FileManager.Modify | database/src/fileManager.cc:151-169 | the checks come in order: key exists, then type valid, then value valid; each failure raises its kind and leaves the map unchanged; on success only that key's record is replaced, with the formatted value |
| Files.FileManager.GetAll | database/src/fileManager.cc:171-184 | the records returned are the key-order records without placeholders |
| Database.ExtractValue | database/src/inMemDatabase.cc:3-14 | the destination takes the variant's value when it holds the same alternative and is otherwise left unchanged; its alternative never changes |
| Database.ExtractOfSigned | database/src/inMemDatabase.cc:3-14 | an int destination receives the parsed s32 value, and any other destination keeps its old value |
| Database.ExtractIdempotent | database/src/inMemDatabase.cc:3-14 | extracting the same value twice is the same as extracting it once |
| Database.FirstHolderFrom | database/src/inMemDatabase.cc:78-84 | the search over the file managers finds the first file, in load order, that holds the key, and finds none exactly when no file holds it |
| Database.GetIn | database/src/inMemDatabase.cc:72-86 | `get("")` raises NO_KEY_PROVIDED; a key held by no file raises KEY_NOT_FOUND; otherwise the result is the record of the first file holding it; the lookup succeeds exactly when some file holds a non-empty key |
| Database.SavedLine | database/src/inMemDatabase.cc:100-103 | the forced save of one record keeps the line count and every line except the one at the key's first index |
| Database.GetAfterModify | database/src/inMemDatabase.cc:88-124 | after the first holder's record is replaced, `get` of that key returns the new record and `get` of every other key is unchanged |
| Database.Blocks | database/src/inMemDatabase.cc:144-148 | the database's `getAll` visits each file in load order and takes that file's own `getAll` |
| Database.DbRecordsBlock | database/src/inMemDatabase.cc:141-150 | every record of every file appears in the database's `getAll`, at the position after all earlier files' records |
| Database.DbRecordsFromFiles | database/src/inMemDatabase.cc:141-150 | every entry of the database's `getAll` is a record of some file |
| Database.Updated | database/src/inMemDatabase.cc:98-104 | a modified file keeps its key order and replaces one record; without `-f` its lines are untouched, and with `-f` they are rewritten by `saveLine` |
| Database.ModifyFromMeaning | database/src/inMemDatabase.cc:88-124 | `modify` changes only the first file holding the key; INVALID_TYPE and INVALID_TYPE_VALUE from that file propagate without change; KEY_NOT_FOUND comes only when no file holds the key; with no files loaded it raises nothing |
| Database.ModifyKeepsAgreement | database/src/inMemDatabase.cc:88-124 | `modify` keeps every file's key order and keeps each file's order and map in agreement |
| Database.RegularFiles | database/src/inMemDatabase.cc:48-53 | the directory scan loads only regular files, in listing order |
| Database.RegularFilesMembers | database/src/inMemDatabase.cc:48-53 | an entry is loaded exactly when it is listed and is a regular file |
| Database.FirstLoadError | database/src/inMemDatabase.cc:54-61 | the failing file, if any, is one of the regular files scanned |
| Database.FirstLoadErrorMeaning | database/src/inMemDatabase.cc:54-61 | the failing file is the first whose load raises, and there is none exactly when every load succeeds |
| Database.FailureEndsListing | database/src/inMemDatabase.cc:54-61 | the first file whose load raises ends the scan; its manager is the last one added |
| Database.InitSucceeds | database/src/inMemDatabase.cc:36-70 | `init` raises nothing exactly when the directory exists, opens, and every regular file in it loads |
| Database.LoadedStates | database/src/inMemDatabase.cc:46-65 | after the scan each manager holds what loading its file produced, in agreement |
| Database.LoadedConfigs | database/src/inMemDatabase.cc:46-65 | each manager keeps its file's open permissions and the float formatter |
| Database.InMemDatabase.constructor | database/src/inMemDatabase.cc:30-34 | the single instance starts with no file managers |
| Database.InMemDatabase.Init | database/src/inMemDatabase.cc:36-70 | a missing directory raises INVALID_DIR; an unopenable one raises CAN_NOT_OPEN_DIR; otherwise one fresh manager is added per regular file up to and including the first that fails to load, and that file's error is raised |
| Database.InMemDatabase.LoadListing | database/src/inMemDatabase.cc:46-65 | the listing loop adds managers for the regular files up to the first failure, and reports that failure |
| Database.InMemDatabase.LoadEntry | database/src/inMemDatabase.cc:48-63 | one listing entry adds at most one manager; earlier managers are kept and the scan state advances |
| Database.InMemDatabase.AddFile | database/src/inMemDatabase.cc:50-57 | a regular file gets one new manager appended, built and loaded from that file, and its load error is reported |
| Database.InMemDatabase.Get | database/src/inMemDatabase.cc:72-86 | `get` is the first-file-holding-the-key lookup over the managers' current state |
| Database.InMemDatabase.ModifyAt | database/src/inMemDatabase.cc:95-118 | one iteration of the `modify` loop checks file i: a miss reports KEY_NOT_FOUND; a hit gives the file manager's own outcome, and only file i changes |
| Database.InMemDatabase.Modify | database/src/inMemDatabase.cc:88-124 | the outcome and the new state of every file are those of the first-holder modification |
| Database.InMemDatabase.Save | database/src/inMemDatabase.cc:126-139 | files are saved in order until one cannot be opened, which raises CAN_NOT_OPEN_FILE_OUT; every file before it is rewritten from memory and the rest are untouched |
| Database.InMemDatabase.GetAll | database/src/inMemDatabase.cc:141-150 | the result is the concatenation of each file's records, in load order |
| Database.InMemDatabase.GetValue | database/src/inMemDatabase.cc:152-169 | the value comes from the first file holding the key, and that file's conversion error propagates; KEY_NOT_FOUND comes only when no file holds it |
| CommandLine.ForceErase | database/src/commandLine.cc:116-125 | without "-f" the line and the flag are unchanged; otherwise the force flag is set and three characters are removed, the one before the first "-f" and the flag itself; a "-f" at position 0 faults, because the erase then starts out of range |
| CommandLine.ForceEraseTyped | database/src/commandLine.cc:116-125 | a " -f" typed after a flag-free prefix is removed completely, and the force flag is set |
| CommandLine.DbLineNeverFaults | database/src/commandLine.cc:217-220 | a line that starts with the word "db" never reaches the faulting erase |
| CommandLine.MatchWriteSound | database/src/commandLine.cc:6 | what the write pattern captures is a key starting with '/', a type, and a value that together spell the text |
| CommandLine.MatchWriteComplete | database/src/commandLine.cc:6 | every text that splits as the pattern requires is matched, with exactly those groups |
| CommandLine.MatchWriteExactly | database/src/commandLine.cc:134-141 | the match succeeds with given groups exactly when the text splits into them |
| CommandLine.RecordPartTyped | database/src/commandLine.cc:129-133 | after two words are skipped and the one separating character is dropped, the pattern sees exactly the typed record |
| CommandLine.TwoWords | database/src/commandLine.cc:131 | the two extractions consume the words "db" and "write" and stop right after the second |
| CommandLine.Classify | database/src/commandLine.cc:178-228 | only the literal line "exit" classifies as the exit command |
| CommandLine.RouteByWords | database/src/commandLine.cc:200-228 | every other line is routed by its tokens alone |
| CommandLine.TypedGet | database/src/commandLine.cc:209-216 | `db get <key>` asks for exactly that key |
| CommandLine.WriteIsDb | database/src/commandLine.cc:217-220 | a line routed to the write handler starts with the word "db" |
| CommandLine.AllLines | database/src/commandLine.cc:98-105 | printing the records gives one output line per record, in order |
| CommandLine.WriteEffect | database/src/commandLine.cc:127-150 | a write keeps the number of files, keeps each file's key order and map in agreement, and never ends the session |
| CommandLine.WriteStep | database/src/commandLine.cc:217-226 | erasing the force flag and then writing keeps the database consistent and never ends the session |
| CommandLine.LineStep | database/src/commandLine.cc:158-229 | one input line keeps the database consistent, and it ends the session exactly when it is "exit" |
| CommandLine.DbStep | database/src/commandLine.cc:200-228 | a non-literal line keeps the database consistent and never ends the session |
| CommandLine.Session | database/src/commandLine.cc:158-229 | the command loop keeps the number of files and each file's agreement between order and map |
| CommandLine.SessionAt | database/src/commandLine.cc:158-229 | the loop handles one line and then, unless that line was "exit", the rest of the lines |
| CommandLine.SessionEndsAtExit | database/src/commandLine.cc:182-183 | lines after an "exit" are never read |
| CommandLine.SessionWithoutWrites | database/src/commandLine.cc:209-228 | a session without `db write` lines leaves the database unchanged |
| CommandLine.Dialog | database/src/commandLine.cc:27-42 | the start-up dialog always begins with the directory prompt |
| CommandLine.DialogLoads | database/src/commandLine.cc:27-42 | the dialog only loads a directory that was typed and that `init` accepts |
| CommandLine.DialogExit | database/src/commandLine.cc:35-36 | typing "exit" first quits after one prompt, without trying any directory |
| CommandLine.CommandLineInterface.InitDB | database/src/commandLine.cc:13-26 | it succeeds exactly when `init` raises nothing and reports the outcome on the console; on success the managers hold the loaded files |
| CommandLine.CommandLineInterface.HandleInitDB | database/src/commandLine.cc:27-42 | the console and the outcome follow the dialog over the typed words; a loaded directory leaves its files loaded |
| CommandLine.CommandLineInterface.InitRound | database/src/commandLine.cc:31-40 | one round prompts, reads the next word (keeping the previous path when none is left) and quits on "exit"; otherwise it runs `initDB` and reports the result |
| CommandLine.CommandLineInterface.GetKey | database/src/commandLine.cc:43-56 | it returns the record when the lookup succeeds; on any database error it prints "Error: " with the message and returns nothing |
| CommandLine.CommandLineInterface.GetAllKey | database/src/commandLine.cc:58-71 | it returns every record of every file, in load order |
| CommandLine.CommandLineInterface.HandleGetCommand | database/src/commandLine.cc:96-114 | "all" prints every record on its own line; any other key prints its record only when found, and the error otherwise |
| CommandLine.CommandLineInterface.HandleGetOne | database/src/commandLine.cc:106-113 | a single key prints its record when found and the error otherwise |
| CommandLine.CommandLineInterface.PrintLines | database/src/commandLine.cc:100-104 | each record is printed on its own line |
| CommandLine.CommandLineInterface.WriteKey | database/src/commandLine.cc:73-94 | the change goes through the database's `modify` and its outcome is reported; an exception is caught and reported, never propagated |
| CommandLine.CommandLineInterface.HandleWriteCommand | database/src/commandLine.cc:127-150 | it returns true exactly when the record pattern matches, whether or not the write then succeeds; the console and the database follow the write's effect |
| CommandLine.CommandLineInterface.HandleLine | database/src/commandLine.cc:158-228 | one line changes the console and the database as the line step says, and stops exactly on "exit" |
| CommandLine.CommandLineInterface.HandleDbLine | database/src/commandLine.cc:200-228 | a line other than the four literals is dispatched by its words: "db get", "db write", or the "must have db at the begin" and invalid-command messages |
| CommandLine.CommandLineInterface.HandleWriteLine | database/src/commandLine.cc:217-226 | a `db write` line erases the force flag and then writes the record |
| CommandLine.CommandLineInterface.CommandLoop | database/src/commandLine.cc:158-229 | the loop over the input lines gives the console, the database and the exit flag of the session |
| CommandLine.CommandLineInterface.HandleCommandLine | database/src/commandLine.cc:152-230 | the program's whole transcript is the start-up dialog followed, once a directory has loaded, by the session over the loaded files |
| ClientRecord.TrimTrailingSpaces | client/src/client.cc:21 | replacing " +$" with nothing leaves the longest prefix not ending in a space, and only spaces are removed |
| ClientRecord.TrimIdempotent | client/src/client.cc:21 | trimming twice is the same as trimming once |
| ClientRecord.TrimUnique | client/src/client.cc:21 | any prefix that does not end in a space and is followed only by spaces is the trimmed text |
| ClientRecord.ForceAndErase | client/src/client.cc:11-23 | the flag ends up set exactly when it already was or the input contains "-f"; only the two characters of the first "-f" are removed, and the result never ends in a space; the input itself is not touched |
| ClientRecord.ForceAtStart | client/src/client.cc:15-19 | unlike the console's rule, a "-f" at position 0 is removed without any fault |
| ClientRecord.ForceBeforeRecord | client/src/client.cc:11-23 | in "-f <record>" the space after the flag stays, so the record keeps one leading space |
| ClientRecord.KeyEndFurthest | client/src/client.cc:3 | the key group extends as far as a type and a value can still follow it, as a greedy `\S+` does |
| ClientRecord.MatchSplitSound | client/src/client.cc:3 | every split the record pattern returns is a valid way to read the text as blanks, key, blanks, type, blanks and value |
| ClientRecord.MatchSplitFirst | client/src/client.cc:3 | whenever some split exists, the pattern returns the one backtracking tries first |
| ClientRecord.MatchRecordMeaning | client/src/client.cc:3 | the pattern matches exactly when the text can be split as the pattern says, and then gives the first split in backtracking order |
| ClientRecord.SplitsAgree | client/src/client.cc:3 | all splits of a text agree on where the key starts, and splits with the same key end agree on where the type starts |
| ClientRecord.KeyStops | client/src/client.cc:3 | the key of any split ends at or before the first whitespace after the key starts |
| ClientRecord.FirstOfSpaced | client/src/client.cc:3 | when a split has whitespace after the key, the chosen split keeps that key and type start and takes the type as far as it can |
| ClientRecord.TypedRecord | client/src/client.cc:3 | a record typed as "key type value" with single spaces gives exactly those three groups |
| ClientRecord.MissingValue | client/src/client.cc:3 | "key type" with no value still matches: backtracking gives the type's last character to the value group |
| ClientApp.Connect | client/src/client.cc:92-126 | each connection attempt uses up one attempt; the client is connected afterwards exactly when it already was or the server accepted; the socket is the accepted descriptor, or -1; one log line is written, at INFO exactly when the attempt succeeded |
| ClientApp.Close | client/src/client.cc:211-224 | after closing, the client is disconnected with socket -1; "Disconnected from server" is logged only when a socket was open |
| ClientApp.CloseIdempotent | client/src/client.cc:211-224 | closing an already closed connection changes nothing and logs nothing |
| ClientApp.Reconnect | client/src/client.cc:128-137 | a reconnect closes the connection and makes one new attempt; the client ends connected exactly when that attempt is accepted |
| ClientApp.SendOnlyConnected | client/src/client.cc:190-209 | a message is sent, as the last event and only once, exactly when the client ends up connected; a connected client just sends, and a disconnected one first spends one reconnect attempt |
| ClientApp.ConnectionStaysValid | client/src/client.cc:92-137 | closing, reconnecting and sending keep the socket consistent with the connected flag |
| ClientApp.Displayed | client/src/client.cc:163-169 | the printed text is the received bytes up to the first NUL, with at most one final '\n' removed |
| ClientApp.OneNewlineDropped | client/src/client.cc:165-168 | of two trailing newlines, only one is removed |
| ClientApp.ReceiveDisconnects | client/src/client.cc:154-188 | the receive loop ends disconnected exactly when the server closed the connection or `recv` failed with something other than "would block" |
| ClientApp.AllLines | client/src/client.cc:29-33 | `get all` prints one line per record, in order |
| ClientApp.WriteEvents | client/src/client.cc:49-84 | a write keeps the number of files and each file's agreement between order and map |
| ClientApp.WriteMatched | client/src/client.cc:62-83 | writing matched fields keeps the database consistent |
| ClientApp.WriteGoesThroughModify | client/src/client.cc:49-84 | an unmatched record prints the format error and writes nothing; a matched one gives the database exactly the effect of `modify` on the three groups, with force set exactly when the input held "-f" |
| ClientApp.DbEvents | client/src/client.cc:261-282 | `handleDatabaseCommands` faults exactly on a "write" command shorter than six characters (`substr(6)` throws); commands other than write leave the database unchanged |
| ClientApp.ShortWriteFaults | client/src/client.cc:276 | "write" alone faults, while "write " does not |
| ClientApp.PrefixesDiffer | client/src/client.cc:310-334 | the "server ", "clear" and "db " prefixes exclude one another, so the order of the tests does not matter among them |
| ClientApp.ClassifyMeaning | client/src/client.cc:302-339 | "exit" quits; a "server " prefix forwards the text after its seven characters; an empty line is ignored; "help", "clear…" and "info" are local; a "db " prefix passes the text after its three characters to the database handler; each holds in both directions |
| ClientApp.Respond | client/src/client.cc:302-339 | a command never ends in load failure; it exits exactly on quit; it faults only on a short db write; only db commands change the database and only server commands change the connection |
| ClientApp.LineStep | client/src/client.cc:296-340 | each round prints the prompt first and keeps the database consistent |
| ClientApp.LineStepMeaning | client/src/client.cc:296-340 | a typed line ends the loop exactly when it is "exit"; it faults only as "db write" shorter than nine characters; only "db " lines change the database and only "server " lines change the connection |
| ClientApp.Session | client/src/client.cc:296-340 | the input loop keeps the number of files and each file's agreement between order and map |
| ClientApp.SessionAt | client/src/client.cc:296-340 | the loop handles one line and continues with the rest only while still running |
| ClientApp.SessionEndsAtExit | client/src/client.cc:302-307 | lines after "exit" are never read |
| ClientApp.SessionWithoutDb | client/src/client.cc:296-340 | without "db " and "server " lines, neither the database nor the connection changes |
| ClientApp.Run | client/src/client.cc:284-343 | the whole run of `start`: the database load, whose failure logs and stops, then the connection and the input loop over the loaded files |
| ClientApp.ExitDisconnects | client/src/client.cc:284-343 | a client that exits normally had loaded its database and ends disconnected, with socket -1 |
| ClientApp.LoadFailureStops | client/src/client.cc:226-241 | when the database fails to load, the client logs two errors and stops without touching the connection |
| ClientApp.Client.constructor | client/src/client.cc:86-90 | a new client is not running and not connected, with socket -1; its only events are the two calls of `initLogger` (client.cc lines 5-9): the log file is enabled and the shared priority set to ERROR |
| ClientApp.Client.ConnectToServer | client/src/client.cc:92-126 | the connection and the log follow one connection attempt |
| ClientApp.Client.CloseConnection | client/src/client.cc:211-224 | the connection and the log follow closing |
| ClientApp.Client.ReconnectToServer | client/src/client.cc:128-137 | the connection and the log follow a reconnect |
| ClientApp.Client.SendMessage | client/src/client.cc:190-209 | the connection and the events follow sending: reconnect when disconnected, send only when connected |
| ClientApp.Client.CommunicationLoop | client/src/client.cc:154-188 | the receive loop prints each chunk as displayed text, and leaves the connected flag as the received results decide |
| ClientApp.Client.HandleGetCommand | client/src/client.cc:25-47 | "all" prints every record; any other key prints its record, or logs the error; the connection and the database stay unchanged |
| ClientApp.Client.HandleGetOne | client/src/client.cc:35-46 | one key prints its record when found and logs the error otherwise |
| ClientApp.Client.PrintLines | client/src/client.cc:29-33 | each record goes on its own line |
| ClientApp.Client.HandleWriteCommand | client/src/client.cc:49-84 | the events and the new database are those of the write on the input |
| ClientApp.Client.WriteFields | client/src/client.cc:56-83 | a matched record is written through `modify`; success is logged at INFO, "on disk" or "on RAM", and a failure at ERROR |
| ClientApp.Client.HandleDatabaseCommands | client/src/client.cc:261-282 | the events and the database follow the db handler; a fault changes nothing and is reported |
| ClientApp.Client.HandleLine | client/src/client.cc:296-340 | one round of the input loop: prompt, classification and response |
| ClientApp.Client.HandleCommand | client/src/client.cc:309-339 | the events, the connection, the database and the status follow the response to the classified command |
| ClientApp.Client.HandleServerCommand | client/src/client.cc:310-314 | a "server " line is sent on, reconnecting when disconnected |
| ClientApp.Client.HandleDbCommand | client/src/client.cc:331-334 | a "db " line goes to the db handler |
| ClientApp.Client.HandleLocalCommand | client/src/client.cc:315-339 | local commands print or clear the screen, change no connection, and only "exit" stops |
| ClientApp.Client.Loop | client/src/client.cc:296-340 | the input loop over the typed lines follows the session |
| ClientApp.Client.LoadDatabase | client/src/client.cc:226-241 | it succeeds exactly when `init` on the client's database directory raises nothing; the managers then hold the loaded files |
| ClientApp.Client.Start | client/src/client.cc:284-343 | the whole run is fixed by the directory, the network and the typed lines: load the database, connect, then the input loop |
| ClientApp.Client.ServeLoaded | client/src/client.cc:287-343 | after loading: connect and start receiving, run the input loop, and close on exit |
| Logging.ToString | logging/inc/logger.h:150-208 | the `toString` overloads: a scalar streams as its text, a range as "[a, b, …]", a pair as "(a, b)", a tuple as "(a, b, …)"; each element is converted recursively |
| Logging.Texts | logging/inc/logger.h:182-196 | the range overload converts each element, in order, with `toString` |
| Logging.RangeText | logging/inc/logger.h:182-196 | a range becomes "[" + its elements' texts joined by ", " + "]", and an empty range becomes "[]" |
| Logging.RangeToString | logging/inc/logger.h:182-196 | the appending loop of the range overload yields the bracketed, comma-joined text |
| Logging.CommaAllJoin | logging/inc/logger.h:159-174 | appending ", " after every element is the comma-join followed by one ", " |
| Logging.TupleJoin | logging/inc/logger.h:159-174 | dropping the last two characters then gives "(" + the elements joined by ", " + ")" |
| Logging.PairIsTuple | logging/inc/logger.h:176-180 | a pair is written exactly as the two-element tuple, "(first, second)" |
| Logging.Stringify | logging/inc/logger.h:209-216 | `stringify` streams each argument's `toString` in order, with no separator; `StringifyAppend` and `StringifyOne` state it |
| Logging.StringifyAppend | logging/inc/logger.h:209-216 | `stringify` of two argument lists is the concatenation of their texts, with no separator |
| Logging.StringifyOne | logging/inc/logger.h:209-216 | `stringify` of one argument is that argument's `toString` |
| Logging.BoolScalar | logging/inc/logger.h:150-156 | a `bool` streams as "1" or "0" |
| Logging.StringifyBool | logging/inc/logger.h:209-216 | `stringify(true)` is "1" and `stringify(false)` is "0" |
| Logging.Rank | logging/inc/logger.h:24-32 | the six priorities have the enumerator values 0..5, from TRACE to FATAL |
| Logging.EmitsIffAtMost | logging/src/logger.cc:86-124 | a level method emits exactly when its level is at most the shared priority; `trace` always emits, `fatal` emits only at priority FATAL, and at the default INFO only trace, debug and info emit |
| Logging.LevelNamesDistinct | logging/src/logger.cc:86-124 | the six level names written into records are distinct |
| Logging.Logger.LogAt | logging/src/logger.cc:86-124 | a level method appends one record to the file when it emits and the file is selected and open, or to stdout when it emits and stdout is selected; otherwise it writes nothing |
| Logging.LastDot | logging/src/logger.cc:11 | `find_last_of(".")` finds the last '.' in the name, or none when there is no '.' |
| Logging.OpenErrorMeaning | logging/src/logger.cc:9-20 | construction succeeds exactly when the name ends in ".log" and the file opens; a name without any '.' raises `std::out_of_range`; any other suffix raises INVALID_LOG_FILE_EXTENSION |
| Logging.Logger.Opened | logging/src/logger.cc:9-20 | a successfully constructed logger writes to its file, with nothing written yet |
| Logging.Logger.Create | logging/src/logger.cc:9-20 | it fails exactly when the name or the file is refused, with that error; otherwise a new logger writes to the file |
| Logging.LogStr | logging/src/logger.cc:54-61 | a record is "[time] [LEVEL] {\"file:line\", \"message\"}" followed by one newline |
| Logging.LogStrIsOneLine | logging/src/logger.cc:54-61 | a record starts with "[time] [LEVEL] {\"" and ends in '\n', and it has no other line break when its parts have none |
| Logging.SharedPriority.constructor | logging/src/logger.cc:7 | the shared priority starts at INFO |
| Logging.Logger.EnableLogFile | logging/src/logger.cc:76-79 | the flag selects the file (true) or stdout (false), and nothing is written |
| Logging.Logger.SetPriority | logging/src/logger.cc:81-84 | the shared priority becomes the given level |
| Logging.PriorityIsShared | logging/src/logger.cc:81-84 | a priority set through one logger gates every other logger that shares it |
| Logging.Logger.Close | logging/src/logger.cc:29-35 | the file ends closed with its contents kept, and closing a closed logger changes nothing |
| Logging.Logger.Log | logging/src/logger.cc:63-74 | one record goes to the file, flushed, when the file is selected and open, and to stdout when stdout is selected |
| Carriers.SetUp | server/src/carrier.cc:10-22 | a set-up succeeds exactly when the carrier is inactive; success activates it with the new network and keeps the frequency, failure changes nothing |
| Carriers.SecondSetUpFails | server/src/carrier.cc:10-22 | without a release in between, a second set-up fails and the first network stays |
| Carriers.ReleaseAllowsSetUp | server/src/carrier.cc:39-44 | after a release a set-up succeeds again, whatever came before |
| Carriers.CheckSupportedCarrier | server/src/carrier.cc:51-62 | the `find` of the network in the supported-carriers text succeeds, so a supported name is never longer than that text; `SupportedIsSubstring` and `EmptyNetworkSupported` state what it accepts |
| Carriers.SupportedIsSubstring | server/src/carrier.cc:51-62 | a network is supported exactly when it occurs somewhere in the supported-carriers text |
| Carriers.EmptyNetworkSupported | server/src/carrier.cc:58 | the empty network name is always supported |
| Carriers.FragmentsSupported | server/src/carrier.cc:51-62 | against "2G 3G", the fragments "G" and "G 3" pass as well as "2G", while "4G" does not |
| Carriers.CheckSupportedFrequency | server/src/carrier.cc:64-78 | the frequency lies between the configured low and high frequencies, both included |
| Carriers.FrequencyRangeInclusive | server/src/carrier.cc:64-78 | both ends of the configured range pass, and the neighbours just outside it do not |
| Carriers.Carrier.constructor | server/src/carrier.cc:3-8 | a new carrier is inactive, with no network and frequency 0 |
| Carriers.Carrier.SetNetwork | server/src/carrier.cc:10-22 | the new state and the result are those of `SetUp`; the frequency is untouched |
| Carriers.Carrier.GetNetwork | server/src/carrier.cc:24-27 | returns the current network |
| Carriers.Carrier.SetFrequency | server/src/carrier.cc:29-32 | overwrites the frequency whatever the status, and changes nothing else |
| Carriers.Carrier.GetFrequency | server/src/carrier.cc:34-37 | returns the current frequency |
| Carriers.Carrier.ReleaseCarrier | server/src/carrier.cc:39-44 | from any state, back to the initial state |
| Carriers.Carrier.GetCarrierStatus | server/src/carrier.cc:46-49 | returns whether the carrier is active |
| Modulation.SamplesPerBit | server/src/modulator.cc:41-46 | the samples per bit are the quotient of the sample rate by the bit rate in `unsigned int` arithmetic, so they fit an `unsigned int` |
| Modulation.SamplesPerBitOfRate | server/src/modulator.cc:45 | for a sample rate that fits an `int`, the samples per bit are the largest count whose total rate does not exceed the sample rate |
| Modulation.NegativeRateWraps | server/src/modulator.cc:45 | a negative sample rate is first converted to unsigned, so -1 at rate 1 gives 2^32 - 1 samples per bit |
| Modulation.SchemeDispatch | server/src/modulator.cc:354-373 | "2G" selects ASK, "3G" PSK, "4G" FSK and "5G" 16-QAM, each in both directions; every other tag selects no scheme |
| Modulation.ModulatedLength | server/src/modulator.cc:354-373 | the keyed schemes give samplesPerBit samples per bit, 16-QAM gives samplesPerBit per group of four bits, and an unknown tag gives an empty signal |
| Modulation.SignalValue | server/src/modulator.cc:53-58 | `getSignalValue`: the amplitude index times the carrier amplitude times the cosine of the angle for the frequency index, tick and phase |
| Modulation.KeyedWave | server/src/modulator.cc:76-84 | a keyed signal has exactly samplesPerBit samples for every bit |
| Modulation.KeyedWindow | server/src/modulator.cc:76-84 | every sample in bit i's window is built from the parameter bit i selects, the "one" value exactly for '1', at that sample's own tick |
| Modulation.BinaryPairsInRange | server/src/modulator.cc:234-235 | for a binary string every digit pair indexes the four-entry level table |
| Modulation.GroupDigits | server/src/modulator.cc:234-235 | each group read holds four digits |
| Modulation.Symbols | server/src/modulator.cc:220-241 | a valid input gives one symbol per group of four bits |
| Modulation.SymbolsStep | server/src/modulator.cc:231-238 | each loop pass appends the symbol of the next four-bit group |
| Modulation.SymbolLevels | server/src/modulator.cc:197-218 | symbol m has I = IQ_VALUES[2·b0+b1] and Q = IQ_VALUES[2·b2+b3] of its group |
| Modulation.LevelsDistinct | server/src/modulator.cc:213-214 | the four levels of the table are pairwise distinct |
| Modulation.PairIndexInjective | server/src/modulator.cc:213-214 | the index 2·b0+b1 determines both bits |
| Modulation.MapToConstellation | server/src/modulator.cc:197-218 | a four-bit group's I level is IQ_VALUES at the index of its first bit pair and its Q level the entry for its second pair; `GroupSymbolOfBinary` and `ConstellationInjective` state it |
| Modulation.GroupSymbolOfBinary | server/src/modulator.cc:213-214 | a binary group's symbol is read off its two pair indices, both inside the table |
| Modulation.ConstellationInjective | server/src/modulator.cc:197-218 | distinct four-bit groups map to distinct symbols, so the constellation has sixteen points |
| Modulation.QamWave | server/src/modulator.cc:250-265 | a 16-QAM signal has samplesPerBit samples per symbol |
| Modulation.LastMatch | server/src/modulator.cc:288-294 | the table scan keeps the last index whose level is within 1e-6 of the input, and finds none when no level is that close |
| Modulation.NormalizeIQ | server/src/modulator.cc:271-276 | the result is a grid point (2k+1)/4 lying within 1/4 of the level: the centre of the half-unit cell the level falls in |
| Modulation.NormalizeTable | server/src/modulator.cc:271-276 | normalising leaves each table level unchanged |
| Modulation.LevelBits | server/src/modulator.cc:278-300 | each table level maps back to its own index's bit pair |
| Modulation.TableInverts | server/src/modulator.cc:278-300 | the bit-pair table inverts the level table: the level selected by "b0b1" demaps to "b0b1" |
| Modulation.SymbolBitsRange | server/src/modulator.cc:278-300 | a level demaps to a bit pair exactly when it lies in [-1, 1), and otherwise to "" |
| Modulation.SymbolBitsIsGrid | server/src/modulator.cc:271-294 | the table scan picks exactly the grid cell of width 1/2 that the level lies in |
| Modulation.CellBitsOfLevel | server/src/modulator.cc:319-334 | deciding the cell from the correlation sum and the sample count agrees with deciding it from their average |
| Modulation.DemapOfSum | server/src/modulator.cc:319-338 | what the demapping gives for the scaled average is the cell decided on the sum |
| Modulation.Noisy | server/src/modulator.cc:60-68 | adding noise keeps the signal's length |
| Modulation.WindowEnd | server/src/modulator.cc:97 | a window starts at its start index and ends at most samplesPerBit later, cut at the signal's end by the `bitIdx + sampleIdx < size` guard |
| Modulation.KeyedDecision | server/src/modulator.cc:89-195 | every window decides '0' or '1'; ASK gives '1' exactly when the window's mean magnitude exceeds the zero amplitude; PSK gives '0' exactly when the correlation with the zero phase is greater, FSK gives '1' exactly when the correlation with the one frequency is greater, so a tie gives '1' for PSK and '0' for FSK |
| Modulation.KeyedBitsCount | server/src/modulator.cc:94-103 | a keyed demodulator emits one character per window, ceil(n / samplesPerBit) in all, counting the last partial window |
| Modulation.KeyedBitsAt | server/src/modulator.cc:130-149 | character w of the output is the decision for the window starting at w·samplesPerBit |
| Modulation.QamWindowOf | server/src/modulator.cc:306-339 | a 16-QAM window gives the I bits followed by the Q bits, and counts each level that matched no point |
| Modulation.QamAccumulate | server/src/modulator.cc:306-339 | appending each window's result to what came before builds the total decoded output |
| Modulation.KeyedRoundTripLength | server/src/modulator.cc:70-195 | demodulating a keyed, noisy signal of n bits with the same settings gives exactly n characters |
| Modulation.MapBitsToSymbols | server/src/modulator.cc:220-241 | a length that is not a multiple of 4 raises `invalid_argument` before any symbol is produced; otherwise the result is one symbol per group |
| Modulation.MapSymbolToBits | server/src/modulator.cc:278-300 | the bits of a level are the bit pair of its grid cell, or "" when it matches no point |
| Modulation.RandomBinaryMessage | server/src/modulator.cc:343-352 | the generated message has exactly `length` characters (none when `length` is not positive), each '0' or '1' |
| Modulation.Modulator.constructor | server/src/modulator.cc:6-9 | a new modulator holds the configured cosine, signs and sample rate, and no input bits |
| Modulation.Modulator.SetFrequency | server/src/modulator.cc:41-46 | it sets the carrier frequency, the bit rate to the frequency truncated to an unsigned integer, and samplesPerBit to the sample rate divided by that bit rate |
| Modulation.Modulator.SetBinaryInput | server/src/modulator.cc:48-51 | it replaces the input bits and nothing else |
| Modulation.Modulator.AddNoise | server/src/modulator.cc:60-68 | every sample moves by its own draw, in place |
| Modulation.Modulator.KeyedModulation | server/src/modulator.cc:70-87 | the new signal is the keyed wave of the input bits plus noise |
| Modulation.Modulator.QamModulation | server/src/modulator.cc:243-268 | it fails exactly when the input length is not a multiple of 4; otherwise the signal is the symbols' wave plus noise |
| Modulation.Modulator.Modulate | server/src/modulator.cc:354-373 | the signal is the one the tag's scheme produces; only 16-QAM with a bad length fails |
| Modulation.Modulator.AbsWindow | server/src/modulator.cc:96-101 | the inner ASK loop sums the magnitudes over exactly one window |
| Modulation.Modulator.CorrelateWindow | server/src/modulator.cc:134-142 | the inner loop accumulates both correlations over exactly one window |
| Modulation.Modulator.KeyedWindowBit | server/src/modulator.cc:130-148 | one pass of the window loop decides that window's bit |
| Modulation.Modulator.KeyedDemodulation | server/src/modulator.cc:89-105 | the window loop gives the keyed demodulation of the whole signal |
| Modulation.Modulator.QamWindowBits | server/src/modulator.cc:308-338 | one 16-QAM window gives its decoded bits and its count of unmatched levels |
| Modulation.Modulator.QamStep | server/src/modulator.cc:306-339 | one pass of the 16-QAM loop moves one window forward and keeps what has been decoded consistent with the total |
| Modulation.Modulator.QamDemodulation | server/src/modulator.cc:302-341 | the loop gives the 16-QAM demodulation of the whole signal |
| Modulation.Modulator.Demodulate | server/src/modulator.cc:375-394 | the bits are those the tag's scheme demodulates, and "" for an unknown tag |
| Antennas.StoredValue | database/src/inMemDatabase.cc:152-169 | a key that no file holds is answered with KEY_NOT_FOUND |
| Antennas.AnswerOfChar | antenna/src/antenna.cc:52-66 | a text record found first comes back as its text, with nothing logged |
| Antennas.AnswerNoneIffDbError | antenna/src/antenna.cc:52-66 | `getValue` gives no value exactly when the lookup raised a database exception; a non-database exception from the conversion is not caught |
| Antennas.AnswerOfOtherType | antenna/src/antenna.cc:56-59 | a record of another type gives "" rather than no value, and the variant error is printed |
| Antennas.AnswerOfMissingKey | antenna/src/antenna.cc:61-65 | a key that no file holds gives no value, and "Error when loading database: " with the message is logged at ERROR |
| Antennas.PlotFileKey | antenna/src/antenna.cc:10-18 | the plotting script key is "/plotFFT" exactly when a spectrum is asked for, and "/plotFile" otherwise |
| Antennas.DataKeys | antenna/src/antenna.cc:19-23 | four keys are looked up |
| Antennas.Fetched | antenna/src/antenna.cc:25-29 | without an escaping exception, each key gets one answer |
| Antennas.FetchedValues | antenna/src/antenna.cc:25-29 | each key's entry is exactly that key's `getValue` answer |
| Antennas.NoShellWhileFetching | antenna/src/antenna.cc:25-29 | the lookups never run a command |
| Antennas.FetchedStep | antenna/src/antenna.cc:26-29 | each further key extends the answers so far, or ends the loop when its lookup escapes |
| Antennas.FetchedEscapeStays | antenna/src/antenna.cc:26-29 | once a lookup escapes, no later key is looked up |
| Antennas.PlotCommand | antenna/src/antenna.cc:38-39 | the command text "python3 <plot> --output <out> --input <in> --fs <fs>"; `PlotCommandJoins` and `PlotCommandWords` state it |
| Antennas.PlotCommandJoins | antenna/src/antenna.cc:38-39 | the command is "python3 <plot> --output <out> --input <in> --fs <fs>": its eight words joined by single spaces |
| Antennas.PlotCommandWords | antenna/src/antenna.cc:38-39 | when every value is one word, the shell splits the command back into the script and its three options, in that order |
| Antennas.AllPresentFour | antenna/src/antenna.cc:31-32 | the guard passes exactly when all four values are present |
| Antennas.Visualization | antenna/src/antenna.cc:8-50 | `visualizeData`: the four lookups, stopped by an escaping exception, then the missing-data error or the command and its outcome log; `ShellIffAllPresent` states it |
| Antennas.ShellIffAllPresent | antenna/src/antenna.cc:31-49 | a command is run exactly when no lookup escaped and all four values are present; otherwise the missing-data error is logged and nothing is run |
| Antennas.ShellCommandOfValues | antenna/src/antenna.cc:38-41 | the command run is built from the values of the plot key, "/output", "/input" and "/fs" |
| Antennas.Antenna.constructor | antenna/src/antenna.cc:3-6 | the constructor switches the server log to its file |
| Antennas.Antenna.GetValue | antenna/src/antenna.cc:52-66 | the answer and the events are those of the lookup's outcome |
| Antennas.Antenna.VisualizeData | antenna/src/antenna.cc:8-50 | the events are the four lookups followed by the missing-data error, or by the command and its success or failure log |
| Antennas.Antenna.ShowPlot | antenna/src/antenna.cc:31-49 | after the lookups: the missing-data error, or the command and its outcome |
| Antennas.Antenna.FetchValues | antenna/src/antenna.cc:25-29 | the loop fills the values one key at a time, in key order |
| Antennas.Antenna.RandomBinaryMessage | antenna/src/antenna.cc:68-78 | the message has exactly `length` characters (none when `length` is not positive), each '0' or '1', and it is echoed after "Generated data: " |
| RadioServer.EchoIffUnknownFirstWord | server/src/server.cc:294-411 | a request is echoed back exactly when its first word is none of `db`, `carrier`, `DL`, `UL`, including when it has no word at all |
| RadioServer.ParseTypedSetup | server/src/server.cc:310-316 | `carrier setup <network> <frequency>` typed with single words reads back as that network and that frequency |
| RadioServer.ParseTypedDownlink | server/src/server.cc:335-343 | `DL <data>` typed with a single word reads back as that data |
| RadioServer.ParseShortCarrier | server/src/server.cc:310-334 | a bare `carrier` is an invalid carrier command; `carrier setup <network>` without a frequency reads as a set-up whose frequency is empty |
| RadioServer.ParseDbOther | server/src/server.cc:296-309 | `db <verb> <key>` with any verb other than `get` is not a get |
| RadioServer.ExtractWord | server/src/server.cc:294-316 | each `>>` delivers the next word of the request, or leaves its target as it was once the words have run out |
| RadioServer.ReadRequest | server/src/server.cc:287-316 | the chain of `>>` extractions reads the same request as the word-level reference reading |
| RadioServer.IsBinaryString | server/src/server.cc:545-555 | true exactly when every character is '0' or '1' (so also for the empty string) |
| RadioServer.PrintedLines | server/src/server.cc:480-487 | the text of the console's record lines is the records, each followed by a newline |
| RadioServer.ClientReplyIsConsoleText | server/src/server.cc:477-498 | the reply to `db get` is what the database console prints for the same key, except that a failed lookup replies with the empty string |
| RadioServer.TerminatedAppend | server/src/server.cc:483-486 | the reply for two lists of records is the concatenation of their replies |
| RadioServer.Server.AllRecordsReply | server/src/server.cc:480-487 | the reply to `db get all` is every record of every file, each on its own line |
| RadioServer.Server.HandleClientGetDBCommand | server/src/server.cc:477-498 | reply and console output are those of the lookup of the key; nothing else changes |
| RadioServer.NetworkSetUp | server/src/server.cc:500-523 | the outcome of `setNetworkForServer`: the supported set-up, the request to release first, the range message, or the unsupported message with its ERROR log; `SetUpActivatesIffSupported`, `SetUpKeepsActiveCarrier` and `FrequencyCheckFirst` state it |
| RadioServer.SetUpActivatesIffSupported | server/src/server.cc:500-523 | an inactive carrier becomes active exactly when both network and frequency are supported, and then holds that network and the frequency taken modulo 2^64; otherwise it is unchanged |
| RadioServer.SetUpKeepsActiveCarrier | server/src/server.cc:507-513 | an active carrier is never changed by a set-up; a valid one is told to remove the old network first |
| RadioServer.FrequencyCheckFirst | server/src/server.cc:515-516 | an out-of-range frequency gives the range message, logs nothing and changes nothing, whether or not the network is supported |
| RadioServer.Server.SetNetworkForServer | server/src/server.cc:500-523 | carrier state, message and log are those of the set-up outcome, with the unsupported network logged in the bracketed form `stringify` gives a `const std::string` |
| RadioServer.Server.HandleCarrierSetup | server/src/server.cc:312-324 | carrier state, reply and log are those of `carrier setup`: missing word, unparsable frequency, or the set-up outcome (its unsupported-network log in the bracketed form) |
| RadioServer.UnsupportedLogText | server/src/server.cc:519 | the unsupported-network log is the prefix, then the name's characters separated by ", " inside brackets, then "!" |
| RadioServer.UnsupportedLogOf4G | server/src/server.cc:519 | for "4G" the log reads "The server do not support [4, G]!" |
| RadioServer.SaveInputOutcomes | server/src/server.cc:525-543 | without an "/input" record the server stops; with a text record the file it names is the one tried |
| RadioServer.Server.SaveInputFile | server/src/server.cc:525-543 | the outcome and the events are those of the "/input" lookup and of whether the file opens |
| RadioServer.LooksUpIff | server/src/server.cc:363-405 | the lookups a transmission makes are exactly those over the current database files |
| RadioServer.DownlinkChecksInOrder | server/src/server.cc:335-353 | the first failing check (no carrier, no data, not binary) decides the reply and nothing is printed or logged |
| RadioServer.DownlinkRepliesEmpty | server/src/server.cc:354-375 | a downlink that gets past its checks and does not crash replies with the empty string |
| RadioServer.Server.PlotDownlink | server/src/server.cc:366-370 | whether the plot stopped the server, and its events |
| RadioServer.Server.ShowDownlink | server/src/server.cc:366-374 | the save, then the plot on success or the error log on failure |
| RadioServer.Server.TransmitDownlink | server/src/server.cc:363-375 | the modulator is tuned to the data and the carrier's frequency; reply and events are those of the transmission |
| RadioServer.Server.HandleDownlink | server/src/server.cc:335-377 | reply and events are the downlink outcome; the modulator is retuned exactly when the data is transmitted |
| RadioServer.UplinkLengthFits | server/src/server.cc:385-388 | the 5G uplink generates whole 4-bit symbols |
| RadioServer.UplinkWaveFits | server/src/server.cc:389-394 | the modulated and noisy uplink wave is one the demodulator can take |
| RadioServer.UplinkKeepsLength | server/src/server.cc:389-394 | on 2G, 3G and 4G the demodulated text has one character per generated bit |
| RadioServer.Server.PlotUplink | server/src/server.cc:395-399 | the spectrum plot's events, then the two info logs unless the plot stopped the server |
| RadioServer.Server.ShowUplink | server/src/server.cc:395-405 | the save, then the plot or the error log, then the generated bits logged |
| RadioServer.Server.Exchange | server/src/server.cc:392-394 | the demodulated result is that of modulating the input, adding noise again and demodulating |
| RadioServer.Server.TransmitUplink | server/src/server.cc:390-406 | the modulator keeps the generated bits and is tuned to the carrier's frequency; reply and events are the uplink's |
| RadioServer.Server.HandleUplink | server/src/server.cc:378-407 | without a carrier only the set-up reply and no change; otherwise the uplink outcome for freshly generated bits of the right length |
| RadioServer.OnlyCarrierCommandsChangeCarrier | server/src/server.cc:284-413 | only `carrier setup` and `carrier release` change the carrier |
| RadioServer.OnlyGetTouchesConsole | server/src/server.cc:296-309 | only `db get` prints on the database console; a client never writes to the database |
| RadioServer.DbOtherRefused | server/src/server.cc:305-308 | a `db` request other than `get` is refused with its message and changes nothing |
| RadioServer.MissingSetupRefused | server/src/server.cc:317-321 | a set-up lacking its network or its frequency is refused with its message and changes nothing |
| RadioServer.ReleaseResets | server/src/server.cc:325-329 | `carrier release` puts the carrier back to its initial state from any state and always says so; releasing twice is releasing once |
| RadioServer.HandledDeterministic | server/src/server.cc:284-413 | apart from the uplink's random bits, reply and new state are determined by the request and the old state |
| RadioServer.UplinkGeneratesBits | server/src/server.cc:380-391 | `UL` without a carrier only asks for one and changes nothing; with a carrier the modulator's new input is 13 random bits, 52 on 5G |
| RadioServer.UplinkReplyLength | server/src/server.cc:378-407 | an uplink on 2G, 3G or 4G that completes replies with 13 characters |
| RadioServer.Server.HandleClientCommand | server/src/server.cc:284-413 | reply and the new carrier, modulator, log and console are those the request's words select, as the `Handled` relation and the lemmas about it state |
| RadioServer.ReceiveBuffer | server/src/server.cc:417-427 | the 1024-character buffer holds the received text followed by NULs only |
| RadioServer.CStringOfTerminated | server/src/server.cc:427-430 | the text read from the terminated buffer is the received text up to its first NUL |
| RadioServer.CStringBeforeNul | server/src/server.cc:427-430 | whatever follows a NUL does not reach the string |
| RadioServer.CStringAtNul | server/src/server.cc:427 | a terminator at the end changes nothing |
| RadioServer.TransmissionOfPlainReply | server/src/server.cc:433-438 | a reply shorter than the buffer and without NUL goes out exactly as it is |
| RadioServer.TransmissionCutAtNul | server/src/server.cc:433-438 | a reply with a NUL inside is sent cut there, padded to its length with the terminator and old buffer contents |
| RadioServer.EchoSentBack | server/src/server.cc:430-438 | an echoed request goes back as the text the server read |
| RadioServer.Server.constructor | server/src/server.cc:31-39 | a new server has a fresh, inactive carrier |
| RadioServer.Server.HandleClient | server/src/server.cc:415-448 | a closed connection and a receive error are only logged; a full 1024-byte read overruns the buffer; otherwise the received text is logged, handled as the request semantics says, and the reply sent as `strcpy` and `send` leave it |

## Left out

- Configuration lookups. The carrier checks read `/supportedCarriers` and the frequency bounds (server/src/carrier.cc:51-77), and `Modulator::readDatabase` reads the decision parameters and the sample rate, converting the PSK phases from degrees (server/src/modulator.cc:19-39). The model takes all of these as a `CarrierConfig`, a `Signs` record and a `sampleRate` parameter, because they are database reads of fixed configuration.
- The server's start-up: `initLogger`, `initDB`, `init` and `start` (server/src/server.cc:13-29, 46-227). These cover the epoll loop, the sockets and the threads, which are network I/O and concurrency. The constructor starts from an already loaded database instead.
- The administrator console thread, `handleCommand` and `handleDBCommand` (server/src/server.cc:229-282, 450-475), which is terminal I/O on a second thread. Its `db` commands are the console program, which is modelled in `CommandLine`.
- The unguarded sharing of the carrier between the client threads and the console thread, because it is concurrency.
- The sample values `saveInputFile` writes to the file (server/src/server.cc:537-540), because floating-point output formatting is not modelled. The model keeps which file is opened and whether it opens.
- The two-argument `Modulator` constructor (server/src/modulator.cc:11-17), which nothing calls.
- `Logger::operator=`, which reopens a file (logging/src/logger.cc:22-27), and the destructor's `close`, because both are file-stream I/O. The clock behind `getCurrentTime` is a time-stamp parameter.
- Seeding and drawing random numbers (`srand`, `rand`, `time`, `default_random_engine`). Noise draws are a parameter, and random bits are a nondeterministic choice.
- Floating point. Sample values are reals built from an uninterpreted cosine, and it is not modelled that they are doubles. The integer overflow of `normalizeIQ`'s rounding and the width of the `int` loop counters are not modelled either.
- Streams.GetLine: a good stream at its end is taken to have eofbit set, so the target is kept; `std::getline` on a good stream at its end without eofbit (a fresh stream over "") erases the target instead. The two callers only reach the end after a `>>` that set eofbit.
- DataValues.GetValue: the f32 variant carries the stored text, not a `float`; the exceptions `std::stof` can throw (database/src/dataValue.cc:106) are not modelled. Stored f32 values are the float formatter's output, which the model leaves abstract.
- Client networking details: `setSocketNonblocking`, the receive thread, the sleeps, failures of `send` and `perror`, and the `inet_pton` branch. `inet_pton` is called on a constant address and cannot fail. `exit(1)` becomes the `Failed` status.
- C++ overload resolution of `toString` as such. Each modelled call site states the overload its arguments take, through the `Loggable` datatype. At server/src/server.cc:519 the network is a `const std::string`, so it takes the container overload and prints as a bracketed list of characters. At the other call sites the arguments print as stream text.
- Database.InMemDatabase.Modify: does not pass on the `std::cerr` message of a failed `saveLine`, because the console models would need it threaded through every write step. `Files.FileManager.SaveLine` returns that message and `Database.InMemDatabase.ModifyAt` discards it.
- `readline`, its history and signal handling in database/src/commandLine.cc, because they are terminal I/O.
- `handleInitDB` on a path that never loads. The source prompts forever; the model ends as `Spins` once the typed input is used up.
- End of standard input in the client. The source keeps reading; the model ends as `Running`.
- visualizer/src/visualizer.cc, FFT/plot_fft.py and antenna/src/plot_image.py. The visualizer is a `system()` wrapper that nothing in the core calls, and the scripts do numeric plotting. The antenna's command line is modelled and its execution is a recorded event.
- Files.FileManager.SaveLine: requires the key to be in the key order, because otherwise the source uses an uninitialised line index.
- Modulation.Modulator.Demodulate: requires a positive `samplesPerBit` for a non-empty signal, because with none the source's window loop never advances.
- Modulation.Modulator.KeyedDemodulation: requires a positive `samplesPerBit` for a non-empty signal, because with none the source's window loop never advances.
- Modulation.Modulator.QamDemodulation: requires the signal length to be a multiple of `samplesPerBit`, because otherwise the source's inner loop reads past the end of the vector.
- Modulation.Modulator.SetFrequency: requires a frequency that converts to a non-zero `unsigned`, because otherwise the source divides by zero or converts a double out of the range of `unsigned`. The server model turns that case into a `FrequencyUnusable` crash before the call.
- Modulation.MapBitsToSymbols: requires every bit pair to index the IQ table, which holds for binary input. The source's out-of-range read on other characters is not modelled.
- Modulation.Modulator.QamModulation: requires every bit pair to index the IQ table, as for `MapBitsToSymbols`.
- Modulation.Modulator.Modulate: requires every bit pair to index the IQ table on 5G, as for `MapBitsToSymbols`.
- Modulation.KeyedDecision: compares the sums as exact reals, not as rounded doubles.
- RadioServer.Server.HandleClient: requires a received length of at most 1024, which `recv` guarantees for this buffer.
- RadioServer.Server.Exchange: requires a binary modulator input, which is all the server ever gives it.
- RadioServer.Server.TransmitUplink: requires a binary modulator input, which is all the server ever gives it.
- ClientApp.Client.Start: requires a client that is not yet connected, which is the state `start` is called in.
- Carriers.Carrier.SetFrequency: requires a frequency below 2^64, the range of `size_t`. The server reduces modulo 2^64 before the call.
- CommandLine.CommandLineInterface.HandleGetOne: requires a key other than "all", because "all" has its own branch in the caller.
- ClientApp.Client.HandleGetOne: requires a key other than "all", because "all" has its own branch in the caller.
