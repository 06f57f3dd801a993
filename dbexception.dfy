/**
 * The database's exception kinds and their fixed messages. A `DBException` stores
 * the numeric value of its kind; `what()` maps each of the ten enumerators to its own
 * sentence and any other stored value to "Unknown database error.".
 */
module DbErrors {
  import opened Common

  datatype ExceptionType =
    | FAIL_TO_INIT_DB
    | INVALID_DIR
    | CAN_NOT_OPEN_DIR
    | CAN_NOT_OPEN_FILE_IN
    | CAN_NOT_OPEN_FILE_OUT
    | BAD_FORMATTING_LINE
    | KEY_NOT_FOUND
    | INVALID_TYPE
    | INVALID_TYPE_VALUE
    | NO_KEY_PROVIDED

  /** The enumerator's underlying value, in declaration order. */
  function Code(k: ExceptionType): (c: int)
    ensures 0 <= c < 10
  {
    match k
    case FAIL_TO_INIT_DB => 0
    case INVALID_DIR => 1
    case CAN_NOT_OPEN_DIR => 2
    case CAN_NOT_OPEN_FILE_IN => 3
    case CAN_NOT_OPEN_FILE_OUT => 4
    case BAD_FORMATTING_LINE => 5
    case KEY_NOT_FOUND => 6
    case INVALID_TYPE => 7
    case INVALID_TYPE_VALUE => 8
    case NO_KEY_PROVIDED => 9
  }

  /** The enumerator with a given underlying value, if there is one. */
  function KindOfCode(c: int): (r: Option<ExceptionType>)
    ensures r.Some? <==> 0 <= c < 10
    ensures r.Some? ==> Code(r.value) == c
  {
    if c == 0 then Some(FAIL_TO_INIT_DB)
    else if c == 1 then Some(INVALID_DIR)
    else if c == 2 then Some(CAN_NOT_OPEN_DIR)
    else if c == 3 then Some(CAN_NOT_OPEN_FILE_IN)
    else if c == 4 then Some(CAN_NOT_OPEN_FILE_OUT)
    else if c == 5 then Some(BAD_FORMATTING_LINE)
    else if c == 6 then Some(KEY_NOT_FOUND)
    else if c == 7 then Some(INVALID_TYPE)
    else if c == 8 then Some(INVALID_TYPE_VALUE)
    else if c == 9 then Some(NO_KEY_PROVIDED)
    else None
  }

  /** A thrown database exception: the value stored in `m_exceptionType`. */
  datatype DBException = DBException(exceptionType: int)

  /** `DBException(p_type)`: records the given kind. */
  function NewDBException(k: ExceptionType): (e: DBException)
    ensures KindOfCode(e.exceptionType) == Some(k)
  {
    DBException(Code(k))
  }

  /** The message of each kind. */
  function Message(k: ExceptionType): string
  {
    match k
    case FAIL_TO_INIT_DB => "Fail to init database."
    case INVALID_DIR => "Invalid directory."
    case CAN_NOT_OPEN_DIR => "Can not open the given directory."
    case CAN_NOT_OPEN_FILE_IN => "Can not open file from the given path to input."
    case CAN_NOT_OPEN_FILE_OUT => "Can not open file from the given path to output."
    case BAD_FORMATTING_LINE => "Bad formatting line."
    case KEY_NOT_FOUND => "Key not found in database."
    case INVALID_TYPE => "Type not supported."
    case INVALID_TYPE_VALUE => "Invalid value with the given type."
    case NO_KEY_PROVIDED => "No key provided."
  }

  const UNKNOWN_DB_ERROR: string := "Unknown database error."

  /** `what()`: the kind's message, or the fallback text for a value outside the enum. */
  function What(e: DBException): (m: string)
    ensures KindOfCode(e.exceptionType).Some? ==> m == Message(KindOfCode(e.exceptionType).value)
    ensures !(0 <= e.exceptionType < 10) ==> m == UNKNOWN_DB_ERROR
  {
    match KindOfCode(e.exceptionType)
    case Some(k) => Message(k)
    case None => UNKNOWN_DB_ERROR
  }

  /** A constructed exception reports its kind's message. */
  lemma WhatOfNew(k: ExceptionType)
    ensures What(NewDBException(k)) == Message(k)
  {
    CodeInjective(k);
  }

  lemma CodeInjective(k: ExceptionType)
    ensures KindOfCode(Code(k)) == Some(k)
  {
  }

  /** No two kinds share a message, and none uses the fallback text. */
  lemma MessagesDistinct(a: ExceptionType, b: ExceptionType)
    ensures Message(a) == Message(b) ==> a == b
    ensures Message(a) != UNKNOWN_DB_ERROR
  {
  }

  lemma MessageExample()
    ensures What(NewDBException(KEY_NOT_FOUND)) == "Key not found in database."
  {
    WhatOfNew(KEY_NOT_FOUND);
  }
}
