/**
 * The logger's exception kinds and their fixed messages. As with the database
 * exceptions, the stored enum value is an integer and any value other than the two
 * enumerators is reported as "Unknown logger error.".
 */
module LogErrors {

  datatype LogExceptionType = FAIL_TO_OPEN_FILE | INVALID_LOG_FILE_EXTENSION

  function Code(k: LogExceptionType): (c: int)
    ensures 0 <= c < 2
  {
    match k
    case FAIL_TO_OPEN_FILE => 0
    case INVALID_LOG_FILE_EXTENSION => 1
  }

  /** A thrown logger exception: the value stored in `m_exceptionType`. */
  datatype LogException = LogException(exceptionType: int)

  /** `LogException(p_type)`: records the given kind. */
  function NewLogException(k: LogExceptionType): (e: LogException)
    ensures e.exceptionType == Code(k)
  {
    LogException(Code(k))
  }

  const UNKNOWN_LOG_ERROR: string := "Unknown logger error."

  /** `what()`. */
  function What(e: LogException): (m: string)
    ensures e.exceptionType == Code(FAIL_TO_OPEN_FILE) <==> m == "Fail to open file."
    ensures e.exceptionType == Code(INVALID_LOG_FILE_EXTENSION) <==> m == "Invalid log file extension."
    ensures e.exceptionType != 0 && e.exceptionType != 1 <==> m == UNKNOWN_LOG_ERROR
  {
    if e.exceptionType == 0 then "Fail to open file."
    else if e.exceptionType == 1 then "Invalid log file extension."
    else UNKNOWN_LOG_ERROR
  }

  /** The two kinds report different messages, neither of them the fallback. */
  lemma WhatOfNew(k: LogExceptionType)
    ensures k == FAIL_TO_OPEN_FILE ==> What(NewLogException(k)) == "Fail to open file."
    ensures k == INVALID_LOG_FILE_EXTENSION ==> What(NewLogException(k)) == "Invalid log file extension."
    ensures What(NewLogException(k)) != UNKNOWN_LOG_ERROR
  {
  }
}
