/**
 * The envelope every application service returns: OperationResult and
 * OperationResult<T> (one datatype; the non-generic form never carries data)
 * and the ErrorResult list of messages.
 */
module OperationResults {
  import opened Wrappers

  datatype ErrorResult = ErrorResult(errors: seq<string>, isShow: bool)

  /** `new ErrorResult(error, isShow)`: a one-message list. */
  function SingleError(error: string, isShow: bool): ErrorResult
  {
    ErrorResult([error], isShow)
  }

  /** ErrorResult.Create(error, isShow, exception): the message, then the exception's message when there is one. */
  function CreateError(error: string, isShow: bool := true, exceptionMessage: Option<string> := None): (e: ErrorResult)
    ensures e.isShow == isShow
    ensures |e.errors| >= 1 && e.errors[0] == error
    ensures e.errors == SingleError(error, isShow).errors + (if exceptionMessage.Some? then [exceptionMessage.value] else [])
  {
    var response := SingleError(error, isShow);
    if exceptionMessage.Some? then response.(errors := response.errors + [exceptionMessage.value]) else response
  }

  /** `storedMessage` is the private `_message` field; Message() is the public getter. */
  datatype OperationResult<+T> = OperationResult(
    storedMessage: string,
    isSuccessful: bool,
    error: Option<ErrorResult>,
    statusCode: int,
    data: Option<T>)
  {
    /** A failed result without a message of its own reports its first error, or "". */
    function Message(): string
    {
      if storedMessage == "" && !isSuccessful && error.Some? then
        (if |error.value.errors| > 0 then error.value.errors[0] else "")
      else storedMessage
    }
  }

  /** Success(message, statusCode = 200): no data, no error. */
  function Success<T>(message: string, statusCode: int := 200): OperationResult<T>
  {
    OperationResult(message, true, None, statusCode, None)
  }

  /** OperationResult<T>.Success(data, message = "", statusCode = 200). */
  function SuccessWith<T>(data: T, message: string := "", statusCode: int := 200): OperationResult<T>
  {
    OperationResult(message, true, None, statusCode, Some(data))
  }

  /** Fail(errorMessage, isShow = true, statusCode = 400): the message is also the only error. */
  function Fail<T>(errorMessage: string, isShow: bool := true, statusCode: int := 400): OperationResult<T>
  {
    OperationResult(errorMessage, false, Some(SingleError(errorMessage, isShow)), statusCode, None)
  }

  /**
    * The application services' catch block: Fail(prefix + exception message, statusCode: 500).
    * The services use it for an exception from SaveChanges, a commit or a publish.
    */
  function Aborted<T>(prefix: string, message: string): OperationResult<T>
  {
    Fail(prefix + message, statusCode := 500)
  }

  /** Fail(errorResult, message = "", statusCode = 400). */
  function FailWith<T>(errorResult: ErrorResult, message: string := "", statusCode: int := 400): OperationResult<T>
  {
    OperationResult(message, false, Some(errorResult), statusCode, None)
  }

  /** OperationResult<T>.Fail(data, errorResult, message = "", statusCode = 400). */
  function FailWithData<T>(data: T, errorResult: ErrorResult, message: string := "", statusCode: int := 400): OperationResult<T>
  {
    OperationResult(message, false, Some(errorResult), statusCode, Some(data))
  }

  /** A result made by Fail(message) reports that message, whatever it is. */
  lemma FailMessage<T>(errorMessage: string, isShow: bool, statusCode: int)
    ensures var r := Fail<T>(errorMessage, isShow, statusCode);
      && r.Message() == errorMessage && !r.isSuccessful && r.statusCode == statusCode
      && r.error == Some(ErrorResult([errorMessage], isShow))
  {
  }

  /** A failure built from an ErrorResult and no message reports the first error (or ""). */
  lemma FailWithMessage<T>(errorResult: ErrorResult, message: string, statusCode: int)
    ensures var r := FailWith<T>(errorResult, message, statusCode);
      r.Message() == if message != "" then message else if |errorResult.errors| > 0 then errorResult.errors[0] else ""
  {
  }

  /** A success always reports the message it was given, even an empty one. */
  lemma SuccessMessage<T>(data: T, message: string, statusCode: int)
    ensures SuccessWith(data, message, statusCode).Message() == message
    ensures Success<T>(message, statusCode).Message() == message
  {
  }
}
