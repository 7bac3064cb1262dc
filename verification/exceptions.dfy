/**
 * The error taxonomy of app/exceptions.py: each error carries a message and
 * an HTTP status, and the two handlers turn an error into a response whose
 * body is a one-key JSON object. Logging is left out.
 */
module Exceptions {
  import opened Wrappers

  /** Status of a `BMSException` unless its constructor overrides it. */
  const DefaultStatus: int := 400
  const NotFoundStatus: int := 404
  const InternalStatus: int := 500

  const NotFoundPrefix: string := "Account not found: "
  const InsufficientPrefix: string := "Insufficient balance in account "
  const InvalidTransferMessage: string := "Invalid sender or receiver account number"
  const GenericMessage: string := "An unexpected error occurred. Please try again later."

  /** The only key of an error body. */
  const ErrorKey: string := "error"

  /** Which exception class was raised. */
  datatype ErrorClass = Bms | AccountNotFound | InsufficientFunds | InvalidTransfer

  /** A raised `BMSException` (or subclass): its class, message and status. */
  datatype BmsError = BmsError(cls: ErrorClass, message: string, statusCode: int)

  /** An HTTP response: status code and JSON object body. */
  datatype Response = Response(status: int, body: map<string, string>)

  /**
   * `BMSException(message, status_code)` for class `cls`: the status is
   * overridden only by a truthy `status_code`, so `None` and 0 keep 400.
   */
  function NewError(cls: ErrorClass, message: string, statusCode: Option<int>): (e: BmsError)
    ensures e.cls == cls && e.message == message
    ensures e.statusCode != DefaultStatus ==> statusCode == Some(e.statusCode)
    ensures statusCode.None? || statusCode == Some(0) ==> e.statusCode == DefaultStatus
    ensures statusCode.Some? && statusCode.value != 0 ==> e.statusCode == statusCode.value
  {
    var status := match statusCode
      case Some(code) => if code != 0 then code else DefaultStatus
      case None => DefaultStatus;
    BmsError(cls, message, status)
  }

  /** `to_dict`: exactly one key, `"error"`, mapped to the message. */
  function ToDict(e: BmsError): (d: map<string, string>)
    ensures d.Keys == {ErrorKey}
    ensures d[ErrorKey] == e.message
  {
    map[ErrorKey := e.message]
  }

  /** `AccountNotFoundError(x)`: status 404, message naming `x`. */
  function AccountNotFoundError(accountIdOrNumber: string): (e: BmsError)
    ensures e.cls == AccountNotFound
    ensures e.statusCode == NotFoundStatus
    ensures e.message == NotFoundPrefix + accountIdOrNumber
  {
    NewError(AccountNotFound, NotFoundPrefix + accountIdOrNumber, Some(NotFoundStatus))
  }

  /** `InsufficientFundsError(n)`: status 400, message naming account `n`. */
  function InsufficientFundsError(accountNumber: string): (e: BmsError)
    ensures e.cls == InsufficientFunds
    ensures e.statusCode == DefaultStatus
    ensures e.message == InsufficientPrefix + accountNumber
  {
    NewError(InsufficientFunds, InsufficientPrefix + accountNumber, Some(400))
  }

  /** `InvalidTransferError()`: status 400 and a fixed message. */
  function InvalidTransferError(): (e: BmsError)
    ensures e.cls == InvalidTransfer
    ensures e.statusCode == DefaultStatus
    ensures e.message == InvalidTransferMessage
  {
    NewError(InvalidTransfer, InvalidTransferMessage, Some(400))
  }

  /** `handle_bms_exception`: the error's own status and its `to_dict` body. */
  function HandleBmsException(e: BmsError): (r: Response)
    ensures r.status == e.statusCode
    ensures r.body.Keys == {ErrorKey} && r.body[ErrorKey] == e.message
  {
    Response(e.statusCode, ToDict(e))
  }

  /**
   * `handle_generic_exception`: status 500 and a fixed body, whatever the
   * unexpected error's text says.
   */
  function HandleGenericException(detail: string): (r: Response)
    ensures r.status == InternalStatus
    ensures r.body.Keys == {ErrorKey} && r.body[ErrorKey] == GenericMessage
  {
    Response(InternalStatus, map[ErrorKey := GenericMessage])
  }

  /** Prepending a fixed prefix loses nothing: the suffix can be read back. */
  lemma PrefixCancels(prefix: string, x: string, y: string)
    requires prefix + x == prefix + y
    ensures x == y
  {
    assert x == (prefix + x)[|prefix|..];
    assert y == (prefix + y)[|prefix|..];
  }

  /** Distinct accounts give distinct not-found and insufficient-funds messages. */
  lemma MessagesNameTheAccount(x: string, y: string)
    ensures AccountNotFoundError(x).message == AccountNotFoundError(y).message ==> x == y
    ensures InsufficientFundsError(x).message == InsufficientFundsError(y).message ==> x == y
  {
    if AccountNotFoundError(x).message == AccountNotFoundError(y).message {
      PrefixCancels(NotFoundPrefix, x, y);
    }
    if InsufficientFundsError(x).message == InsufficientFundsError(y).message {
      PrefixCancels(InsufficientPrefix, x, y);
    }
  }
}
