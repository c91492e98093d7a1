/**
 * The error taxonomy: one record type for every application error, and one
 * factory per concrete error kind. Each category factory builds the record the
 * base constructor would and then overwrites the status with 500, as the
 * Python subclasses do after calling their base.
 */
module Errors {
  import opened Wrappers

  /** The category tags used by the error kinds modelled here. */
  datatype ErrorCategory = Unknown | Internal | Misconfiguration | NoResponse | FileError | Unsupported

  /** An application error; `details` holds the attachments added with `WithDetails`,
      whose values have type `D`. */
  datatype ApplicationError<D> = ApplicationError(
    category: ErrorCategory,
    correlationId: Option<string>,
    code: string,
    message: Option<string>,
    status: int,
    details: map<string, D>)
  {
    /** `with_details(key, value)`: attach one detail, leaving everything else as is. */
    function WithDetails(key: string, value: D): (e: ApplicationError<D>)
      ensures key in e.details && e.details[key] == value
      ensures forall k :: k in details && k != key ==> k in e.details && e.details[k] == details[k]
      ensures e.details.Keys == details.Keys + {key}
      ensures e.category == category && e.correlationId == correlationId && e.code == code
      ensures e.message == message && e.status == status
    {
      this.(details := details[key := value])
    }

    /** The status every concrete error kind sets after its base constructor. */
    function WithServerStatus(): (e: ApplicationError<D>)
      ensures e.status == 500
      ensures e.(status := status) == this
    {
      this.(status := 500)
    }
  }

  /** The code the base constructor uses when none is given. */
  const DefaultCode: string := "UNKNOWN"

  /** The status the base constructor gives a new error. The base is not part of
      this model; every factory below overwrites this value. */
  const BaseStatus: int := 0

  /** The base constructor: category, correlation id, code (defaulting to
      `DefaultCode`) and message, no details. */
  function NewApplicationError<D>(category: ErrorCategory, correlationId: Option<string>,
                                  code: Option<string>, message: Option<string>): (e: ApplicationError<D>)
    ensures e.category == category && e.correlationId == correlationId && e.message == message
    ensures code.Some? ==> e.code == code.value
    ensures code.None? ==> e.code == DefaultCode
    ensures e.details == map[]
  {
    ApplicationError(category, correlationId, code.GetOr(DefaultCode), message, BaseStatus, map[])
  }

  /** ConfigException(correlation_id, code, message) */
  function ConfigException<D>(correlationId: Option<string> := None, code: Option<string> := None,
                          message: Option<string> := None): (e: ApplicationError<D>)
    ensures e.category == Misconfiguration && e.status == 500
    ensures e.correlationId == correlationId && e.code == code.GetOr(DefaultCode) && e.message == message
    ensures e.details == map[]
  {
    NewApplicationError(Misconfiguration, correlationId, code, message).WithServerStatus()
  }

  /** ConnectionException(correlation_id, code, message) */
  function ConnectionException<D>(correlationId: Option<string> := None, code: Option<string> := None,
                              message: Option<string> := None): (e: ApplicationError<D>)
    ensures e.category == NoResponse && e.status == 500
    ensures e.correlationId == correlationId && e.code == code.GetOr(DefaultCode) && e.message == message
    ensures e.details == map[]
  {
    NewApplicationError(NoResponse, correlationId, code, message).WithServerStatus()
  }

  /** FileException(correlation_id, code, message) */
  function FileException<D>(correlationId: Option<string> := None, code: Option<string> := None,
                        message: Option<string> := None): (e: ApplicationError<D>)
    ensures e.category == FileError && e.status == 500
    ensures e.correlationId == correlationId && e.code == code.GetOr(DefaultCode) && e.message == message
    ensures e.details == map[]
  {
    NewApplicationError(FileError, correlationId, code, message).WithServerStatus()
  }

  /** UnsupportedException(correlation_id, code, message) */
  function UnsupportedException<D>(correlationId: Option<string> := None, code: Option<string> := None,
                               message: Option<string> := None): (e: ApplicationError<D>)
    ensures e.category == Unsupported && e.status == 500
    ensures e.correlationId == correlationId && e.code == code.GetOr(DefaultCode) && e.message == message
    ensures e.details == map[]
  {
    NewApplicationError(Unsupported, correlationId, code, message).WithServerStatus()
  }

  /** InternalException(correlation_id, code, message); the parent of the
      reference error, built the same way as its four siblings. */
  function InternalException<D>(correlationId: Option<string> := None, code: Option<string> := None,
                            message: Option<string> := None): (e: ApplicationError<D>)
    ensures e.category == Internal && e.status == 500
    ensures e.correlationId == correlationId && e.code == code.GetOr(DefaultCode) && e.message == message
    ensures e.details == map[]
  {
    NewApplicationError(Internal, correlationId, code, message).WithServerStatus()
  }

  // ---------------------------------------------------------------------------
  // Properties

  /** With every argument left out, each kind has code "UNKNOWN", status 500,
      no correlation id, no message and its own category. */
  lemma DefaultArguments<D>()
    ensures var e: ApplicationError<D> := ConfigException();
      e.code == "UNKNOWN" && e.status == 500 && e.category == Misconfiguration && e.correlationId == None && e.message == None
    ensures var e: ApplicationError<D> := ConnectionException();
      e.code == "UNKNOWN" && e.status == 500 && e.category == NoResponse && e.correlationId == None && e.message == None
    ensures var e: ApplicationError<D> := FileException();
      e.code == "UNKNOWN" && e.status == 500 && e.category == FileError && e.correlationId == None && e.message == None
    ensures var e: ApplicationError<D> := UnsupportedException();
      e.code == "UNKNOWN" && e.status == 500 && e.category == Unsupported && e.correlationId == None && e.message == None
  {
  }

  /** The four kinds built from the same arguments differ in their category only,
      so the category alone tells them apart. */
  lemma KindsDifferOnlyInCategory<D>(correlationId: Option<string>, code: Option<string>, message: Option<string>)
    ensures var config: ApplicationError<D> := ConfigException(correlationId, code, message);
      && ConnectionException(correlationId, code, message) == config.(category := NoResponse)
      && FileException(correlationId, code, message) == config.(category := FileError)
      && UnsupportedException(correlationId, code, message) == config.(category := Unsupported)
  {
  }
}
