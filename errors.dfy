/**
 * Go's `error` values as they occur in the controller, and the StatusError
 * type of the status package (pkg/status/statuserror.go).
 */
module Errors {
  import opened Wrappers

  // The known causes of a StatusError (statusErrorReason constants).
  const AppRegistryMetadataEmptyError := "AppRegistryMetadataEmptyError"
  const AppRegistryOptionsError := "AppRegistryOptionsError"
  const AppRegistryFactoryError := "AppRegistryFactoryError"
  const AppRegistryListPackagesError := "AppRegistryListPackagesError"
  const DataStoreWriteError := "DataStoreWriteError"
  const EnsureResourcesError := "EnsureResourcesError"
  const UnknownError := "UnknownError"

  function KnownReasons(): seq<string>
  {
    [AppRegistryMetadataEmptyError, AppRegistryOptionsError, AppRegistryFactoryError,
     AppRegistryListPackagesError, DataStoreWriteError, EnsureResourcesError, UnknownError]
  }

  /** Stand-in text for the phase package's sentinel error, whose message is not modelled. */
  const WrongReconcilerInvokedText := "wrong reconciler invoked"

  /**
   * A non-nil Go error value.
   *  - Failure: any error produced by a collaborator (cluster client, OS, discovery)
   *    or by fmt.Errorf / errors.New, identified by its message;
   *  - StatusError: a *statusError holding a reason and a possibly nil wrapped error;
   *  - WrongReconcilerInvoked: the sentinel phase.ErrWrongReconcilerInvoked.
   */
  datatype Error =
    | Failure(msg: string)
    | StatusError(reason: string, cause: Option<Error>)
    | WrongReconcilerInvoked

  /** The text returned by the error's Error() method. */
  function ErrorText(e: Error): string
  {
    match e
    case Failure(m) => m
    case StatusError(_, cause) =>
      if cause.None? then "" else ErrorText(cause.value)
    case WrongReconcilerInvoked => WrongReconcilerInvokedText
  }

  /** NewStatusError: wraps the (possibly nil) error e with the reason s. */
  function NewStatusError(s: string, e: Option<Error>): (r: Error)
    ensures r.StatusError?
    ensures Reason(r) == s
    ensures ErrorText(r) == if e.None? then "" else ErrorText(e.value)
  {
    StatusError(s, e)
  }

  /** Reason() of a *statusError: with the wrapped error it rebuilds the value. */
  function Reason(e: Error): (r: string)
    requires e.StatusError?
    ensures StatusError(r, e.cause) == e
  {
    e.reason
  }

  /**
   * IsStatusError: the type assertion err.(StatusError). Among the error values
   * of this model only a *statusError has a Reason() method; a nil error fails.
   */
  function IsStatusError(err: Option<Error>): (r: Option<Error>)
    ensures r.Some? <==> err.Some? && err.value.StatusError?
    ensures r.Some? ==> r.value == err.value
  {
    if err.Some? && err.value.StatusError? then err else None
  }

  /** Every value built by NewStatusError passes IsStatusError and keeps its reason. */
  lemma NewStatusErrorIsStatusError(s: string, e: Option<Error>)
    ensures IsStatusError(Some(NewStatusError(s, e))) == Some(NewStatusError(s, e))
    ensures Reason(IsStatusError(Some(NewStatusError(s, e))).value) == s
  {
  }

  /** The seven reason constants are pairwise distinct. */
  lemma KnownReasonsDistinct()
    ensures |KnownReasons()| == 7
    ensures forall i, j :: 0 <= i < j < |KnownReasons()| ==> KnownReasons()[i] != KnownReasons()[j]
  {
  }
}
