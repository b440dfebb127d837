/**
 * The exception classes of the system. Each constructor stands for one Kotlin
 * exception class; the payload is the message it was created with.
 */
module Errors {

  datatype Exception =
    // HandshakeException (common Handshake.kt)
    | HandshakeMalformedRequest(message: string)
    | HandshakeMalformedResponse(message: string)
    | HandshakeInvalidState(message: string)
    // AuthorizationException (common AuthorizationException.kt)
    | AuthMalformedRequest(message: string)
    | AuthMalformedResponse(message: string)
    | UnknownClient(message: string)
    | AuthorizationFailed(message: string)
    | TokenError(message: string)
    // ClientManagerException (ClientManager.kt)
    | ClientNotFound(message: string)
    // AuthorizationScope.kt; the payload is the offending input
    | ScopeAccessException(input: string)
    | ScopeRequestException(input: string)
    // APIException (APIView.kt)
    | ApiAuthorizationFailed(message: string)
    | ApiMalformedRequest(message: string)
    | ApiInsufficientPermissions(message: string)
    | ApiNotFound(message: string)
    // Library exceptions; their messages come from the library and are not modelled
    | GeneralSecurity       // java.security.GeneralSecurityException (Tink)
    | IOFailure             // java.io.IOException (keyset JSON reading)
    | NoSuchElement         // thrown by Kotlin's `first` when nothing matches
    | NullPointer           // a null reached a Kotlin non-null parameter or receiver
    | IndexOutOfBounds      // a list was indexed outside its bounds
    | IllegalArgument       // java.lang.IllegalArgumentException (Base64.decode of a malformed string)
    | UninitializedProperty // a `lateinit` property read before it was assigned
    | NotImplemented        // kotlin.NotImplementedError, thrown by `TODO()`; it extends java.lang.Error
    // Wrappers added on the way out of a blocking call; the payload is the exception wrapped
    | RuntimeWrapper(cause: Exception)   // java.lang.RuntimeException(cause), from RxJava's `blockingGet`
    | ExecutionFailure(cause: Exception) // java.util.concurrent.ExecutionException, from `AsyncTask.get`

  /**
   * The classes that extend java.lang.RuntimeException or java.lang.Error.
   * Every class the system declares extends java.lang.Exception directly, as
   * do the Tink and I/O exceptions and ExecutionException.
   */
  predicate IsUnchecked(e: Exception)
  {
    e.NoSuchElement? || e.NullPointer? || e.IndexOutOfBounds? || e.IllegalArgument?
    || e.UninitializedProperty? || e.NotImplemented? || e.RuntimeWrapper?
  }

  /**
   * What RxJava's `blockingGet` throws for the error its source signalled: a
   * RuntimeException or Error as it is, any other exception wrapped in a new
   * RuntimeException. What it throws is therefore never one of the system's
   * own exception classes.
   */
  function BlockingGetRaised(e: Exception): (r: Exception)
    ensures IsUnchecked(r)
    ensures r == e <==> IsUnchecked(e)
    ensures !IsUnchecked(e) ==> r == RuntimeWrapper(e)
  {
    if IsUnchecked(e) then e else RuntimeWrapper(e)
  }
}
