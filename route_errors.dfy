/** Turning whatever a route handler caught into a message, and recognising
    the service's invalid-id error (`src/lib/api/route-errors.ts`). */
module RouteErrors {
  import opened JsStrings
  import opened JsRuntime

  const UnknownError := "Unknown error"

  /** The phrase whose presence, in any letter case, marks an invalid id. */
  const InvalidIdPhrase := "invalid client id"

  /** `getErrorMessage`: the message of an `Error`, and a fixed text for any
      other thrown value. The service module has a private copy with the same
      body (`src/services/client.service.ts`), which this model shares. */
  function GetErrorMessage(error: Thrown): (r: string)
    ensures error.ErrorObject? ==> r == error.message
    ensures !error.ErrorObject? ==> r == UnknownError
  {
    match error
    case ErrorObject(_, message) => message
    case NonErrorValue(_) => UnknownError
  }

  /** `isInvalidIdError`. */
  function IsInvalidIdError(error: Thrown): (r: bool)
    ensures r <==> error.ErrorObject? && Contains(ToLower(error.message), InvalidIdPhrase)
  {
    error.ErrorObject? && Contains(ToLower(error.message), InvalidIdPhrase)
  }

  /** Lower-casing twice is lower-casing once. */
  lemma ToLowerIdempotent(s: string)
    ensures ToLower(ToLower(s)) == ToLower(s)
  {
  }

  /** The test ignores letter case: an error and the same error with its
      message lower-cased are classified alike. */
  lemma InvalidIdIgnoresCase(cls: ErrorClass, message: string)
    ensures IsInvalidIdError(ErrorObject(cls, message)) == IsInvalidIdError(ErrorObject(cls, ToLower(message)))
  {
    ToLowerIdempotent(message);
  }

  /** Whatever else is thrown is never an invalid-id error, and its message is
      the fixed text. */
  lemma NonErrorsAreUnknown(v: JsValue)
    ensures !IsInvalidIdError(NonErrorValue(v))
    ensures GetErrorMessage(NonErrorValue(v)) == UnknownError
  {
  }

  /** Any message that carries the phrase, already in lower case, anywhere in
      it is classified as an invalid-id error. */
  lemma PhraseAnywhereIsInvalidId(cls: ErrorClass, prefix: string, suffix: string)
    ensures IsInvalidIdError(ErrorObject(cls, prefix + InvalidIdPhrase + suffix))
  {
    var m := prefix + InvalidIdPhrase + suffix;
    ToLowerKeepsLowerPhrase(prefix, suffix);
    assert OccursAt(ToLower(m), InvalidIdPhrase, |prefix|);
  }

  lemma ToLowerKeepsLowerPhrase(prefix: string, suffix: string)
    ensures var m := ToLower(prefix + InvalidIdPhrase + suffix);
      |prefix| + |InvalidIdPhrase| <= |m| && m[|prefix|..|prefix| + |InvalidIdPhrase|] == InvalidIdPhrase
  {
    var m := prefix + InvalidIdPhrase + suffix;
    assert forall i :: 0 <= i < |InvalidIdPhrase| ==> !('A' <= InvalidIdPhrase[i] <= 'Z');
    assert forall i :: |prefix| <= i < |prefix| + |InvalidIdPhrase| ==> m[i] == InvalidIdPhrase[i - |prefix|];
  }
}
