/** `NullableHelper.EnsureNotNull`: the argument guard of the extension methods. */
module NullableHelper {
  import opened Wrappers
  import opened Exceptions

  /** Returns a non-null `value` unchanged; a null one raises ArgumentNullException(name). */
  function EnsureNotNull<T>(value: Option<T>, name: string): (r: Result<T, Exception>)
    ensures r.Success? <==> value.Some?
    ensures r.Success? ==> r.value == value.value
    ensures r.Failure? ==> r.error == ArgumentNull(name)
  {
    match value
    case Some(v) => Success(v)
    case None => Failure(ArgumentNull(name))
  }

  /** The guard loses nothing: forgetting the exception gives back the argument. */
  lemma EnsureNotNullRoundTrip<T>(value: Option<T>, name: string)
    ensures EnsureNotNull(value, name).ToOption() == value
  {
  }

  /** Guarding a value that already passed the guard changes nothing. */
  lemma EnsureNotNullIdempotent<T>(value: Option<T>, name: string, name': string)
    requires EnsureNotNull(value, name).Success?
    ensures EnsureNotNull(Some(EnsureNotNull(value, name).value), name') == EnsureNotNull(value, name)
  {
  }
}
