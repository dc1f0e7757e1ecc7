/** What the app gets back from the backend: the signed-in user, and the data
    or the error of a query. The calls themselves are not modelled; their
    results are given to the operations that make them. */
module Remote {

  /** What a failed call threw: an `Error` with its message, or some other value. */
  datatype Thrown = ErrorObject(message: string) | OtherValue

  /** The result of a query, an insert, an update or a delete. */
  datatype Outcome<+T> = Ok(value: T) | Failed(thrown: Thrown)

  /** The answer of `supabase.auth.getUser()`: a user, no user, or an auth error. */
  datatype Session = SignedIn(userId: string) | SignedOut | AuthFailed(message: string)

  const NotAuthenticatedMessage: string := "User not authenticated"

  /** `err instanceof Error ? err : new Error(fallback)`: the message a catch
      block stores in the hook's `error`. */
  function ErrorMessage(thrown: Thrown, fallback: string): string {
    match thrown
    case ErrorObject(m) => m
    case OtherValue => fallback
  }
}
