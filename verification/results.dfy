/** Values that carry either an answer or the reason there is none. The
    source signals every failure with a Python exception; the model names
    the exceptions it distinguishes in `Error`. */
module Results {

  datatype Option<T> = None | Some(value: T)

  /** The ways an operation of the client can fail. */
  datatype Error =
    | TransportError                         // urllib2 raised while sending or receiving
    | NotJson                                // json.loads raised on a reply body
    | AuthenticationFailed(response: string) // AuthenticationException, with the login reply
    | RequestFailed(operation: string)       // RequestException raised by a success check
    | NoMatch                                // re.search found nothing, so .group(1) raised
    | KeyMissing(key: string)                // KeyError on a dict lookup
    | WrongType                              // TypeError: a value of the wrong kind was used

  datatype Result<T> = Ok(value: T) | Err(error: Error) {

    predicate IsFailure() {
      Err?
    }

    function PropagateFailure<U>(): Result<U>
      requires Err?
    {
      Err(error)
    }

    function Extract(): T
      requires Ok?
    {
      value
    }

    /** Feeds a successful value to `f`; a failure passes through untouched. */
    function Then<U>(f: T -> Result<U>): Result<U> {
      if Ok? then f(value) else Err(error)
    }
  }
}
