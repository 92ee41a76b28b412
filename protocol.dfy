/** The result of one call to an iterator's Next.
    Go returns a pair (T, error); the library signals normal end of sequence with the
    sentinel error Done, compared by identity, and any other error is a failure. */
module Protocol {

  /** Ok carries the next element; Done is the sentinel; Err is any other error.
      An Err whose message is "done" is still not Done: the sentinel is one value. */
  datatype Pull<T> = Ok(value: T) | Done | Err(error: string)

  /** Passes an upstream Done or failure on with another element type, as a Go
      function does when it returns the zero value together with the same error. */
  function Propagate<T, R>(p: Pull<T>): (q: Pull<R>)
    requires !p.Ok?
    ensures !q.Ok?
    ensures q.Done? <==> p.Done?
    ensures q.Err? ==> q.error == p.error
  {
    if p.Done? then Done else Err(p.error)
  }
}
