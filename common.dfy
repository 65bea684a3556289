/** Small value wrappers shared by every module of the model. */
module Common {

  /** A value that may be absent: a NULL pointer in the daemon and the client. */
  datatype Option<+T> = None | Some(value: T)

  /** The outcome of an operation that can fail with a message (a GError). */
  datatype Result<+T> = Ok(value: T) | Err(message: string)

  /** No element occurs twice. */
  predicate NoDup<T(==)>(s: seq<T>)
  {
    forall i, j :: 0 <= i < j < |s| ==> s[i] != s[j]
  }
}
