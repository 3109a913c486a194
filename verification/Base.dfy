/** Notions shared by every module. */
module Base {

  /** A UUID. Its byte order is the order of the naturals; the zero UUID is 0. */
  type Id = nat

  const NIL: Id := 0

  datatype Option<+T> = None | Some(value: T)

  datatype Unit = Unit

  datatype Result<+R, +E> = Success(value: R) | Failure(error: E)

  /** The next element of a circle. */
  function Following<T>(p: seq<T>, i: nat): T
    requires i < |p|
  {
    if i + 1 < |p| then p[i + 1] else p[0]
  }
}
