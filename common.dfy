/** Small value types shared by every component of the portal. */
module Common {

  /** A value that may be absent: the `null` / `undefined` of the client code. */
  datatype Option<+T> = None | Some(value: T)

  /** The outcome of a check that either yields a value or an error message. */
  datatype Result<+T, +E> = Success(value: T) | Failure(error: E)

  /** The outcome of awaiting a call into the hosted backend: it returned a value, or it threw. */
  datatype Call<+T> = Returns(value: T) | Throws

  /** A toast notification as the components raise it (title, description, destructive variant). */
  datatype Toast = Toast(title: string, description: string, destructive: bool)

  /** The destructive "Error" toast that every form raises on a rejected submission. */
  function ErrorToast(description: string): (t: Toast)
    ensures t.destructive && t.description == description
  {
    Toast("Error", description, true)
  }
}
