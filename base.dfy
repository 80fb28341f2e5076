/** Small value types shared by the WebPrint model. */
module Base {

  datatype Option<T> = None | Some(value: T)

  /** One octet of a command buffer, as its unsigned bit pattern (Java's signed `byte` holds the same bits). */
  newtype byte = x: int | 0 <= x < 256

  type Bytes = seq<byte>

  /** A Java exception: its class name and its message. */
  datatype Throwable = Throwable(name: string, message: string)

  /** What a call into an unseen collaborator gives back: a value, or the exception it throws. */
  datatype Res<T> = Ok(value: T) | Fail(error: Throwable)

  /** A call that returns nothing: it returns normally, or it throws. */
  datatype Status = Done | Raised(error: Throwable)

  predicate Int32(n: int) {
    -0x8000_0000 <= n < 0x8000_0000
  }

  /** `String.valueOf(t)` for a nullable Throwable: "null", or `Throwable.toString()` ("class: message"). */
  function ExceptionText(t: Option<Throwable>): string
  {
    match t
    case None => "null"
    case Some(e) => e.name + ": " + e.message
  }
}
