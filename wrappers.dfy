/** Small value wrappers shared by the other modules. */
module Wrappers {

  /** A value that may be missing (JavaScript `null` / `undefined`). */
  datatype Option<+T> = None | Some(value: T) {
    function GetOr(default: T): T {
      match this
      case Some(v) => v
      case None => default
    }
  }

  /** The outcome of a check that either yields a value or an error message. */
  datatype Result<+T, +E> = Ok(value: T) | Err(error: E)

  /** A field of a server record that is supposed to hold an array. It may
      instead hold a falsy value (missing, `null`, `false`, `0`, `""`), a
      string, or some other truthy value (`true`, a non-zero number, an
      object), which cannot be spread. */
  datatype ListField<+T> = Absent | Items(items: seq<T>) | StringValue(text: string) | NotAList
}
