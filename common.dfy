/** Values shared by every part of the model. */
module Common {

  /** A byte of an object body or of the in-memory write buffer. */
  type Byte = bv8

  datatype Option<T> = None | Some(value: T)

  datatype Result<T, E> = Ok(value: T) | Err(error: E)

  /** The two kinds of exception the file system tells apart: an
      `oci.exceptions.ClientError`, which some handlers catch, and every
      other exception (`ServiceError` and the rest), which only propagates. */
  datatype Failure = ClientError | ServiceError

  /** A value stored in one of the dictionaries the file system returns;
      `Null` stands for Python's `None`. */
  datatype Value = Str(s: string) | Int(i: int) | Null

  /** A dictionary such as an `ls` entry or the result of `info`. */
  type Entry = map<string, Value>

  function OptionalStr(o: Option<string>): Value
  {
    match o
    case Some(s) => Str(s)
    case None => Null
  }
}
