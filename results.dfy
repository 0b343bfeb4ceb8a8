/** Values that stand for Python's "may raise" and "may be absent". */
module Results {

  /** The outcome of a step that may raise: the value, or the message of the exception. */
  datatype Result<+T> = Ok(value: T) | Err(message: string)

  datatype Option<+T> = None | Some(value: T)

  /** Messages of the Python exceptions the modelled code can raise. */
  const IndexOutOfRange := "list index out of range"
  const NotInList := "list.remove(x): x not in list"
  const NoNextLine := "StopIteration"
  const NotAFloat := "could not convert string to float"
  const EmptyMin := "min() arg is an empty sequence"
  const NoSuchObject := "'NoneType' object has no attribute"
  const NotAString := "expected string or bytes-like object"
}
