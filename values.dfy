/** Python values as the command-binding layer sees them: the fields of a
    parse result, the keyword options of an argument declaration, what a
    command returns and the exceptions that can escape a dispatch. */
module Values {

  datatype Option<+T> = None | Some(value: T)

  /** The Python objects that reach the binding layer. Floating-point
      numbers are not part of this model. */
  datatype Value =
    | PyNone
    | PyBool(b: bool)
    | PyInt(i: int)
    | PyStr(s: string)
    | PyList(items: seq<Value>)
    /** An open text file, seen as the lines that iterating over it yields. */
    | PyFile(lines: seq<string>)
    /** Any other hashable object that defines no length or truth value
        (a type such as `int`, a function, ...). */
    | PyObject(kind: string)

  /** Python's truth test: None, False, 0, "" and [] are false; files and
      other objects define no length or truth value and are true. */
  predicate Truthy(v: Value)
  {
    match v
    case PyNone => false
    case PyBool(b) => b
    case PyInt(i) => i != 0
    case PyStr(s) => s != ""
    case PyList(items) => items != []
    case PyFile(_) => true
    case PyObject(_) => true
  }

  /** The exceptions the model distinguishes. */
  datatype Exception =
    | AttributeError(attribute: string)
    | IndexError
    | TypeError(reason: string)
    /** Whatever a command's own code raises; it propagates unchanged. */
    | CommandError(kind: string)

  /** What a Python call ends with: a returned value or an exception. */
  datatype Outcome = Returned(value: Value) | Raised(exception: Exception)

  datatype Result<+T> = Ok(value: T) | Err(error: Exception)

  /** `s.startswith(prefix)`. */
  predicate StartsWith(s: string, prefix: string)
  {
    |prefix| <= |s| && s[..|prefix|] == prefix
  }
}
