/** Shared vocabulary of the psynteract client model: identifiers, documents,
    the exceptions the client raises, and the Option/Result wrappers that carry
    them instead of Python's None and raise. */
module Types {

  /** A document id in the store (client documents and the session document). */
  type Id = string

  /** A revision token as handed out by the store. */
  type Rev = string

  /** A role label from the design's role list. */
  type Role = string

  /** A store document, reduced to its top-level string-valued fields. */
  type Doc = map<string, string>

  datatype Option<+T> = None | Some(value: T)

  datatype Result<+T, +E> = Ok(value: T) | Err(error: E)

  /** The exceptions the client code can raise, one constructor per cause. */
  datatype Error =
    | CircularReplacements   // RuntimeError: maximum search depth exceeded
    | MissingKey             // KeyError: a dictionary lookup on an absent key
    | IndexOutOfRange        // IndexError: a list index outside the list
    | ZeroDivision           // ZeroDivisionError: modulo by zero
    | NoOpenSession          // KeyError: no open session available
    | NotFound               // the store has no document under the requested id
    | Conflict               // the store rejected a save (stale revision)
    | TypeMismatch           // TypeError: e.g. indexing a list with a tuple
    | UnboundName            // NameError: a name that is not defined
    | UnpackMismatch         // ValueError: wrong number of values to unpack
}
