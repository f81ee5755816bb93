/** Option, Result and the Python exceptions that the modelled code raises. */
module Wrappers {

  datatype Option<+T> = None | Some(value: T)

  /** Why a ValueError was raised; one constructor per distinct message in the source. */
  datatype Reason =
    | UnknownContext(context: string)
    | NoPrimaryKey(context: string)
    | PrimaryKeyNotInForm(key: string)
    | InvalidSortColumn(column: string)
    | InvalidMode(mode: string)
    | WhereRequired
    | WhereAndOrderRequired
    | Required(field: string)
    | InvalidValue(field: string)
    | NotAnInteger(field: string)
    | NotAFloat(field: string)
    | MissingRequired(fields: seq<string>)
    | InvalidColumnFormat
    | EmptyNumeric(field: string)
    | InvalidOption(field: string)
    | InvalidLiteral(text: string)
    | NoFilteredColumns(context: string)

  /** The Python exception classes the modelled code lets escape. */
  datatype Error =
    | ValueError(reason: Reason)
    | TypeError
    | KeyError(key: string)
    | AttributeError
    | StopIteration
    | NameError(name: string)
    | IndexError
    | DatabaseError

  datatype Result<+T> = Ok(value: T) | Err(error: Error) {
    predicate IsFailure() { Err? }

    function PropagateFailure<U>(): Result<U>
      requires Err?
    {
      Err(error)
    }

    function Extract(): T
      requires Ok?
    {
      value
    }
  }
}
