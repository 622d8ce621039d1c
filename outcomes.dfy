/** Optional values, results and the error conditions the repository can end in. */
module Outcomes {

  datatype Option<T> = None | Some(value: T)

  /** The ways a repository call ends without a value.  SyntaxError and the three paging errors
      are raised by PostgreSQL, NotFound is the "no rows" error of a single-row fetch,
      ArgumentCountMismatch is a statement refused because it names parameters that are not bound,
      and the last two are Go run-time panics in the SET-clause renderer. */
  datatype Error =
    | SyntaxError         // a statement PostgreSQL cannot parse, such as cell_id IN ()
    | DivisionByZero      // count(id)/$1 with a zero page size
    | NegativeLimit       // LIMIT with a negative page size
    | NegativeOffset      // OFFSET $1 * ($2 - 1) below zero
    | NotFound            // the single-row flat query returned no row
    | ArgumentCountMismatch  // PostgreSQL: a placeholder such as $1 with no argument bound to it
    | SliceOutOfRange     // data[0 : len(data)-2] on an empty SET list
    | UnsupportedValue    // value.(string) on a value of a type the conversion does not handle

  datatype Result<T> = Ok(value: T) | Err(error: Error)
}
