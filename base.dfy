/** Option and Result values, and the exceptions the crawler and the savers raise. */
module Base {

  datatype Option<+T> = None | Some(value: T)

  /** The outcome of an operation that raises `error` instead of returning a value. */
  datatype Result<+T> = Ok(value: T) | Err(error: Error)

  /** The exceptions of the crawler and the savers, as the model distinguishes them. */
  datatype Error =
    | OutOfFuel                     // a loop the source never bounds used up the model's budget
    | AttributeError(name: string)  // attribute missing on an object (`None.text`, `self.proxyer`, ...)
    | TypeError(what: string)
    | KeyError(key: string)
    | IndexError
    | UnboundLocal(name: string)
    | RuntimeError(message: string)
    | ValueError(message: string)
    | EmptyQuery                    // the database refuses a statement made only of white space
    | UnknownColumn(column: string) // an INSERT names a column the table does not have

  lemma AppendAssoc<T>(a: seq<T>, b: seq<T>, c: seq<T>)
    ensures a + b + c == a + (b + c)
  {
  }

  /** Past the `k` elements of `a`, `a + b` goes on with `b`. */
  lemma DropAfter<T>(a: seq<T>, b: seq<T>, k: nat, lo: nat)
    requires k == |a| <= lo <= |a| + |b|
    ensures (a + b)[lo..] == b[lo - k..]
  {
  }
}
