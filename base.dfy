/**
 * Option and Result, the two shapes every handler in the model returns, and
 * two facts about splitting a sequence at its last element.
 */
module Base {

  /** A value that may be absent (a JavaScript `null`/`undefined`). */
  datatype Option<+T> = None | Some(value: T) {
    function GetOr(default: T): T {
      match this
      case Some(v) => v
      case None => default
    }
  }

  /** A handler outcome: the created row's id or the error response it sends. */
  datatype Result<+T, +E> = Ok(value: T) | Err(error: E)

  /** A non-empty sequence is its front followed by its last element. */
  lemma SplitLast<T>(xs: seq<T>)
    requires xs != []
    ensures xs[..|xs| - 1] + [xs[|xs| - 1]] == xs
  {
    assert xs[|xs| - 1..] == [xs[|xs| - 1]];
  }

  /** The front and the last element of `a + b`, for a non-empty `b`. */
  lemma ConcatFront<T>(a: seq<T>, b: seq<T>)
    requires b != []
    ensures (a + b)[..|a + b| - 1] == a + b[..|b| - 1]
    ensures (a + b)[|a + b| - 1] == b[|b| - 1]
  {
  }
}
