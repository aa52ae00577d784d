/** Values shared by every part of the model: the exceptions the Python code
    raises, a failure-compatible Result, an Option, and Python's list indexing
    (which accepts negative indices). */
module Common {

  /** The exceptions the modelled code can raise. The last two are not
      exceptions in the source: they stand for a handshake loop that would
      wait forever because the device never sends what it waits for. */
  datatype Error =
    | ValueError
    | KeyError
    | IndexError
    | TypeError
    | ZeroDivisionError
    | NeverAcknowledged
    | NoSeriesReceived

  datatype Option<+T> = None | Some(value: T)

  datatype Result<+T> = Ok(value: T) | Err(error: Error) {
    predicate IsFailure() { Err? }

    function PropagateFailure<U>(): Result<U>
      requires Err?
    {
      Err(error)
    }

    function Extract(): T
      requires Ok?
    {
      value
    }
  }

  /** Python's `s[i]`: negative indices count from the end; anything outside
      `-len(s) .. len(s) - 1` raises IndexError. */
  function PyIndex<T>(s: seq<T>, i: int): (r: Result<T>)
    ensures r.Ok? <==> -|s| <= i < |s|
    ensures 0 <= i < |s| ==> r == Ok(s[i])
    ensures -|s| <= i < 0 ==> r == Ok(s[|s| + i])
    ensures r.Err? ==> r.error == IndexError
  {
    if 0 <= i < |s| then Ok(s[i])
    else if -|s| <= i < 0 then Ok(s[|s| + i])
    else Err(IndexError)
  }
}
