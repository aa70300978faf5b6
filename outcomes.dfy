/** Failure-carrying values. The parser reports failure by raising a Python
    exception; the model returns the exception's kind instead. */
module Outcomes {

  datatype Option<+T> = None | Some(value: T)

  /** The Python exceptions the annotation parser can raise on malformed input,
      plus NoProgress for an alignment that has not finished within its step bound. */
  datatype Error =
    | IndexError      // indexing past the end of a list or string
    | ValueError      // tuple unpacking of the wrong length, or int() of a non-number
    | TypeError       // ":".join over a tuple that holds None
    | AttributeError  // reading an attribute that was never assigned
    | NoProgress      // the alignment loop did not finish within its step bound

  datatype Result<+T> = Ok(value: T) | Err(error: Error)

  /** The result of a step that changes state and returns nothing. */
  datatype Outcome = Pass | Fail(error: Error)

  /** `prefix` in front of a successful result; an error passes through. */
  function Prepend<T>(prefix: seq<T>, r: Result<seq<T>>): (r': Result<seq<T>>)
    ensures r'.Ok? <==> r.Ok?
    ensures r.Err? ==> r' == r
  {
    match r
    case Ok(rest) => Ok(prefix + rest)
    case Err(e) => Err(e)
  }

  lemma PrependNothing<T>(r: Result<seq<T>>)
    ensures Prepend([], r) == r
  {
    if r.Ok? {
      assert [] + r.value == r.value;
    }
  }

  lemma PrependPrepend<T>(a: seq<T>, b: seq<T>, r: Result<seq<T>>)
    ensures Prepend(a, Prepend(b, r)) == Prepend(a + b, r)
  {
    if r.Ok? {
      assert a + (b + r.value) == (a + b) + r.value;
    }
  }
}
