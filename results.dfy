/** Outcomes shared by the builders and the forward pass. The Python code has no
    error values of its own: a bad configuration surfaces as an exception raised
    by list indexing, attribute lookup or the layer constructors. Each such
    exception becomes an `Err` here. */
module Results {

  /** What the Python runtime would raise. */
  datatype Error =
    | IndexOutOfRange   // IndexError from a list or module-list subscript
    | BadChannels       // TypeError: a string such as 'S' or 'M' given as a channel count
    | NoOutChannels     // AttributeError: the layer has no `out_channels`
    | MissingKey        // KeyError from a table lookup

  datatype Option<+T> = None | Some(value: T)

  datatype Result<+T> = Ok(value: T) | Err(error: Error)

  /** Prefix `p` to a successful list, keep an error as it is. */
  function Prepend<T>(p: seq<T>, r: Result<seq<T>>): (out: Result<seq<T>>)
    ensures out.Ok? <==> r.Ok?
    ensures out.Ok? ==> out.value == p + r.value
    ensures out.Err? ==> out == r
  {
    match r
    case Ok(v) => Ok(p + v)
    case Err(e) => Err(e)
  }

  lemma PrependNil<T>(r: Result<seq<T>>)
    ensures Prepend([], r) == r
  {
    if r.Ok? {
      assert [] + r.value == r.value;
    }
  }

  lemma PrependTwice<T>(p: seq<T>, q: seq<T>, r: Result<seq<T>>)
    ensures Prepend(p, Prepend(q, r)) == Prepend(p + q, r)
  {
    if r.Ok? {
      assert p + (q + r.value) == (p + q) + r.value;
    }
  }
}
