/** Option and Result, and the Python exceptions the modelled code raises. */
module Wrappers {

  datatype Option<+T> = None | Some(value: T)

  datatype Result<+T, +E> = Ok(value: T) | Err(error: E)

  /** The exception classes raised along the modelled paths. `NonFinite`
      stands where numpy would go on with an infinite or NaN value. */
  datatype Error =
    | ValueError(message: string)
    | KeyError(key: string)
    | AttributeError(attribute: string)
    | TypeError
    | IndexError
    | NotImplementedError
    | LinAlgError
    | UnboundLocalError(variable: string)
    | NonFinite

  /** An optional dictionary as Python's `if d:` sees it: kept only when it
      is given and not empty. */
  function Truthy<K, V>(d: Option<map<K, V>>): (r: Option<map<K, V>>)
    ensures r.Some? <==> d.Some? && |d.value| > 0
    ensures r.Some? ==> r == d
  {
    if d.Some? && |d.value| > 0 then d else None
  }
}
