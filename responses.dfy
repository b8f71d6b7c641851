/**
 * The response shapes the client reads from the REST endpoints: a body that is either a bare JSON
 * array or an object that may carry the array under a named field (`messages`, `rooms`,
 * `channels`, `conversations`), and the outcome of one `fetch`.
 */
module Responses {
  import opened Wrappers

  /**
   * A parsed JSON body. `Wrapped(None)` stands for every non-array value lacking the field,
   * including `null`, whose property access throws and is caught with the same `[]` result.
   */
  datatype Body<T> = BareArray(items: seq<T>) | Wrapped(field: Option<seq<T>>)

  /** One `fetch`: it fails in transport, or yields a status and a body that may not parse as JSON. */
  datatype Reply<T> = NetworkError | Response(ok: bool, body: Option<Body<T>>)

  /** `Array.isArray(data) ? data : data.<field> || []`. */
  function Normalize<T>(b: Body<T>): (r: seq<T>)
    ensures b == BareArray(r) || b == Wrapped(Some(r)) || r == []
    ensures b.BareArray? ==> r == b.items
    ensures b.Wrapped? && b.field.Some? ==> r == b.field.value
  {
    match b
    case BareArray(items) => items
    case Wrapped(field) => field.GetOr([])
  }
}
