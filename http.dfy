/**
 * The values that cross the boundary between the route and the HTTP library
 * (Axios): the requests it is asked to post, what its promise settles with,
 * the values a rejected step hands to the route's `catch` block, and how the
 * route reads `err.status` and `err.message` off them.
 */
module Http {
  import opened Options

  type Pair = (string, string)

  /** A request body: form fields (sent url-encoded) or a JSON object's fields. */
  datatype Body = FormBody(fields: seq<Pair>) | JsonBody(fields: seq<Pair>)

  /** An outbound `Axios.post(url, body, { headers })`. */
  datatype HttpRequest = Post(url: string, headers: seq<Pair>, body: Body)

  /** The value of the first field called `name`, if any. */
  function Lookup(fields: seq<Pair>, name: string): Option<string> {
    if fields == [] then None
    else if fields[0].0 == name then Some(fields[0].1)
    else Lookup(fields[1..], name)
  }

  /** No field name appears twice. */
  predicate DistinctNames(fields: seq<Pair>) {
    forall j, k :: 0 <= j < k < |fields| ==> fields[j].0 != fields[k].0
  }

  /**
   * An error the HTTP library rejects with. Whether it has a `status` property
   * depends on the library's version, so it is part of the outcome; `hasResponse`
   * says whether an HTTP response came back at all (false on a transport error).
   */
  datatype LibraryFailure = LibraryFailure(message: string, status: Option<int>, hasResponse: bool)

  /** How an `Axios.post` promise settles: with a response, or with an error. */
  datatype AxiosOutcome<+D> =
    | Resolved(status: int, statusText: string, data: D)
    | Failed(error: LibraryFailure)

  /** A value thrown into, or rejected towards, the route's `catch` block. */
  datatype Thrown =
    | ResponseObject(status: int, statusText: string)  // a whole response, rejected as is
    | LibraryError(failure: LibraryFailure)            // the HTTP library's own error
    | TypeError(property: string)                      // reading `property` of `undefined`

  /** The state a promise reaches: fulfilled, rejected, or never settled. */
  datatype Settled<+T> = Fulfilled(value: T) | Rejected(reason: Thrown) | Pending

  /** `err.status` as JavaScript reads it (`undefined` is `None`). */
  function StatusOf(e: Thrown): Option<int> {
    match e
    case ResponseObject(status, _) => Some(status)
    case LibraryError(f) => f.status
    case TypeError(_) => None
  }

  /** `err.message`: a response object has no `message` property. */
  function MessageOf(e: Thrown): (r: Option<string>)
    ensures e.ResponseObject? <==> r.None?
  {
    match e
    case ResponseObject(_, _) => None
    case LibraryError(f) => Some(f.message)
    case TypeError(p) => Some("Cannot read properties of undefined (reading '" + p + "')")
  }

  /** With distinct names, looking a field's name up finds that field's value. */
  lemma {:induction false} LookupFindsField(fields: seq<Pair>, k: int)
    requires DistinctNames(fields) && 0 <= k < |fields|
    ensures Lookup(fields, fields[k].0) == Some(fields[k].1)
  {
    if k > 0 {
      LookupFindsField(fields[1..], k - 1);
    }
  }

  /** A name no field has is not found. */
  lemma {:induction false} LookupAbsent(fields: seq<Pair>, name: string)
    requires forall k :: 0 <= k < |fields| ==> fields[k].0 != name
    ensures Lookup(fields, name) == None
  {
    if fields != [] {
      assert fields[0].0 != name;
      LookupAbsent(fields[1..], name);
    }
  }

  /** JavaScript truthiness of a number that may be `undefined` (NaN is not modelled). */
  predicate Truthy(n: Option<int>) {
    n.Some? && n.value != 0
  }
}
