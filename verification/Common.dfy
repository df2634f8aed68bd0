/**
 * Value types shared by the modules of the model: an optional value (the
 * source's `null`/`undefined`), and the abstract results of the calls the
 * pages make to the hosted backend and to `fetch`.
 */
module Common {

  /** A value that may be absent (`null` or `undefined` in the source). */
  datatype Option<+T> = None | Some(value: T) {
    /** `x || d` for a value whose only falsy form is its absence. */
    function GetOr(default: T): T {
      match this
      case Some(v) => v
      case None => default
    }
  }

  /**
   * The result of a backend read: `{ data, error }` without an error carries
   * `data`, which may be `null`; a returned error and a thrown exception are
   * handled alike by every caller, so both are `Failed`.
   */
  datatype Query<+T> = Rows(data: Option<T>) | Failed

  /**
   * The result of a backend insert, update or delete. A failure carries the
   * `message` of the error when the error is an `Error` instance, and `None`
   * when it is not.
   */
  datatype Mutation = Done | Rejected(message: Option<string>)

  /**
   * The result of `fetch(url)` followed by `response.json()`: either the
   * request threw, or a response arrived with a status code and a body that
   * parsed as JSON (`Some`) or did not (`None`).
   */
  datatype FetchOutcome<+J> = Threw | Responded(status: int, json: Option<J>)

  /** `response.ok`: the status is in the range 200-299. */
  predicate IsOk(status: int) {
    200 <= status <= 299
  }

  /** JavaScript `s || d` on a string that may be missing: `null`, `undefined` and `''` are falsy. */
  function OrDefault(s: Option<string>, d: string): (r: string)
    ensures s.Some? && s.value != "" ==> r == s.value
    ensures s.None? || s.value == "" ==> r == d
  {
    if s.Some? && s.value != "" then s.value else d
  }

  /** The pathname of the wall-of-love page, which the navigation bar and the feed's load control both test for. */
  const WallOfLovePath: string := "/wall-of-love"
}
