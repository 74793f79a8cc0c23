/** What a `fetch` call from the browser comes back with, as far as the components look at it. */
module Http {

  /** A response with its status code, or a rejected promise (network failure). */
  datatype FetchResult = Responded(status: int) | NetworkError

  /** `response.ok`: the status is in the range 200-299. */
  predicate Ok(r: FetchResult) {
    r.Responded? && 200 <= r.status <= 299
  }

  /** A status the application routes answer with when they succeed in creating a row. */
  const Created: int := 201
}
