/**
 * The browser-side vocabulary shared by the token holder and the request
 * gateway: nullable strings, HTTP headers, responses whose bodies may or may
 * not parse as JSON, the result of a `fetch`, and the errors the code throws.
 */
module Web {

  datatype Option<+T> = None | Some(value: T)

  datatype Result<+T, +E> = Ok(value: T) | Err(error: E)

  /** JavaScript truthiness of a `string | null`: null and "" are falsy. */
  predicate Truthy(s: Option<string>) {
    s.Some? && s.value != ""
  }

  /** Header names, written in the lower-case form the Fetch `Headers` class stores. */
  const Authorization: string := "authorization"
  const ContentType: string := "content-type"
  const JsonMediaType: string := "application/json"

  type Headers = map<string, string>

  /** The `RequestInit` fields a caller may pass; absent fields are `None`. */
  datatype Options = Options(
    httpMethod: Option<string>,
    headers: Headers,
    credentials: Option<string>,
    body: Option<string>)

  /** One call of `fetch`: the URL and the options it was given. */
  datatype Outgoing = Outgoing(url: string, options: Options)

  /**
   * What `Response.json()` yields: a parse failure, JSON `null`, or a value
   * whose string-valued properties are `fields` (a missing property reads as
   * `undefined`).
   */
  datatype Body = Unparseable | JsonNull | JsonObject(fields: map<string, string>)

  /** Property access `body.name` on a value that is not null. */
  function Field(body: Body, name: string): (v: Option<string>)
    requires body.JsonObject?
    ensures v.Some? <==> name in body.fields
    ensures v.Some? ==> v.value == body.fields[name]
  {
    if name in body.fields then Some(body.fields[name]) else None
  }

  datatype Response = Response(status: int, body: Body)

  /** `Response.ok`: the status is in the range 200-299. */
  predicate IsOk(r: Response) {
    200 <= r.status <= 299
  }

  const Unauthorized: int := 401

  /** A `fetch` either yields a response or rejects (network failure). */
  datatype FetchResult = Fetched(response: Response) | FetchFailed

  /** What the code can throw. */
  datatype Error =
    | Thrown(message: string)  // `new Error(message)` raised by the code itself
    | NetworkFailure           // `fetch` rejected
    | BadJson                  // `Response.json()` rejected
    | NullBody                 // a TypeError: a property read on a JSON `null` body
}
