// Shapes shared by the transport client and the app facade (src/common.ts).

module Common {

  /** An optional value: `None` stands for a JavaScript `undefined` or `null`. */
  datatype Option<+T> = None | Some(value: T)

  /** The outcome of an operation that may throw. */
  datatype Result<+R, +E> = Ok(value: R) | Err(error: E)

  /** A header dictionary, `{ [key: string]: string }`. */
  type Headers = map<string, string>

  /** JavaScript truthiness of an optional string: present and not empty. */
  predicate Truthy(s: Option<string>)
  {
    s.Some? && s.value != ""
  }

  /**
   * The options of one request. It is an object that callers own and that
   * the app facade rewrites in place, so it is a class with mutable fields.
   * The body is kept as the value the caller supplied.
   */
  class RequestOptions {
    var httpMethod: string
    var path: string
    var jwt: Option<string>
    var headers: Option<Headers>
    var body: Option<string>

    constructor (httpMethod: string, path: string, jwt: Option<string>, headers: Option<Headers>, body: Option<string>)
      ensures this.httpMethod == httpMethod && this.path == path && this.jwt == jwt
      ensures this.headers == headers && this.body == body
    {
      this.httpMethod := httpMethod;
      this.path := path;
      this.jwt := jwt;
      this.headers := headers;
      this.body := body;
    }
  }
}
