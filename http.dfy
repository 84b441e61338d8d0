/**
 * The parts of net/http the core touches: a request whose query string can be
 * rewritten, a response whose body can be swapped, and what the underlying
 * transport answers for one request.
 */
module Http {

  import opened Wrappers
  import opened GoErrors
  import opened Streams

  /** url.Values, reduced to the first value of each key (what Values.Get reads). */
  type Query = map<string, string>

  /** http.Header: each key with its list of values. */
  type Header = map<string, seq<string>>

  /** A request as a value: its HTTP method, everything of the URL but its query, and the query. */
  datatype RequestValue = RequestValue(verb: string, path: string, query: Query)

  class Request {
    const verb: string
    const path: string
    var query: Query

    constructor (verb: string, path: string, query: Query)
      ensures this.verb == verb && this.path == path && this.query == query
    {
      this.verb := verb;
      this.path := path;
      this.query := query;
    }

    function Value(): RequestValue
      reads this
    {
      RequestValue(verb, path, query)
    }

    /** http.Request.Clone: a new request with the same method and URL. */
    method Clone() returns (r: Request)
      ensures fresh(r) && r.Value() == Value()
    {
      r := new Request(verb, path, query);
    }
  }

  class Response {
    const statusCode: int
    const header: Option<Header>
    var body: BodyReader

    constructor (statusCode: int, header: Option<Header>, body: BodyReader)
      ensures this.statusCode == statusCode && this.header == header && this.body == body
    {
      this.statusCode := statusCode;
      this.header := header;
      this.body := body;
    }
  }

  /** http.StatusOK. */
  const StatusOK := 200

  /** One answer of the underlying http.RoundTripper: an error, or a response. */
  datatype Fetch =
    | Failed(err: Error)
    | Served(statusCode: int, header: Option<Header>, page: Page)
}
