/**
 * What the publisher sees of the web: requests it sends, the outcome of each
 * (a transport exception, or a response with its status code, body text,
 * decoded JSON and parsed HTML), and the HTTP session that sends them.
 * HTML parsing and JSON decoding are not modelled: their results are part of
 * the response.
 */
module Web {
  import opened Wrappers

  /** An `<input>` element: its `name` and `value` attributes, when present. */
  datatype Input = Input(name: Option<string>, value: Option<string>)

  /** A `<textarea>` element and its `name` attribute, when present. */
  datatype Textarea = Textarea(name: Option<string>)

  /** The first `<form>` of a page: all its inputs in document order, its first textarea, its `action`. */
  datatype Form = Form(inputs: seq<Input>, textarea: Option<Textarea>, action: Option<string>)

  /** An `<a>` element: its visible text and its `href` attribute, when present. */
  datatype Link = Link(text: string, href: Option<string>)

  /** A page as the publisher reads it: its first form, if any, and all its links in order. */
  datatype Page = Page(form: Option<Form>, links: seq<Link>)

  /**
   * A response body read as JSON. `Unparsable` covers a body that does not
   * decode, or decodes to something without `.get`; `Parsed(success)` holds the
   * truthiness of the `success` member (false when it is absent).
   */
  datatype Json = Unparsable | Parsed(success: bool)

  datatype Response = Response(status: int, text: string, json: Json, page: Page)

  /** The result of one request: a transport exception (timeouts included) or a response. */
  datatype Outcome = Raised | Got(response: Response)

  /** A request: a GET, a form-encoded POST or a JSON POST, with its payload. */
  datatype Request =
    | Get(url: string)
    | PostForm(url: string, fields: map<string, string>)
    | PostJson(url: string, fields: map<string, string>)

  /**
   * The remote site: the outcome of a request, given how many requests the
   * session sent before it (so the same request may be answered differently
   * before and after logging in).
   */
  type Server = (nat, Request) -> Outcome

  /** `raise_for_status()` raises for client and server error codes. */
  predicate IsErrorStatus(status: int) {
    400 <= status < 600
  }

  /** A GET whose response cannot be used: it raised, or `raise_for_status()` would raise. */
  predicate Unusable(o: Outcome) {
    o.Raised? || IsErrorStatus(o.response.status)
  }

  /**
   * Proof aid, not a model of the source: concatenation of request traces
   * regroups freely. Callers name the three parts so the verifier need not
   * search for the grouping itself.
   */
  lemma AppendRegroup(a: seq<Request>, b: seq<Request>, c: seq<Request>)
    ensures (a + b) + c == a + (b + c)
  {
  }

  /** An HTTP session: sends requests to one site and records, in order, what it sent. */
  class Session {
    const server: Server
    var sent: seq<Request>

    constructor (server: Server)
      ensures this.server == server && sent == []
    {
      this.server := server;
      sent := [];
    }

    /** Sends one request; the outcome is the site's answer at this point of the session. */
    method Send(request: Request) returns (o: Outcome)
      modifies this
      ensures sent == old(sent) + [request]
      ensures o == server(|old(sent)|, request)
    {
      o := server(|sent|, request);
      sent := sent + [request];
    }
  }
}
