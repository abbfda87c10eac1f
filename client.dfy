/**
 * The client wrapper as objects whose fields are updated in place: the
 * options run against a freshly allocated Client, and Get writes the
 * per-call settings onto the underlying HTTP client before the request goes out.
 */
module OptionsPattern {
  import opened Options

  /** The name of the request header that carries the user agent. */
  const UserAgentHeader: string := "User-Agent"

  /** A request as handed to the HTTP client: verb, target and header lines. */
  datatype Request = Request(verb: string, url: string, header: map<string, seq<string>>)

  /**
   * What the redirect check answers: carry on to the redirect target, or
   * stop and return the redirect response itself (ErrUseLastResponse).
   */
  datatype RedirectVerdict = FollowRedirect | UseLastResponse

  /** The outcome of Get up to the point where the request is handed over. */
  datatype GetOutcome = Sent(request: Request) | InvalidRequest

  /**
   * The three settings of the library's HTTP client that the wrapper writes.
   * A nil CheckRedirect is null here; a non-null one is the redirect check
   * of that Client, which reads its followRedirects flag when it is asked.
   */
  class HttpClient {
    var transport: Transport
    var timeout: Duration
    var checkRedirect: Client?

    /** A zero-valued HTTP client: nil transport, no timeout, no redirect check. */
    constructor ()
      ensures transport == DefaultTransport && timeout == 0 && checkRedirect == null
    {
      transport := DefaultTransport;
      timeout := 0;
      checkRedirect := null;
    }
  }

  class Client {
    const client: HttpClient
    var timeout: Duration
    var userAgent: string
    var followRedirects: bool

    /** The configuration this client currently resolves to. */
    function Resolved(): Config
      reads this, client
    {
      Config(timeout, userAgent, followRedirects, client.transport)
    }

    /** The client record with its defaults, before any option runs. */
    constructor ()
      ensures Resolved() == Defaults
      ensures fresh(client)
      ensures client.timeout == 0 && client.checkRedirect == null
    {
      client := new HttpClient();
      timeout := DefaultTimeout;
      userAgent := DefaultUserAgent;
      followRedirects := true;
    }

    /**
     * Runs one option against this client. Every option overwrites its own
     * field only; the per-call settings of the HTTP client are not touched.
     */
    method ApplyOption(o: Option)
      modifies this, client
      ensures Resolved() == Apply(old(Resolved()), o)
      ensures client.timeout == old(client.timeout)
      ensures client.checkRedirect == old(client.checkRedirect)
    {
      match o
      case WithTimeout(d) => timeout := d;
      case WithUserAgent(s) => userAgent := s;
      case WithoutRedirects => followRedirects := false;
      case UseInsecureTransport => client.transport := InsecureTransport;
    }

    /**
     * The redirect check Get installs. It ignores the redirect request and
     * the chain of earlier requests, and stops with the last response exactly
     * when this client does not follow redirects.
     */
    function CheckRedirect(req: Request, via: seq<Request>): (v: RedirectVerdict)
      reads this
      ensures v == UseLastResponse <==> !followRedirects
    {
      if !followRedirects then UseLastResponse else FollowRedirect
    }

    /**
     * Prepares a GET of url. urlParses stands for the verdict of the
     * library's request constructor on url; when it refuses, Get returns at
     * once and writes nothing. Otherwise the request carries exactly the
     * configured user agent, and the HTTP client gets this client's timeout
     * and its redirect check; the configuration itself is unchanged.
     */
    method Get(url: string, urlParses: bool) returns (r: GetOutcome)
      modifies client
      ensures Resolved() == old(Resolved())
      ensures !urlParses ==> r == InvalidRequest && unchanged(client)
      ensures urlParses ==> r == Sent(Request("GET", url, map[UserAgentHeader := [userAgent]]))
      ensures urlParses ==> client.timeout == timeout && client.checkRedirect == this
    {
      if !urlParses {
        return InvalidRequest;
      }
      var req := Request("GET", url, map[]);
      req := req.(header := req.header[UserAgentHeader := [userAgent]]);
      client.timeout := timeout;
      client.checkRedirect := this;
      r := Sent(req);
    }
  }

  /**
   * Builds a client: the defaults first, then every option in the order
   * given, so the client resolves to the fold of the options over the defaults.
   */
  method NewClient(options: seq<Option>) returns (c: Client)
    ensures fresh(c) && fresh(c.client)
    ensures c.Resolved() == ApplyAll(Defaults, options)
    ensures c.client.timeout == 0 && c.client.checkRedirect == null
  {
    c := new Client();
    for i := 0 to |options|
      invariant fresh(c.client)
      invariant c.Resolved() == ApplyAll(Defaults, options[..i])
      invariant c.client.timeout == 0 && c.client.checkRedirect == null
    {
      c.ApplyOption(options[i]);
      assert options[..i + 1] == options[..i] + [options[i]];
      ApplyAllSnoc(Defaults, options[..i], options[i]);
    }
    assert options[..|options|] == options;
  }

  /**
   * A GET prepared right after construction. When the request constructor
   * accepts url, the request and the HTTP client carry the user agent,
   * timeout and redirect behaviour that the options resolve to; when it
   * refuses, nothing is written to the HTTP client.
   */
  method NewClientThenGet(options: seq<Option>, url: string, urlParses: bool) returns (c: Client, r: GetOutcome)
    ensures fresh(c) && c.Resolved() == ApplyAll(Defaults, options)
    ensures !urlParses ==> r == InvalidRequest && c.client.timeout == 0 && c.client.checkRedirect == null
    ensures urlParses ==>
      r == Sent(Request("GET", url, map[UserAgentHeader := [ApplyAll(Defaults, options).userAgent]]))
    ensures urlParses ==> c.client.timeout == ApplyAll(Defaults, options).timeout
    ensures urlParses ==> c.client.checkRedirect == c
    ensures c.CheckRedirect(Request("GET", url, map[]), []) == UseLastResponse
        <==> WithoutRedirects in options
  {
    c := NewClient(options);
    r := c.Get(url, urlParses);
    FollowRedirectsResolved(Defaults, options);
  }
}
