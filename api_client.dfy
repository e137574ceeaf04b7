/** The dashboard's single request helper, without the network: whether a
    call may be made at all, the request it builds from the configuration,
    how a reply (or a transport failure) becomes a value or an error
    message, and the activity-log line written for it. The network round
    trip itself is an input: the reply the backend would give. */
module ApiClient {
  import opened Common
  import opened Settings

  datatype HttpMethod = GET | POST | PUT | DELETE
  {
    function Name(): string
    {
      match this
      case GET => "GET"
      case POST => "POST"
      case PUT => "PUT"
      case DELETE => "DELETE"
    }
  }

  type Header = (string, string)

  datatype Request = Request(url: string, verb: HttpMethod, headers: seq<Header>, body: Option<string>)

  const NotConfiguredMsg := "API not configured"
  const HttpErrorPrefix := "HTTP error! status: "

  /** Headers of every call: JSON content and the configured key. */
  function RequestHeaders(apiKey: string): (hs: seq<Header>)
    ensures |hs| == 2 && ("X-Api-Key", apiKey) in hs && ("Content-Type", "application/json") in hs
  {
    [("Content-Type", "application/json"), ("X-Api-Key", apiKey)]
  }

  /** The request for `path`: refused locally, with no request at all,
      unless both endpoint and key are set; otherwise the URL is the
      endpoint followed by the path, the key travels in `X-Api-Key`, and a
      body (the serialised JSON, when the caller gave one) is attached. */
  function BuildRequest(c: Config, path: string, m: HttpMethod, body: Option<string>): (r: Result<Request, string>)
    ensures r.Err? <==> c.endpoint == "" || c.apiKey == ""
    ensures r.Err? ==> r.error == NotConfiguredMsg
    ensures r.Ok? ==> && r.value.url == c.endpoint + path
                      && r.value.url[..|c.endpoint|] == c.endpoint
                      && r.value.verb == m
                      && r.value.headers == RequestHeaders(c.apiKey)
                      && r.value.body == body
  {
    if !IsConfigured(c) then Err(NotConfiguredMsg)
    else Ok(Request(c.endpoint + path, m, RequestHeaders(c.apiKey), body))
  }

  /** `fetch`'s `response.ok`: a status in the 200 range. */
  predicate IsOkStatus(status: nat)
  {
    200 <= status <= 299
  }

  /** What the network gives back. `body` is the reply parsed as JSON (or
      the parser's error message); `message` is that JSON's `message`
      field when it has one. */
  datatype Reply<T> =
    | TransportFailure(reason: string)
    | Answer(status: nat, body: Result<T, string>, message: Option<string>)

  /** The error for a non-OK status: the server's message when it sent a
      non-empty one, else a generic text naming the status. */
  function ErrorMessage(status: nat, serverMessage: Option<string>): (msg: string)
    ensures serverMessage.Some? && serverMessage.value != "" ==> msg == serverMessage.value
    ensures (serverMessage.None? || serverMessage.value == "") ==>
              msg == HttpErrorPrefix + NatToString(status)
  {
    if serverMessage.Some? && serverMessage.value != "" then serverMessage.value
    else HttpErrorPrefix + NatToString(status)
  }

  /** Without a server message, the generic text tells statuses apart. */
  lemma {:induction false} GenericErrorNamesStatus(s1: nat, s2: nat)
    requires ErrorMessage(s1, None) == ErrorMessage(s2, None)
    ensures s1 == s2
  {
    var a, b := NatToString(s1), NatToString(s2);
    assert HttpErrorPrefix + a == HttpErrorPrefix + b;
    assert a == (HttpErrorPrefix + a)[|HttpErrorPrefix|..];
    assert b == (HttpErrorPrefix + b)[|HttpErrorPrefix|..];
    NatToStringInjective(s1, s2);
  }

  /** The value or error message an answered (or failed) request ends in.
      A non-OK reply whose body is not JSON is treated as `{}`; an OK reply
      whose body is not JSON fails with the parser's message. */
  function ReplyOutcome<T>(reply: Reply<T>): (r: Result<T, string>)
    ensures r.Ok? <==> reply.Answer? && IsOkStatus(reply.status) && reply.body.Ok?
    ensures r.Ok? ==> r.value == reply.body.value
    ensures reply.Answer? && !IsOkStatus(reply.status) ==>
              r == Err(ErrorMessage(reply.status, if reply.body.Ok? then reply.message else None))
    ensures reply.Answer? && IsOkStatus(reply.status) && reply.body.Err? ==> r == Err(reply.body.error)
    ensures reply.TransportFailure? ==> r == Err(reply.reason)
  {
    match reply
    case TransportFailure(reason) => Err(reason)
    case Answer(status, body, message) =>
      if !IsOkStatus(status) then Err(ErrorMessage(status, if body.Ok? then message else None))
      else if body.Err? then Err(body.error)
      else Ok(body.value)
  }

  /** The activity-log line for a finished call. */
  function ActivityLine<T>(m: HttpMethod, path: string, outcome: Result<T, string>, elapsedMs: nat): (line: string)
    ensures outcome.Ok? ==> line == "API " + m.Name() + " " + path + " - Success (" + NatToString(elapsedMs) + "ms)"
    ensures outcome.Err? ==> line == "API " + m.Name() + " " + path + " - Failed: " + outcome.error
  {
    var head := "API " + m.Name() + " " + path;
    match outcome
    case Ok(_) => head + " - Success (" + NatToString(elapsedMs) + "ms)"
    case Err(e) => head + " - Failed: " + e
  }

  /** Paths the views request. */
  const DashboardPath := "/orders?limit=100"

  function OrdersPagePath(page: nat): string
  {
    "/orders?page=" + NatToString(page) + "&limit=10"
  }

  /** The page number can be read back from the request path. */
  lemma {:induction false} OrdersPagePathNamesPage(p1: nat, p2: nat)
    requires OrdersPagePath(p1) == OrdersPagePath(p2)
    ensures p1 == p2
  {
    var a, b := NatToString(p1), NatToString(p2);
    var pre := "/orders?page=";
    var t1, t2 := pre + a + "&limit=10", pre + b + "&limit=10";
    assert a == t1[|pre|..|t1| - 9];
    assert b == t2[|pre|..|t2| - 9];
    NatToStringInjective(p1, p2);
  }

  /** With endpoint "https://api.x.com" and key "abc", the dashboard's
      request is a GET of https://api.x.com/orders?limit=100 carrying
      `X-Api-Key: abc`. */
  lemma DashboardRequestExample()
    ensures var r := BuildRequest(Config("https://api.x.com", "abc", DefaultRegion, false), DashboardPath, GET, None);
      && r.Ok? && r.value.url == "https://api.x.com/orders?limit=100"
      && r.value.verb == GET && ("X-Api-Key", "abc") in r.value.headers
      && r.value.body == None
  {
    assert "https://api.x.com" + DashboardPath == "https://api.x.com/orders?limit=100";
  }
}
