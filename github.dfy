/** The registration-token request of internal/runner/github.go. The HTTP
    exchange itself is outside the model: the client is the oracle `send`,
    which maps the request it is given to what the server answered or how the
    exchange failed, and decoding the JSON body is the oracle `parse`, which
    yields the `token` field (empty when absent). */
module GitHub {
  import opened Wrappers
  import opened Strings
  import opened Config

  const StatusCreated: int := 201
  const EmptyToken: Text := "empty token in response"

  /** An HTTP request as the client builds it. */
  datatype Request = Request(verb: Text, url: Text, headers: seq<(Text, Text)>)

  /** How the exchange ended: not sent, sent but the body could not be read,
      or answered. */
  datatype Reply =
    | Unsent(reason: Text)
    | Unread(reason: Text)
    | Received(status: int, body: Text)

  /** The request for a registration token. */
  function TokenRequest(cfg: Config): Request {
    Request("POST", cfg.github.registrationEndpoint,
      [("Authorization", "Bearer " + cfg.github.apiToken),
       ("Accept", "application/vnd.github.v3+json"),
       ("X-GitHub-Api-Version", "2022-11-28")])
  }

  /** The token request is a POST to the registration endpoint carrying the
      bearer token, the v3 media type and the pinned API version. */
  lemma TokenRequestHeaders(cfg: Config)
    ensures var r := TokenRequest(cfg);
      && r.verb == "POST" && r.url == cfg.github.registrationEndpoint
      && Header(r.headers, "Authorization") == Some("Bearer " + cfg.github.apiToken)
      && Header(r.headers, "Accept") == Some("application/vnd.github.v3+json")
      && Header(r.headers, "X-GitHub-Api-Version") == Some("2022-11-28")
  {
    var h := TokenRequest(cfg).headers;
    HeaderNamesDiffer();
    assert h[1..][1..] == [("X-GitHub-Api-Version", "2022-11-28")];
    assert Header(h[1..][1..], "X-GitHub-Api-Version") == Some("2022-11-28");
    assert Header(h[1..], "Accept") == Some("application/vnd.github.v3+json");
  }

  /** The value set for header `name`, if any. */
  function Header(headers: seq<(Text, Text)>, name: Text): Option<Text> {
    if |headers| == 0 then None
    else if headers[0].0 == name then Some(headers[0].1)
    else Header(headers[1..], name)
  }

  lemma HeaderNamesDiffer()
    ensures "Authorization" != "Accept" && "Authorization" != "X-GitHub-Api-Version"
    ensures "Accept" != "X-GitHub-Api-Version"
  {
    assert "Authorization"[1] != "Accept"[1];
    assert |"Authorization"| != |"X-GitHub-Api-Version"|;
    assert |"Accept"| != |"X-GitHub-Api-Version"|;
  }

  /** The error a non-201 answer reads as. */
  function StatusError(status: int, body: Text): Text {
    "GitHub API error (status " + Itoa(status) + "): " + body
  }

  /** `GetRegistrationToken`: `createErr` is the error of `http.NewRequest`, if
      any; otherwise the token request is built and handed to `send`. */
  function RegistrationToken(cfg: Config, createErr: Option<Text>, send: Request -> Reply,
                             parse: Text -> Result<Text>): Result<Text> {
    if createErr.Some? then Err("failed to create request: " + createErr.value)
    else Answer(send(TokenRequest(cfg)), parse)
  }

  /** What the answer to the token request reads as. */
  function Answer(reply: Reply, parse: Text -> Result<Text>): Result<Text> {
    match reply
    case Unsent(reason) => Err("request failed: " + reason)
    case Unread(reason) => Err("failed to read response: " + reason)
    case Received(status, body) =>
      if status != StatusCreated then Err(StatusError(status, body))
      else match parse(body)
        case Err(e) => Err("failed to parse response: " + e)
        case Ok(token) => if token == "" then Err(EmptyToken) else Ok(token)
  }

  /** A token is obtained exactly when the request is built, the answer to it
      is 201, its body parses and the token in it is not empty; that token is
      returned. */
  lemma TokenOkIff(cfg: Config, createErr: Option<Text>, send: Request -> Reply, parse: Text -> Result<Text>)
    ensures var reply := send(TokenRequest(cfg));
      RegistrationToken(cfg, createErr, send, parse).Ok? <==>
        createErr.None? && reply.Received? && reply.status == StatusCreated
        && parse(reply.body).Ok? && parse(reply.body).value != ""
    ensures var reply := send(TokenRequest(cfg));
      RegistrationToken(cfg, createErr, send, parse).Ok? ==>
        RegistrationToken(cfg, createErr, send, parse).value == parse(reply.body).value
        && RegistrationToken(cfg, createErr, send, parse).value != ""
  {
  }

  /** The only request the client sends is the token request, so the result
      depends on the client only through its answer to that request: a POST
      to the registration endpoint with the bearer token, the v3 media type
      and API version 2022-11-28. */
  lemma TokenAnswersTokenRequest(cfg: Config, createErr: Option<Text>, send: Request -> Reply,
                                 other: Request -> Reply, parse: Text -> Result<Text>)
    requires send(TokenRequest(cfg)) == other(TokenRequest(cfg))
    ensures RegistrationToken(cfg, createErr, send, parse) == RegistrationToken(cfg, createErr, other, parse)
    ensures createErr.None? ==> RegistrationToken(cfg, createErr, send, parse) == Answer(send(TokenRequest(cfg)), parse)
    ensures var r := TokenRequest(cfg);
      && r.verb == "POST" && r.url == cfg.github.registrationEndpoint
      && Header(r.headers, "Authorization") == Some("Bearer " + cfg.github.apiToken)
      && Header(r.headers, "Accept") == Some("application/vnd.github.v3+json")
      && Header(r.headers, "X-GitHub-Api-Version") == Some("2022-11-28")
  {
    TokenRequestHeaders(cfg);
  }

  /** Any other status is reported with its code and body, whatever the body
      would have parsed to. */
  lemma NonCreatedIgnoresBody(reply: Reply, parse: Text -> Result<Text>, other: Text -> Result<Text>)
    requires reply.Received? && reply.status != StatusCreated
    ensures Answer(reply, parse) == Err(StatusError(reply.status, reply.body))
    ensures Answer(reply, parse) == Answer(reply, other)
  {
  }

  /** A 201 answer whose body does not parse, or carries an empty token, is an error. */
  lemma CreatedButUnusable(body: Text, parse: Text -> Result<Text>)
    ensures parse(body).Err? ==>
      Answer(Received(StatusCreated, body), parse) == Err("failed to parse response: " + parse(body).error)
    ensures parse(body) == Ok("") ==>
      Answer(Received(StatusCreated, body), parse) == Err(EmptyToken)
  {
  }

  /** The status error names the code in decimal where it can be read back,
      and ends with the body. */
  lemma StatusErrorReadsBack(status: int, body: Text)
    requires MinInt64 <= status <= MaxInt64
    ensures var e := StatusError(status, body);
      && HasPrefix(e, "GitHub API error (status ")
      && |e| >= 25 + |Itoa(status)|
      && Atoi(e[25..25 + |Itoa(status)|]) == Some(status)
      && HasSuffix(e, "): " + body)
  {
    var p, d := "GitHub API error (status ", Itoa(status);
    var e := StatusError(status, body);
    AppendAssoc(p + d, "): ", body);
    AppendAssoc(p, d, "): " + body);
    assert e == p + (d + ("): " + body));
    assert |p| == 25;
    assert e[25..25 + |d|] == d;
    AtoiItoa(status);
  }
}
