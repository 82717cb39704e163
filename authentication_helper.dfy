/** AuthenticationHelper: the HTTP client authorised with the caller's JWT,
    the user id read from the token's claims, the token check against the
    server, and the hub connections built and started with the token. */
module Auth {
  import opened Common
  import opened Strings
  import opened Jwt
  import opened Http
  import opened SignalR

  const GetMePath := "api/User/GetMe"
  const ChatHubPath := "/hubs/chat"

  /** The claim types taken as the user id, any one of them. */
  predicate IsUserIdClaim(c: Claim)
  {
    || c.claimType == "nameid"
    || c.claimType == "nameidentifier"
    || c.claimType == "sub"
    || c.claimType == NameIdentifierUri
  }

  /** The user id a read token yields: the value of the first claim, in
      token order, whose type is one of the four user id types; nothing
      when there is no such claim, when the token is not a JWT, or when
      reading it threw. */
  function UserIdOf(read: ReadResult): (r: Option<string>)
    ensures r.Some? <==> read.Read? && AnySatisfies(read.token.claims, IsUserIdClaim)
    ensures r.Some? ==>
              exists i :: 0 <= i < |read.token.claims| && IsUserIdClaim(read.token.claims[i])
                          && read.token.claims[i].value == r.value
                          && forall j :: 0 <= j < i ==> !IsUserIdClaim(read.token.claims[j])
  {
    match read
    case Read(token) =>
      FindFirstFindsAny(token.claims, IsUserIdClaim);
      (match FindFirst(token.claims, IsUserIdClaim)
       case Some(i) => Some(token.claims[i].value)
       case None => None)
    case _ => None
  }

  /** The claims are searched in token order, not by preference among the
      types: whichever user id claim comes first supplies the id. */
  lemma FirstUserIdClaimWins(token: JwtToken, i: nat)
    requires i < |token.claims| && IsUserIdClaim(token.claims[i])
    requires forall j :: 0 <= j < i ==> !IsUserIdClaim(token.claims[j])
    ensures UserIdOf(Read(token)) == Some(token.claims[i].value)
  {
  }

  /** How HubConnectionBuilder is configured for a base URL and a token: the
      chat hub's path under the base URL, the token as the access token, the
      token with the Bearer prefix as the Authorization header, automatic
      reconnect on. */
  function HubOptionsFor(baseUrl: string, token: string): (o: HubOptions)
    ensures StartsWith(o.url, baseUrl) && o.url[|baseUrl|..] == ChatHubPath
    ensures o.accessToken == token
    ensures o.headers == [("Authorization", "Bearer " + token)]
    ensures o.automaticReconnect
  {
    var o := HubOptions(baseUrl + ChatHubPath, token, [("Authorization", "Bearer " + token)], true);
    assert o.url[..|baseUrl|] == baseUrl;
    o
  }

  /** The status lines TryConnectToHub reports for a start that ended with `outcome`. */
  function ConnectLines(hubUrl: string, outcome: Outcome): seq<string>
  {
    ["Creating connection to " + hubUrl + "...", "Starting connection to " + hubUrl + "..."]
    + if outcome.Ok? then ["Connected to " + hubUrl]
      else ["Failed to connect to " + hubUrl + ": " + outcome.error.message]
           + (if outcome.error.inner.Some? then ["Inner exception: " + outcome.error.inner.value.message] else [])
  }

  /** A connection attempt reports two progress lines, then one line on
      success or one or two on failure: the exception's message, then the
      inner exception's message only when there is one. */
  lemma ConnectLinesShape(hubUrl: string, outcome: Outcome)
    ensures var lines := ConnectLines(hubUrl, outcome);
            && |lines| == (if outcome.Ok? then 3 else if outcome.error.inner.Some? then 4 else 3)
            && lines[0] == "Creating connection to " + hubUrl + "..."
            && lines[1] == "Starting connection to " + hubUrl + "..."
            && (outcome.Ok? <==> lines[2] == "Connected to " + hubUrl)
            && (outcome.Fail? ==>
                  && lines[2] == "Failed to connect to " + hubUrl + ": " + outcome.error.message
                  && (outcome.error.inner.Some? ==> lines[3] == "Inner exception: " + outcome.error.inner.value.message))
  {
    var lines := ConnectLines(hubUrl, outcome);
    if outcome.Fail? {
      var failed := "Failed to connect to " + hubUrl + ": " + outcome.error.message;
      var connected := "Connected to " + hubUrl;
      assert lines[2] == failed;
      assert failed[0] != connected[0] by {
        assert failed[0] == 'F' && connected[0] == 'C';
      }
    }
  }

  class AuthenticationHelper {
    const baseUrl: string
    const jwtToken: string
    const httpClient: HttpClient

    /** An HTTP client on the base URL, authorised with the token when there is one. */
    constructor(baseUrl: string, jwtToken: string)
      ensures this.baseUrl == baseUrl && this.jwtToken == jwtToken
      ensures fresh(httpClient) && httpClient.baseAddress == baseUrl && httpClient.sent == []
      ensures httpClient.authorization == if jwtToken == "" then None else Some("Bearer " + jwtToken)
    {
      this.baseUrl := baseUrl;
      this.jwtToken := jwtToken;
      var client := new HttpClient(baseUrl);
      if jwtToken != "" {
        client.SetBearer(jwtToken);
      }
      httpClient := client;
    }

    /** The user id in this helper's token; `reader` is what the JWT
        library reads from a string; what it throws is caught. */
    function GetUserIdFromToken(reader: TokenReader): (r: Option<string>)
      ensures r == UserIdOf(ReadToken(reader, jwtToken))
    {
      UserIdOf(ReadToken(reader, jwtToken))
    }

    /** One authorised GET of the current user; the token is valid exactly
        when the server answers with a success status. A request that throws
        counts as invalid. */
    method ValidateToken(server: HttpServer) returns (valid: bool)
      modifies httpClient
      ensures httpClient.sent == old(httpClient.sent) + [Request(GET, GetMePath, httpClient.authorization, None)]
      ensures httpClient.authorization == old(httpClient.authorization)
      ensures valid <==> IsSuccess(Serve(server, Request(GET, GetMePath, httpClient.authorization, None)))
    {
      var response := httpClient.GetAsync(GetMePath, server);
      return IsSuccess(response);
    }

    /** A new, unstarted connection configured for the chat hub under the
        base URL; the URL argument plays no part in it. */
    method CreateHubConnection(hubUrl: string) returns (connection: HubConnection)
      ensures fresh(connection)
      ensures connection.options == HubOptionsFor(baseUrl, jwtToken)
      ensures connection.state == Disconnected && connection.handlers == [] && connection.calls == []
    {
      connection := new HubConnection(HubOptionsFor(baseUrl, jwtToken));
    }

    /** Creates and starts a connection, reporting each step under `hubUrl`;
        the started connection on success, null on failure. */
    method TryConnectToHub(hubUrl: string, sink: StatusSink, hub: HubServer) returns (connection: HubConnection?)
      modifies sink
      ensures sink.lines == old(sink.lines) + ConnectLines(hubUrl, SignalR.Reply(hub, Start))
      ensures connection == null <==> SignalR.Reply(hub, Start).Fail?
      ensures connection != null ==>
                && fresh(connection)
                && connection.options == HubOptionsFor(baseUrl, jwtToken)
                && connection.state == Connected && connection.handlers == [] && connection.calls == [Start]
    {
      sink.Post("Creating connection to " + hubUrl + "...");
      var c := CreateHubConnection(hubUrl);
      sink.Post("Starting connection to " + hubUrl + "...");
      var started := c.StartAsync(hub);
      if started.Ok? {
        sink.Post("Connected to " + hubUrl);
        return c;
      }
      sink.Post("Failed to connect to " + hubUrl + ": " + started.error.message);
      if started.error.inner.Some? {
        sink.Post("Inner exception: " + started.error.inner.value.message);
      }
      return null;
    }
  }
}
