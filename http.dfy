/** A stand-in for System.Net.Http.HttpClient: it records each request it
    sends, with the Authorization header it carries, and answers from a
    server given as a function. JSON (de)serialisation is not modelled:
    bodies and replies are already-decoded values. */
module Http {
  import opened Common
  import opened Guids
  import opened Models

  datatype Verb = GET | POST

  /** A request body, as the tester builds it before serialising it. */
  datatype Body =
    | SendMessageBody(dto: SendMessageDto)
    | CreateGroupBody(name: string, participantIds: seq<Guid>)

  /** A request relative to the client's base address. */
  datatype Request = Request(verb: Verb, path: string, authorization: Option<string>, body: Option<Body>)

  /** A reply body, as JsonConvert.DeserializeObject would read it:
      `Unreadable` stands for a body that does not deserialise to what the
      caller asks for. */
  datatype Payload =
    | ConversationList(conversations: seq<Conversation>)
    | MessagePage(page: MessageResponse)
    | Unreadable

  /** What awaiting a request gives: a response, or a thrown HttpRequestException. */
  datatype Reply =
    | Response(statusCode: int, statusName: string, payload: Payload)
    | NetworkError(error: Exn)

  /** The server side of every request: a function of the request. */
  type HttpServer = Request -> Reply

  /** The reply `server` gives to `request`. */
  function Serve(server: HttpServer, request: Request): Reply
  {
    server(request)
  }

  /** HttpResponseMessage.IsSuccessStatusCode. */
  predicate IsSuccess(r: Reply)
  {
    r.Response? && 200 <= r.statusCode <= 299
  }

  class HttpClient {
    const baseAddress: string
    /** DefaultRequestHeaders.Authorization, as the header value it sends. */
    var authorization: Option<string>
    /** Every request sent, in order. */
    var sent: seq<Request>

    constructor(baseAddress: string)
      ensures this.baseAddress == baseAddress && authorization.None? && sent == []
    {
      this.baseAddress := baseAddress;
      authorization := None;
      sent := [];
    }

    /** `DefaultRequestHeaders.Authorization = new AuthenticationHeaderValue("Bearer", token)`. */
    method SetBearer(token: string)
      modifies this
      ensures authorization == Some("Bearer " + token) && sent == old(sent)
    {
      authorization := Some("Bearer " + token);
    }

    method GetAsync(path: string, server: HttpServer) returns (r: Reply)
      modifies this
      ensures authorization == old(authorization)
      ensures sent == old(sent) + [Request(GET, path, authorization, None)]
      ensures r == Serve(server, Request(GET, path, authorization, None))
    {
      var request := Request(GET, path, authorization, None);
      sent := sent + [request];
      r := server(request);
    }

    method PostAsync(path: string, body: Option<Body>, server: HttpServer) returns (r: Reply)
      modifies this
      ensures authorization == old(authorization)
      ensures sent == old(sent) + [Request(POST, path, authorization, body)]
      ensures r == Serve(server, Request(POST, path, authorization, body))
    {
      var request := Request(POST, path, authorization, body);
      sent := sent + [request];
      r := server(request);
    }
  }
}
