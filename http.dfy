/** The part of the HTTP library the client touches, reduced to what it
    can observe: the request it hands over, the reply it gets back, a
    session object it creates and closes, and the server behind them as
    an oracle. */
module Http {
  import opened Errors
  import opened JsonValue

  type Bytes = seq<bv8>

  datatype Method = GET | POST

  /** What travels as the request body. */
  datatype Body =
    | NoBody
    | Data(text: string)          // `data=` with a string
    | Raw(bytes: Bytes)           // `data=` with file contents, kept opaque
    | JsonPayload(json: Json)     // `json=`

  /** The arguments the client passes to its site's request method: the
      path is still relative to the site. Header values are JSON values so
      that the digest, whatever the server sent, is carried as it is. */
  datatype Call = Call(
    verb: Method,
    path: string,
    headers: map<string, Json>,
    params: map<string, string>,
    body: Body,
    stream: bool)

  /** A request as it goes out: the absolute URL and the call it came from. */
  datatype Request = Request(url: string, call: Call)

  /** A reply: its status, its body decoded as JSON when it is JSON, and its
      raw content. */
  datatype Reply = Reply(status: int, json: Option<Json>, content: Bytes)

  /** The server, seen from the client: the reply to a request may depend
      on every request received before it. */
  type Server = (seq<Request>, Request) -> Reply

  /** `raise_for_status`: 4xx and 5xx replies become HttpError. */
  function RaiseForStatus(reply: Reply): (r: Result<Reply>)
    ensures r.Failure? <==> 400 <= reply.status < 600
    ensures r.Success? ==> r.value == reply
    ensures r.Failure? ==> r.error == HttpError(reply.status)
  {
    if 400 <= reply.status < 600 then Failure(HttpError(reply.status)) else Success(reply)
  }

  /** `r.json()`: the decoded body, or JsonDecodeError. */
  function ReadJson(reply: Reply): (r: Result<Json>)
    ensures r.Success? <==> reply.json.Some?
    ensures r.Success? ==> r.value == reply.json.value
    ensures r.Failure? ==> r.error == JsonDecodeError
  {
    match reply.json
    case Some(j) => Success(j)
    case None => Failure(JsonDecodeError)
  }

  /** The network and the server: every request sent is recorded in order,
      and answered by the oracle from the record so far. */
  class Transport {
    var sent: seq<Request>
    const server: Server

    constructor (server: Server)
      ensures this.server == server && sent == []
    {
      this.server := server;
      sent := [];
    }

    method Send(req: Request) returns (reply: Reply)
      modifies this
      ensures sent == old(sent) + [req]
      ensures reply == server(old(sent), req)
    {
      reply := server(sent, req);
      sent := sent + [req];
    }
  }

  /** A session authenticated with NTLM credentials. Closing it releases
      its connections; the client never consults that afterwards. */
  class Session {
    const username: string
    const password: string
    var closed: bool

    constructor (username: string, password: string)
      ensures this.username == username && this.password == password && !closed
    {
      this.username := username;
      this.password := password;
      closed := false;
    }

    method Close()
      modifies this
      ensures closed
    {
      closed := true;
    }
  }
}
