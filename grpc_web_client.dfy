/**
 * The gRPC-Web client of the user-directory service
 * (internal/clients/grpc_web_client.go): base-URL defaulting, endpoint URLs,
 * the request it posts and the way it reads the response. Protobuf
 * (un)marshalling, base64 decoding and the HTTP transport are foreign calls
 * whose outcomes are chosen nondeterministically.
 */
module GrpcWeb {
  import opened Wrappers
  import opened Bytes
  import opened Framing

  /** The `UserResponse` message of the user service. */
  datatype User = User(id: string, username: string, email: string)

  /** `strings.HasPrefix`. */
  predicate HasPrefix(s: string, prefix: string)
  {
    |prefix| <= |s| && s[..|prefix|] == prefix
  }

  /** `strings.Contains`. */
  predicate Contains(s: string, sub: string)
  {
    HasPrefix(s, sub) || (s != [] && Contains(s[1..], sub))
  }

  /**
   * The base URL `NewGRPCWebClient` keeps: the address itself when it names
   * the `http` or `https` scheme, else the address behind `https://`.
   */
  function BaseURL(addr: string): (url: string)
    ensures HasPrefix(url, "http://") || HasPrefix(url, "https://")
    ensures url == addr <==> HasPrefix(addr, "http://") || HasPrefix(addr, "https://")
    ensures url != addr ==> url == "https://" + addr
  {
    if !HasPrefix(addr, "http://") && !HasPrefix(addr, "https://") then "https://" + addr else addr
  }

  /** Defaulting is idempotent: a base URL is its own base URL. */
  lemma BaseURLIdempotent(addr: string)
    ensures BaseURL(BaseURL(addr)) == BaseURL(addr)
  {
  }

  /** The two remote procedures the client calls. */
  datatype Rpc = ValidateTokenRpc | GetUserByIdRpc {
    function Name(): string {
      match this
      case ValidateTokenRpc => "ValidateToken"
      case GetUserByIdRpc => "GetUserById"
    }
  }

  /** `<baseURL>/user.UserService/<method>`. */
  function EndpointURL(baseURL: string, rpc: Rpc): (url: string)
    ensures baseURL <= url && HasPrefix(url[|baseURL|..], "/user.UserService/")
    ensures url[|baseURL| + |"/user.UserService/"|..] == rpc.Name()
  {
    baseURL + "/user.UserService/" + rpc.Name()
  }

  /** Distinct procedures are posted to distinct URLs of the same service. */
  lemma EndpointsDistinct(baseURL: string)
    ensures EndpointURL(baseURL, ValidateTokenRpc) != EndpointURL(baseURL, GetUserByIdRpc)
  {
    var a, b := EndpointURL(baseURL, ValidateTokenRpc), EndpointURL(baseURL, GetUserByIdRpc);
    assert |a| != |b|;
  }

  /** Go's `min` on two `int`s. */
  function Min(a: int, b: int): (m: int)
    ensures m <= a && m <= b
    ensures m == a || m == b
  {
    if a < b then a else b
  }

  /** `token[:min(20, len(token))]`, the prefix written to the log; never out of range. */
  function TokenPreview(token: string): (p: string)
    ensures p <= token
    ensures |p| == if |token| < 20 then |token| else 20
  {
    token[..Min(20, |token|)]
  }

  datatype HttpRequest = HttpRequest(verb: string, url: string, headers: map<string, string>, body: seq<byte>)

  datatype HttpResponse = HttpResponse(status: int, contentType: string, body: seq<byte>)

  /** The headers set on every call; `ValidateToken` adds a user agent. */
  function RequestHeaders(rpc: Rpc): (headers: map<string, string>)
    ensures "Content-Type" in headers && headers["Content-Type"] == "application/grpc-web+proto"
    ensures "Accept" in headers && headers["Accept"] == "application/grpc-web+proto"
    ensures "X-Grpc-Web" in headers && headers["X-Grpc-Web"] == "1"
    ensures "X-User-Agent" in headers <==> rpc == ValidateTokenRpc
  {
    var common := map["Content-Type" := "application/grpc-web+proto",
                       "Accept" := "application/grpc-web+proto",
                       "X-Grpc-Web" := "1"];
    if rpc == ValidateTokenRpc then common["X-User-Agent" := "grpc-web-go/1.0"] else common
  }

  /** The POST request carrying one framed message. */
  function BuildRequest(baseURL: string, rpc: Rpc, message: seq<byte>): (request: HttpRequest)
    ensures request.verb == "POST" && request.url == EndpointURL(baseURL, rpc)
    ensures |message| < Uint32Range ==> ParseFrame(request.body) == Success(message)
  {
    var request := HttpRequest("POST", EndpointURL(baseURL, rpc), RequestHeaders(rpc), Frame(message));
    if |message| < Uint32Range then FrameRoundTrip(message); request else request
  }

  /** The server receives exactly the marshalled message. */
  lemma RequestCarriesMessage(baseURL: string, rpc: Rpc, message: seq<byte>)
    requires |message| < Uint32Range
    ensures ParseFrame(BuildRequest(baseURL, rpc, message).body) == Success(message)
    ensures BuildRequest(baseURL, rpc, message).headers["Content-Type"] == "application/grpc-web+proto"
  {
    FrameRoundTrip(message);
  }

  /**
   * Why a call failed. A `cause` is the text of the error a library call
   * returned, which the client wraps with `%w`.
   */
  datatype CallError =
    | MarshalFailed(cause: string)          // proto.Marshal
    | RequestBuildFailed(cause: string)     // http.NewRequestWithContext, e.g. an address url.Parse rejects
    | RequestFailed(cause: string)          // the HTTP round trip
    | BadStatus(status: int, body: seq<byte>)
    | ReadFailed(cause: string)             // reading the response body
    | Base64Failed(cause: string)           // decoding a grpc-web-text body
    | BadFrame(frameError: FrameError)
    | UnmarshalFailed(cause: string)        // proto.Unmarshal
  {
    /** The failures that happen before any request goes out. */
    predicate BeforeSending()
    {
      MarshalFailed? || RequestBuildFailed?
    }
  }

  const TextContentType := "application/grpc-web-text"

  /**
   * What the client makes of a response body it has read: a non-200 status
   * is an error; a `grpc-web-text` body is replaced by its base64 decoding
   * (`decoded`, computed outside the model, or the decoder's error); the
   * result is parsed as a frame.
   */
  function ReadResponse(resp: HttpResponse, decoded: Result<seq<byte>, string>): (r: Result<seq<byte>, CallError>)
    ensures r.Success? ==> resp.status == 200
    ensures resp.status != 200 ==> r == Failure(BadStatus(resp.status, resp.body))
    ensures resp.status == 200 && Contains(resp.contentType, TextContentType) ==>
      (decoded.Failure? ==> r == Failure(Base64Failed(decoded.error))) &&
      (decoded.Success? ==> r == FrameResult(decoded.value))
    ensures resp.status == 200 && !Contains(resp.contentType, TextContentType) ==> r == FrameResult(resp.body)
  {
    if resp.status != 200 then
      Failure(BadStatus(resp.status, resp.body))
    else if Contains(resp.contentType, TextContentType) then
      match decoded
      case Failure(cause) => Failure(Base64Failed(cause))
      case Success(data) => FrameResult(data)
    else
      FrameResult(resp.body)
  }

  function FrameResult(data: seq<byte>): Result<seq<byte>, CallError>
  {
    match ParseFrame(data)
    case Success(msg) => Success(msg)
    case Failure(e) => Failure(BadFrame(e))
  }

  /** A binary 200 response holding one frame, trailers or not, yields the message. */
  lemma ReadBinaryResponse(msg: seq<byte>, rest: seq<byte>, contentType: string, decoded: Result<seq<byte>, string>)
    requires |msg| < Uint32Range && !Contains(contentType, TextContentType)
    ensures ReadResponse(HttpResponse(200, contentType, Frame(msg) + rest), decoded) == Success(msg)
  {
    FrameIgnoresTrailing(msg, rest);
  }

  /**
   * A `grpc-web-text` 200 response yields the message of the frame its body
   * decodes to, whatever the undecoded body was; an undecodable body gives
   * the decoder's error.
   */
  lemma ReadTextResponse(msg: seq<byte>, rest: seq<byte>, contentType: string, body: seq<byte>, cause: string)
    requires |msg| < Uint32Range && Contains(contentType, TextContentType)
    ensures ReadResponse(HttpResponse(200, contentType, body), Success(Frame(msg) + rest)) == Success(msg)
    ensures ReadResponse(HttpResponse(200, contentType, body), Failure(cause)) == Failure(Base64Failed(cause))
  {
    FrameIgnoresTrailing(msg, rest);
  }

  /** A call the client has made, in order. */
  datatype Call = ValidateTokenCall(token: string) | GetUserByIdCall(userId: string)

  class GRPCWebClient {
    const baseURL: string
    /** The calls made on this client. */
    ghost var calls: seq<Call>
    /** The HTTP requests it sent. */
    ghost var sent: seq<HttpRequest>
    /** What each call returned, in order. */
    ghost var answers: seq<Result<User, CallError>>

    constructor (addr: string)
      ensures baseURL == BaseURL(addr)
      ensures calls == [] && sent == [] && answers == []
    {
      baseURL := BaseURL(addr);
      calls := [];
      sent := [];
      answers := [];
    }

    /**
     * One remote call: marshal, frame, build the request, post, read and
     * unframe, unmarshal. Each foreign step may fail; a request is sent
     * exactly when marshalling and building the request succeeded, and it
     * carries the framed message.
     */
    method Invoke(rpc: Rpc, call: Call) returns (r: Result<User, CallError>)
      modifies this
      ensures calls == old(calls) + [call]
      ensures old(sent) <= sent && |sent| <= |old(sent)| + 1
      ensures sent != old(sent) ==> exists m :: sent[|old(sent)|] == BuildRequest(baseURL, rpc, m)
      ensures sent == old(sent) <==> r.Failure? && r.error.BeforeSending()
      ensures answers == old(answers) + [r]
    {
      calls := calls + [call];
      r := Exchange(rpc);
      answers := answers + [r];
    }

    /** The steps of one call after it has been recorded. */
    method Exchange(rpc: Rpc) returns (r: Result<User, CallError>)
      modifies this
      ensures calls == old(calls) && answers == old(answers)
      ensures old(sent) <= sent && |sent| <= |old(sent)| + 1
      ensures sent != old(sent) ==> exists m :: sent[|old(sent)|] == BuildRequest(baseURL, rpc, m)
      ensures sent == old(sent) <==> r.Failure? && r.error.BeforeSending()
    {
      var marshalError: Option<string> := *;
      if marshalError.Some? {
        return Failure(MarshalFailed(marshalError.value));
      }
      var messageData: seq<byte> := *;
      var body := EncodeFrame(messageData);
      var requestError: Option<string> := *;
      if requestError.Some? {
        return Failure(RequestBuildFailed(requestError.value));
      }
      var request := HttpRequest("POST", EndpointURL(baseURL, rpc), RequestHeaders(rpc), body);
      sent := sent + [request];
      assert sent[|old(sent)|] == BuildRequest(baseURL, rpc, messageData);
      var transportError: Option<string> := *;
      if transportError.Some? {
        return Failure(RequestFailed(transportError.value));
      }
      var resp: HttpResponse := *;
      var readError: Option<string> := *;
      if resp.status == 200 && readError.Some? {
        return Failure(ReadFailed(readError.value));
      }
      var decoded: Result<seq<byte>, string> := *;
      var payload := ReadResponse(resp, decoded);
      if payload.Failure? {
        return Failure(payload.error);
      }
      var unmarshalError: Option<string> := *;
      if unmarshalError.Some? {
        return Failure(UnmarshalFailed(unmarshalError.value));
      }
      var user: User := *;
      r := Success(user);
    }

    /** `ValidateToken`: one call with the token. */
    method ValidateToken(token: string) returns (r: Result<User, CallError>)
      modifies this
      ensures calls == old(calls) + [ValidateTokenCall(token)]
      ensures answers == old(answers) + [r]
      ensures old(sent) <= sent && |sent| <= |old(sent)| + 1
      ensures sent != old(sent) ==> exists m :: sent[|old(sent)|] == BuildRequest(baseURL, ValidateTokenRpc, m)
      ensures sent == old(sent) <==> r.Failure? && r.error.BeforeSending()
    {
      r := Invoke(ValidateTokenRpc, ValidateTokenCall(token));
    }

    /** `GetUserById`: one call with the user id. */
    method GetUserById(userId: string) returns (r: Result<User, CallError>)
      modifies this
      ensures calls == old(calls) + [GetUserByIdCall(userId)]
      ensures answers == old(answers) + [r]
      ensures old(sent) <= sent && |sent| <= |old(sent)| + 1
      ensures sent != old(sent) ==> exists m :: sent[|old(sent)|] == BuildRequest(baseURL, GetUserByIdRpc, m)
      ensures sent == old(sent) <==> r.Failure? && r.error.BeforeSending()
    {
      r := Invoke(GetUserByIdRpc, GetUserByIdCall(userId));
    }
  }
}
