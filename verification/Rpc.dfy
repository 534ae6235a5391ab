/**
  A remote call over natsrpc: what the client sends, what the server does with it, and what comes back.
*/
module Rpc {
  import opened Wrappers
  import opened Encoding
  import opened MetaData

  // ----- machine integers -----

  const TWO_TO_16 := 0x1_0000
  const TWO_TO_64 := 0x1_0000_0000_0000_0000

  // Conversions wrap around.
  function ToInt16(x: int): int {
    (x + 0x8000) % TWO_TO_16 - 0x8000
  }

  function ToUint64(x: int): int {
    x % TWO_TO_64
  }

  function ToInt64(x: int): int {
    (x + 0x8000_0000_0000_0000) % TWO_TO_64 - 0x8000_0000_0000_0000
  }

  // A code that fits survives; any other is cut to its lowest 16 bits.
  lemma CodeSurvives(code: int)
    ensures -0x8000 <= ToInt16(code) < 0x8000 && (ToInt16(code) - code) % TWO_TO_16 == 0
    ensures -0x8000 <= code < 0x8000 ==> ToInt16(code) == code
  {
  }

  lemma TimeoutSurvives(d: int)
    requires 0 < d < 0x8000_0000_0000_0000
    ensures 0 < ToUint64(d) && ToInt64(ToUint64(d)) == d
  {
  }

  // ----- errors, handlers, wire -----

  const MethodNotFound := -32602
  const EncodeRequestError := -32603
  const DecodeRequestError := -32604
  const EncodeResponseError := -32605
  const DecodeResponseError := -32606

  datatype Error = RPCError(code: int, message: string) | PlainError(text: string)

  predicate Int16Code(e: Error) {
    e.RPCError? ==> -0x8000 <= e.code < 0x8000
  }

  datatype Ctx = Ctx(md: map<string, seq<Bytes>>, timeout: Option<int>)

  // What a handler does: it returns an output and an error, either of which may be nil, or it panics.
  datatype Handled = Return(output: Option<Data>, err: Option<Error>) | Panic

  type Handler = (Ctx, Data) -> Handled

  datatype Spec = Spec(svcName: string, methodName: string, inputType: Type, outputType: Type)

  datatype MethodInfo = MethodInfo(spec: Spec, handler: Handler, decoder: Decoder, encoder: Encoder)

  datatype Request = Request(md: map<string, seq<Bytes>>, inputFormat: string, inputBytes: Bytes, timeout: int)

  datatype ResponseType = OutputResponse | RpcErrResponse | ErrResponse | UnknownResponse

  datatype Response = Response(ty: ResponseType, outputFormat: string, outputBytes: Bytes, errCode: int, errMessage: string)

  // Protobuf as used for requests and responses; marshalling fails, for example, on text that is not valid UTF-8.
  datatype Wire = Wire(
    marshalRequest: Request -> Result<Bytes, string>,
    unmarshalRequest: Bytes -> Result<Request, string>,
    marshalResponse: Response -> Result<Bytes, string>,
    unmarshalResponse: Bytes -> Result<Response, string>)
  {
    ghost predicate Lossless() {
      && (forall r: Request :: marshalRequest(r).Success? ==> unmarshalRequest(marshalRequest(r).value) == Success(r))
      && (forall r: Response :: marshalResponse(r).Success? ==> unmarshalResponse(marshalResponse(r).value) == Success(r))
    }
  }

  // ----- the server -----

  // Service-side configuration: the base context's incoming metadata.
  datatype Server = Server(lib: Library, wire: Wire, baseMD: map<string, seq<Bytes>>)

  function ServerError(svc: string, m: string, code: int, text: string): Error {
    RPCError(code, "natsrpc::server[" + svc + "::" + m + "] " + text)
  }

  function ErrorResponse(e: Error): Response {
    match e
    case RPCError(code, message) => Response(RpcErrResponse, "", [], code, message)
    case PlainError(text) => Response(ErrResponse, "", [], 0, text)
  }

  function HandlerCtx(server: Server, req: Request): Ctx {
    Ctx(if req.md != map[] then req.md else server.baseMD,
        if 0 < req.timeout then Some(ToInt64(req.timeout)) else None)
  }

  // The response the submitted task decides on; None if it panics before replying.
  function Serve(server: Server, svc: string, m: string, info: Option<MethodInfo>, data: Bytes): Option<Response> {
    if info.None? then Some(ErrorResponse(ServerError(svc, m, MethodNotFound, "method not found")))
    else
      match server.wire.unmarshalRequest(data)
      case Failure(e) => Some(ErrorResponse(ServerError(svc, m, DecodeRequestError, "unmarshal reqeust error " + e)))
      case Success(req) =>
        match Decode(server.lib, info.value.decoder, req.inputFormat, req.inputBytes, info.value.spec.inputType)
        case Failure(e) => Some(ErrorResponse(ServerError(svc, m, DecodeRequestError, "decode input error " + e)))
        case Success(input) =>
          ServeHandled(server, svc, m, info.value, req.inputFormat, info.value.handler(HandlerCtx(server, req), input))
  }

  function ServeHandled(server: Server, svc: string, m: string, info: MethodInfo, format: string, handled: Handled): Option<Response> {
    match handled
    case Panic => None
    case Return(_, Some(e)) => Some(ErrorResponse(e))
    case Return(None, None) => None  // the type assertion on a nil output panics
    case Return(Some(output), None) =>
      if TypeOf(output) != info.spec.outputType then
        Some(ErrorResponse(ServerError(svc, m, EncodeResponseError, "assert output error unexpected output type")))
      else
        match Encode(server.lib, info.encoder, output, format)
        case Failure(e) => Some(ErrorResponse(ServerError(svc, m, EncodeResponseError, "encode output error " + e)))
        case Success(out) => Some(Response(OutputResponse, out.format, out.bytes, 0, ""))
  }

  // The replies actually published for a response.
  function Publish(wire: Wire, resp: Option<Response>): seq<Bytes> {
    if resp.Some? && wire.marshalResponse(resp.value).Success? then [wire.marshalResponse(resp.value).value] else []
  }

  // The response to a request, if there is to be one: the submitted task's, or else the complaint that there is none.
  function Answer(server: Server, svc: string, m: string, info: Option<MethodInfo>, data: Bytes, submitError: Option<string>): Option<Response> {
    if submitError.Some? then Some(ErrorResponse(PlainError("natsrpc.Server submit task error: " + submitError.value)))
    else Serve(server, svc, m, info, data)
  }

  /** The server's message handler, for a request to method m of svc: what has been published to the reply subject
      when it is done.  There is exactly one reply if there is a response, it can be marshalled and NATS takes it,
      and otherwise none. */
  method MsgHandler(server: Server, svc: string, m: string, info: Option<MethodInfo>, data: Bytes, submitError: Option<string>, natsTakes: bool)
    returns (replies: seq<Bytes>)
    ensures |replies| <= 1
    ensures |replies| == 1 <==>
      && natsTakes
      && Answer(server, svc, m, info, data, submitError).Some?
      && server.wire.marshalResponse(Answer(server, svc, m, info, data, submitError).value).Success?
    ensures forall reply :: reply in replies ==>
      server.wire.marshalResponse(Answer(server, svc, m, info, data, submitError).value) == Success(reply)
    ensures submitError.Some? && natsTakes ==>
      var complaint := Response(ErrResponse, "", [], 0, "natsrpc.Server submit task error: " + submitError.value);
      var marshalled := server.wire.marshalResponse(complaint);
      marshalled.Success? ==> replies == [marshalled.value]
  {
    replies := [];
    if submitError.Some? {
      replies := ReplyError(server.wire, natsTakes, replies, PlainError("natsrpc.Server submit task error: " + submitError.value));
      return;
    }
    if info.None? {
      replies := ReplyError(server.wire, natsTakes, replies, ServerError(svc, m, MethodNotFound, "method not found"));
      return;
    }
    var req := server.wire.unmarshalRequest(data);
    if req.Failure? {
      replies := ReplyError(server.wire, natsTakes, replies, ServerError(svc, m, DecodeRequestError, "unmarshal reqeust error " + req.error));
      return;
    }
    var input := Decode(server.lib, info.value.decoder, req.value.inputFormat, req.value.inputBytes, info.value.spec.inputType);
    if input.Failure? {
      replies := ReplyError(server.wire, natsTakes, replies, ServerError(svc, m, DecodeRequestError, "decode input error " + input.error));
      return;
    }
    var handled := info.value.handler(HandlerCtx(server, req.value), input.value);
    if handled.Panic? {
      return;  // recovered and logged
    }
    if handled.err.Some? {
      replies := ReplyError(server.wire, natsTakes, replies, handled.err.value);
      return;
    }
    if handled.output.None? {
      return;  // panics in the type assertion, recovered and logged
    }
    var output := handled.output.value;
    if TypeOf(output) != info.value.spec.outputType {
      replies := ReplyError(server.wire, natsTakes, replies, ServerError(svc, m, EncodeResponseError, "assert output error unexpected output type"));
      return;
    }
    var target := new Target(req.value.inputFormat);
    var err := EncodeData(server.lib, info.value.encoder, output, target);
    if err.Some? {
      replies := ReplyError(server.wire, natsTakes, replies, ServerError(svc, m, EncodeResponseError, "encode output error " + err.value));
      return;
    }
    replies := Reply(server.wire, natsTakes, replies, Response(OutputResponse, target.format, target.bytes, 0, ""));
  }

  // Marshals and publishes a response; both may fail, which is only logged.
  method Reply(wire: Wire, natsTakes: bool, published: seq<Bytes>, resp: Response) returns (replies: seq<Bytes>)
    ensures replies == published + if natsTakes then Publish(wire, Some(resp)) else []
  {
    var data := wire.marshalResponse(resp);
    if data.Failure? {
      return published;
    }
    if !natsTakes {
      return published;
    }
    return published + [data.value];
  }

  method ReplyError(wire: Wire, natsTakes: bool, published: seq<Bytes>, e: Error) returns (replies: seq<Bytes>)
    ensures replies == published + if natsTakes then Publish(wire, Some(ErrorResponse(e))) else []
  {
    match e
    case RPCError(code, message) => replies := Reply(wire, natsTakes, published, Response(RpcErrResponse, "", [], code, message));
    case PlainError(text) => replies := Reply(wire, natsTakes, published, Response(ErrResponse, "", [], 0, text));
  }

  // The request gets to the handler with this context and input.
  ghost predicate Reaches(server: Server, info: Option<MethodInfo>, data: Bytes, format: string, ctx: Ctx, input: Data) {
    info.Some? &&
    exists req :: server.wire.unmarshalRequest(data) == Success(req) && req.inputFormat == format &&
      ctx == HandlerCtx(server, req) &&
      Decode(server.lib, info.value.decoder, format, req.inputBytes, info.value.spec.inputType) == Success(input)
  }

  /** Reply discipline: an output goes back only if lookup, decoding, the handler, the type check and the encoding all
      succeeded, and then it is the handler's output, in the format of the request if it named one. */
  lemma OutputOnlyIfAllSucceeded(server: Server, svc: string, m: string, info: Option<MethodInfo>, data: Bytes)
    requires var r := Serve(server, svc, m, info, data); r.Some? && r.value.ty.OutputResponse?
    ensures var r := Serve(server, svc, m, info, data).value;
      exists format, ctx, input, output ::
        && Reaches(server, info, data, format, ctx, input)
        && info.value.handler(ctx, input) == Return(Some(output), None)
        && TypeOf(output) == info.value.spec.outputType
        && Encode(server.lib, info.value.encoder, output, format) == Success(Encoded(r.outputFormat, r.outputBytes))
        && (format != "" ==> r.outputFormat == format)
  {
    var req := server.wire.unmarshalRequest(data).value;
    var input := Decode(server.lib, info.value.decoder, req.inputFormat, req.inputBytes, info.value.spec.inputType).value;
    var ctx := HandlerCtx(server, req);
    var output := info.value.handler(ctx, input).output.value;
    assert Reaches(server, info, data, req.inputFormat, ctx, input);
    if req.inputFormat != "" { RequestedFormatHonoured(server.lib, info.value.encoder, output, req.inputFormat); }
  }

  // The response is an error with this code, in the name of the method.
  predicate Refuses(resp: Option<Response>, svc: string, m: string, code: int) {
    && resp.Some? && resp.value.ty.RpcErrResponse? && resp.value.errCode == code
    && "natsrpc::server[" + svc + "::" + m + "] " <= resp.value.errMessage
  }

  // The request or its input cannot be decoded.
  predicate Undecodable(server: Server, info: MethodInfo, data: Bytes) {
    match server.wire.unmarshalRequest(data)
    case Failure(_) => true
    case Success(req) => Decode(server.lib, info.decoder, req.inputFormat, req.inputBytes, info.spec.inputType).Failure?
  }

  // The handler returns an output that is of the wrong type or cannot be encoded in the format of the request.
  ghost predicate Unencodable(server: Server, info: MethodInfo, data: Bytes) {
    exists format, ctx, input, output ::
      && Reaches(server, Some(info), data, format, ctx, input)
      && info.handler(ctx, input) == Return(Some(output), None)
      && (TypeOf(output) != info.spec.outputType || Encode(server.lib, info.encoder, output, format).Failure?)
  }

  /** Each stage that refuses a request has its own error code. */
  lemma ServerRefusals(server: Server, svc: string, m: string, info: Option<MethodInfo>, data: Bytes)
    ensures var resp := Serve(server, svc, m, info, data);
      && (info.None? ==> resp == Some(Response(RpcErrResponse, "", [], MethodNotFound, "natsrpc::server[" + svc + "::" + m + "] " + "method not found")))
      && (info.Some? && Undecodable(server, info.value, data) ==> Refuses(resp, svc, m, DecodeRequestError))
      && (info.Some? && Unencodable(server, info.value, data) ==> Refuses(resp, svc, m, EncodeResponseError))
  {
  }

  /** A handler runs with what is left of the caller's time, or without a limit if the request names none; values beyond
      an int64 wrap around to a time already over. */
  lemma HandlerTime(server: Server, req: Request)
    requires 0 <= req.timeout < TWO_TO_64
    ensures var time := HandlerCtx(server, req).timeout;
      && (time.None? <==> req.timeout == 0)
      && (0 < req.timeout < 0x8000_0000_0000_0000 ==> time == Some(req.timeout))
      && (0x8000_0000_0000_0000 <= req.timeout ==> time.Some? && time.value < 0)
  {
  }

  /** The server stays silent only if the handler was reached and panicked or returned neither output nor error. */
  lemma SilentOnlyOnPanic(server: Server, svc: string, m: string, info: Option<MethodInfo>, data: Bytes)
    ensures Serve(server, svc, m, info, data).None? <==>
      exists format, ctx, input :: Reaches(server, info, data, format, ctx, input) &&
        (info.value.handler(ctx, input).Panic? || info.value.handler(ctx, input) == Return(None, None))
  {
    if info.Some? && server.wire.unmarshalRequest(data).Success? {
      var req := server.wire.unmarshalRequest(data).value;
      var input := Decode(server.lib, info.value.decoder, req.inputFormat, req.inputBytes, info.value.spec.inputType);
      if input.Success? {
        assert Reaches(server, info, data, req.inputFormat, HandlerCtx(server, req), input.value);
      }
    }
  }

  // ----- the client -----

  datatype Client = Client(lib: Library, wire: Wire, encoder: Encoder, decoder: Decoder, timeout: int)

  datatype CallResult = Output(output: Data) | Failed(err: Error) | ClientPanics

  // What RequestWithContext returns.
  datatype NetResult = Replied(data: Bytes) | NetFailed(text: string)

  function ClientError(spec: Spec, code: int, text: string): CallResult {
    Failed(RPCError(code, "natsrpc::client[" + spec.svcName + "::" + spec.methodName + "] " + text))
  }

  // The time a call has: what is left until the context's deadline, or else the connection's default.
  function CallTime(client: Client, remaining: Option<int>): int {
    if remaining.Some? then remaining.value else client.timeout
  }

  // The request to be sent, or the result if none is.
  function MakeRequest(client: Client, spec: Spec, md: MD, remaining: Option<int>, input: Data): Result<Request, CallResult> {
    if TypeOf(input) != spec.inputType then
      Failure(ClientError(spec, EncodeRequestError, "assert input type error unexpected input type"))
    else
      match Encode(client.lib, client.encoder, input, "")
      case Failure(e) => Failure(ClientError(spec, EncodeRequestError, "encode input error " + e))
      case Success(out) =>
        if CallTime(client, remaining) <= 0 then Failure(Failed(PlainError("context deadline exceeded")))
        else Success(Request(View(md), out.format, out.bytes, ToUint64(CallTime(client, remaining))))
  }

  function ReadResponse(client: Client, spec: Spec, inputFormat: string, resp: Response): CallResult {
    match resp.ty
    case OutputResponse =>
      if resp.outputFormat != inputFormat then
        ClientError(spec, DecodeResponseError, "expect output format " + inputFormat + ", but got " + resp.outputFormat)
      else
        (match Decode(client.lib, client.decoder, resp.outputFormat, resp.outputBytes, spec.outputType)
         case Failure(e) => ClientError(spec, DecodeResponseError, "decode output error: " + e)
         case Success(output) => Output(output))
    case RpcErrResponse => Failed(RPCError(ToInt16(resp.errCode), resp.errMessage))
    case ErrResponse => Failed(PlainError(resp.errMessage))
    case UnknownResponse => ClientPanics
  }

  /** The handler that makeHandler returns; net is the round trip through NATS. */
  function Call(client: Client, spec: Spec, net: Bytes -> NetResult, md: MD, remaining: Option<int>, input: Data): CallResult {
    match MakeRequest(client, spec, md, remaining, input)
    case Failure(r) => r
    case Success(req) =>
      match client.wire.marshalRequest(req)
      case Failure(e) => ClientError(spec, EncodeRequestError, "marshal request error " + e)
      case Success(data) =>
        match net(data)
        case NetFailed(text) => Failed(PlainError(text))
        case Replied(replyData) =>
          match client.wire.unmarshalResponse(replyData)
          case Failure(e) => ClientError(spec, DecodeResponseError, "unmarshal response error " + e)
          case Success(resp) => ReadResponse(client, spec, req.inputFormat, resp)
  }

  // This is what the client sends for the call.
  ghost predicate Sends(client: Client, spec: Spec, md: MD, remaining: Option<int>, input: Data, data: Bytes) {
    var time := if remaining.Some? then remaining.value else client.timeout;
    && TypeOf(input) == spec.inputType && 0 < time
    && exists format, bytes ::
      && Encode(client.lib, client.encoder, input, "") == Success(Encoded(format, bytes))
      && client.wire.marshalRequest(Request(View(md), format, bytes, ToUint64(time))) == Success(data)
  }

  predicate FailsWith(r: CallResult, spec: Spec, code: int) {
    && r.Failed? && r.err.RPCError? && r.err.code == code
    && "natsrpc::client[" + spec.svcName + "::" + spec.methodName + "] " <= r.err.message
  }

  /** A call that is not sent fails with EncodeRequestError, or because its time is over. */
  lemma UnsentCalls(client: Client, spec: Spec, net: Bytes -> NetResult, md: MD, remaining: Option<int>, input: Data)
    requires forall data :: !Sends(client, spec, md, remaining, input, data)
    ensures var r := Call(client, spec, net, md, remaining, input);
      var time := if remaining.Some? then remaining.value else client.timeout;
      if TypeOf(input) == spec.inputType && Encode(client.lib, client.encoder, input, "").Success? && time <= 0
      then r == Failed(PlainError("context deadline exceeded"))
      else FailsWith(r, spec, EncodeRequestError)
  {
    var req := MakeRequest(client, spec, md, remaining, input);
    if req.Success? {
      var out := Encode(client.lib, client.encoder, input, "").value;
      var marshalled := client.wire.marshalRequest(req.value);
      assert Encode(client.lib, client.encoder, input, "") == Success(Encoded(out.format, out.bytes));
      if marshalled.Success? { assert Sends(client, spec, md, remaining, input, marshalled.value); }
    }
  }

  /** A call that is sent fails with NATS's own error if NATS fails, with DecodeResponseError if the reply or its output
      cannot be decoded or is in another format than the input, and with the error of the reply if it is one. */
  lemma SentCalls(client: Client, spec: Spec, net: Bytes -> NetResult, md: MD, remaining: Option<int>, input: Data, data: Bytes)
    requires Sends(client, spec, md, remaining, input, data)
    ensures var r := Call(client, spec, net, md, remaining, input);
      match net(data)
      case NetFailed(text) => r == Failed(PlainError(text))
      case Replied(reply) =>
        (match client.wire.unmarshalResponse(reply)
         case Failure(_) => FailsWith(r, spec, DecodeResponseError)
         case Success(Response(OutputResponse, format, bytes, _, _)) =>
           if Encode(client.lib, client.encoder, input, "").value.format != format then FailsWith(r, spec, DecodeResponseError)
           else
             (match Decode(client.lib, client.decoder, format, bytes, spec.outputType)
              case Failure(_) => FailsWith(r, spec, DecodeResponseError)
              case Success(output) => r == Output(output))
         case Success(Response(RpcErrResponse, _, _, code, message)) =>
           -0x8000 <= code < 0x8000 ==> r == Failed(RPCError(code, message))
         case Success(Response(ErrResponse, _, _, _, message)) => r == Failed(PlainError(message))
         case Success(Response(UnknownResponse, _, _, _, _)) => r == ClientPanics)
  {
  }

  /** The code of the handler that makeHandler returns. */
  method CallHandler(client: Client, spec: Spec, net: Bytes -> NetResult, md: MD, remaining: Option<int>, input: Data)
    returns (r: CallResult)
    ensures r == Call(client, spec, net, md, remaining, input)
  {
    if TypeOf(input) != spec.inputType {
      return ClientError(spec, EncodeRequestError, "assert input type error unexpected input type");
    }
    var reqMD := NewMetaData(md);
    var target := new Target("");
    var err := EncodeData(client.lib, client.encoder, input, target);
    if err.Some? {
      return ClientError(spec, EncodeRequestError, "encode input error " + err.value);
    }
    var dur := client.timeout;
    if remaining.Some? { dur := remaining.value; }
    if dur <= 0 {
      return Failed(PlainError("context deadline exceeded"));
    }
    var reqData := client.wire.marshalRequest(Request(reqMD, target.format, target.bytes, ToUint64(dur)));
    if reqData.Failure? {
      return ClientError(spec, EncodeRequestError, "marshal request error " + reqData.error);
    }
    var respMsg := net(reqData.value);
    if respMsg.NetFailed? {
      return Failed(PlainError(respMsg.text));
    }
    var resp := client.wire.unmarshalResponse(respMsg.data);
    if resp.Failure? {
      return ClientError(spec, DecodeResponseError, "unmarshal response error " + resp.error);
    }
    return ReadResponse(client, spec, target.format, resp.value);
  }

  // A network that delivers the request to the server, whose runner accepts it, and brings the reply back in time.
  function Direct(server: Server, spec: Spec, info: Option<MethodInfo>, data: Bytes): NetResult {
    var replies := Publish(server.wire, Serve(server, spec.svcName, spec.methodName, info, data));
    if |replies| == 1 then Replied(replies[0]) else NetFailed("nats: timeout")
  }

  // Calling the handler without a network in between.
  function LocalCall(handled: Handled): CallResult {
    match handled
    case Return(_, Some(e)) => Failed(e)
    case Return(Some(output), None) => Output(output)
    case _ => ClientPanics
  }

  // Both ends agree on the method, the protocol, and the marshalling libraries, which are lossless.
  ghost predicate Agree(client: Client, server: Server, spec: Spec, info: MethodInfo) {
    && client.wire == server.wire && client.wire.Lossless()
    && client.lib == server.lib && client.lib.Lossless()
    && info.spec == spec
  }

  // The call can be made: the input is of the right type, encodes and marshals, the server's decoder suits the
  // client's encoder, and there is time left.
  predicate Callable(client: Client, spec: Spec, info: MethodInfo, md: MD, remaining: Option<int>, input: Data) {
    && TypeOf(input) == spec.inputType && 0 < CallTime(client, remaining) < 0x8000_0000_0000_0000
    && Encode(client.lib, client.encoder, input, "").Success?
    && client.wire.marshalRequest(MakeRequest(client, spec, md, remaining, input).value).Success?
    && Compatible(client.encoder, info.decoder, input)
  }

  // The format the client's encoder names.
  function CallFormat(client: Client, input: Data): string
    requires Encode(client.lib, client.encoder, input, "").Success?
  {
    Encode(client.lib, client.encoder, input, "").value.format
  }

  // What the handler answered can be sent and read: an error with valid text, or an output of the declared type that
  // can be encoded in the requested format, and whose encoding the client's decoder suits.
  predicate Answerable(client: Client, server: Server, info: MethodInfo, format: string, handled: Handled) {
    match handled
    case Return(_, Some(e)) => Int16Code(e) && server.wire.marshalResponse(ErrorResponse(e)).Success?
    case Return(Some(output), None) =>
      && TypeOf(output) == info.spec.outputType
      && Encode(server.lib, info.encoder, output, format).Success?
      && (var out := Encode(server.lib, info.encoder, output, format).value;
          server.wire.marshalResponse(Response(OutputResponse, out.format, out.bytes, 0, "")).Success?)
      && Compatible(info.encoder, client.decoder, output)
    case _ => false
  }

  // The context in which the server runs the handler of this call.
  function RemoteCtx(server: Server, client: Client, md: MD, remaining: Option<int>): Ctx {
    Ctx(if View(md) != map[] then View(md) else server.baseMD, Some(if remaining.Some? then remaining.value else client.timeout))
  }

  /** The request arrives: the handler runs once, on the caller's input, with the caller's metadata (or, if that is
      empty, the server's own) and the caller's time. */
  lemma RequestArrives(client: Client, server: Server, spec: Spec, info: MethodInfo, md: MD, remaining: Option<int>, input: Data)
    requires Agree(client, server, spec, info) && Callable(client, spec, info, md, remaining, input)
    ensures Serve(server, spec.svcName, spec.methodName, Some(info),
            client.wire.marshalRequest(MakeRequest(client, spec, md, remaining, input).value).value) ==
      ServeHandled(server, spec.svcName, spec.methodName, info, CallFormat(client, input), info.handler(RemoteCtx(server, client, md, remaining), input))
  {
    TimeoutSurvives(CallTime(client, remaining));
    EncodeDecode(client.lib, client.encoder, info.decoder, input, "");
  }

  // The format of the reply is the one the client compares with: it named one, or the server's encoder has none
  // of its own for this output.
  predicate FormatsMeet(info: MethodInfo, format: string, handled: Handled)
    requires handled.Return? && (handled.err.None? ==> handled.output.Some?)
  {
    handled.err.Some? || format != "" || NativeFormat(info.encoder, handled.output.value) == ""
  }

  /** Transparency: a call through client, network and server gives what calling the handler directly gives: the same
      output, the same error code and message, or the same error text.  It does so exactly if the formats meet. */
  lemma Transparency(client: Client, server: Server, spec: Spec, info: MethodInfo, md: MD, remaining: Option<int>, input: Data)
    requires Agree(client, server, spec, info) && Callable(client, spec, info, md, remaining, input)
    requires Answerable(client, server, info, CallFormat(client, input), info.handler(RemoteCtx(server, client, md, remaining), input))
    ensures var handled := info.handler(RemoteCtx(server, client, md, remaining), input);
      Call(client, spec, data => Direct(server, spec, Some(info), data), md, remaining, input) == LocalCall(handled)
      <==> FormatsMeet(info, CallFormat(client, input), handled)
  {
    var format := CallFormat(client, input);
    var handled := info.handler(RemoteCtx(server, client, md, remaining), input);
    RequestArrives(client, server, spec, info, md, remaining, input);
    if handled.err.Some? {
      if handled.err.value.RPCError? { CodeSurvives(handled.err.value.code); }
    } else {
      var output := handled.output.value;
      FormatMismatchIff(client, server, spec, info, format, output);
      EncodeDecode(server.lib, info.encoder, client.decoder, output, format);
    }
  }

  /** Formats need not meet: a client that sends a raw message without naming a format, to a handler whose output the
      server encodes as json, gets an error where a local call gives the output. */
  lemma FormatsNeedNotMeet() returns (client: Client, server: Server, spec: Spec, info: MethodInfo, input: Data)
    ensures Agree(client, server, spec, info) && Callable(client, spec, info, NilMD, None, input)
    ensures Answerable(client, server, info, CallFormat(client, input), info.handler(RemoteCtx(server, client, NilMD, None), input))
    ensures Call(client, spec, data => Direct(server, spec, Some(info), data), NilMD, None, input) !=
            LocalCall(info.handler(RemoteCtx(server, client, NilMD, None), input))
  {
    input := RawData("", [7]);
    var output := Value("out", false, []);
    var lib := Library(_ => Failure(""), (_, _) => Failure(""), _ => Failure(""), (_, _) => Failure(""),
                       d => if d == output then Success([1]) else Failure(""), (b, ty) => if b == [1] && ty == TypeOf(output) then Success(output) else Failure(""));
    var req := Request(map[], "", [7], 1);
    var resp := Response(OutputResponse, JsonFormat, [1], 0, "");
    var wire := Wire(r => if r == req then Success([2]) else Failure(""), b => if b == [2] then Success(req) else Failure(""),
                     r => if r == resp then Success([3]) else Failure(""), b => if b == [3] then Success(resp) else Failure(""));
    spec := Spec("svc", "method", RawType, TypeOf(output));
    info := MethodInfo(spec, (_, _) => Return(Some(output), None), RawDecoder(Some(PbJsonDecoder)), RawEncoder(Some(PbJsonEncoder(JsonFormat))));
    client := Client(lib, wire, RawEncoder(None), RawDecoder(Some(PbJsonDecoder)), 1);
    server := Server(lib, wire, map[]);
    assert View(NilMD) == map[];
    assert MakeRequest(client, spec, NilMD, None, input) == Success(req);
    assert Encode(lib, info.encoder, output, "") == Encode(lib, PbJsonEncoder(JsonFormat), output, "") == Success(Encoded(JsonFormat, [1]));
    assert !FormatsMeet(info, "", Return(Some(output), None));
    Transparency(client, server, spec, info, NilMD, None, input);
  }

  /** The client's format check fails on a reply of this server exactly if the client's encoder named no format and
      the server's encoder chose one by itself. */
  lemma FormatMismatchIff(client: Client, server: Server, spec: Spec, info: MethodInfo, inputFormat: string, output: Data)
    requires TypeOf(output) == info.spec.outputType && Encode(server.lib, info.encoder, output, inputFormat).Success?
    ensures var resp := ServeHandled(server, spec.svcName, spec.methodName, info, inputFormat, Return(Some(output), None));
      && resp.Some? && resp.value.ty.OutputResponse?
      && (resp.value.outputFormat != inputFormat <==> inputFormat == "" && NativeFormat(info.encoder, output) != "")
  {
    if inputFormat == "" {
      UnrequestedFormatIsNative(server.lib, info.encoder, output);
    } else {
      RequestedFormatHonoured(server.lib, info.encoder, output, inputFormat);
    }
  }

  /** What a server refuses is seen at the client with the server's error code. */
  lemma RefusalsReachTheCaller(client: Client, server: Server, spec: Spec, info: Option<MethodInfo>, md: MD, remaining: Option<int>,
                               input: Data, data: Bytes)
    requires client.wire == server.wire && client.wire.Lossless() && Sends(client, spec, md, remaining, input, data)
    requires var resp := Serve(server, spec.svcName, spec.methodName, info, data);
      resp.Some? ==> server.wire.marshalResponse(resp.value).Success?
    ensures var r := Call(client, spec, sent => Direct(server, spec, info, sent), md, remaining, input);
      && (info.None? ==>
           r == Failed(RPCError(MethodNotFound, "natsrpc::server[" + spec.svcName + "::" + spec.methodName + "] " + "method not found")))
      && (info.Some? && Undecodable(server, info.value, data) ==> RefusedWith(r, spec, DecodeRequestError))
      && (info.Some? && Unencodable(server, info.value, data) ==> RefusedWith(r, spec, EncodeResponseError))
  {
    ServerRefusals(server, spec.svcName, spec.methodName, info, data);
    SentCalls(client, spec, sent => Direct(server, spec, info, sent), md, remaining, input, data);
  }

  predicate RefusedWith(r: CallResult, spec: Spec, code: int) {
    && r.Failed? && r.err.RPCError? && r.err.code == code
    && "natsrpc::server[" + spec.svcName + "::" + spec.methodName + "] " <= r.err.message
  }
}
