/** `mcp_endpoint`: JSON-RPC 2.0 framing around `_dispatch_tool`. A wrong
    protocol version is refused with HTTP 400 before dispatch; every
    dispatch outcome becomes a response envelope that echoes the request id
    and carries either `result` or `error`. */
module JsonRpc {
  import opened Json
  import opened ToolRegistry
  import opened Handlers
  import opened Dispatcher

  /** `JSONRPCRequest` after validation. The `method` field is called
      `toolName` here, `method` being a Dafny keyword. */
  datatype Request = Request(jsonrpc: string, id: Option<int>, toolName: string, params: Option<Bag>)

  const MethodNotFound: int := -32601
  const InternalError: int := -32603

  /** The HTTPException detail; the hyphen in the source is U+2011. */
  const VersionDetail: string := "Invalid JSON\U{2011}RPC version"

  datatype Body = Success(result: Value) | Failed(code: int, message: string)

  /** `{"jsonrpc": "2.0", "id": ..., "result" | "error": ...}`. */
  datatype Envelope = Envelope(id: Option<int>, body: Body)

  /** What the endpoint produces: a transport-level refusal or an envelope. */
  datatype Response = Rejected(status: int, detail: string) | Reply(envelope: Envelope)

  /** The two `except` clauses: NotImplementedError is method-not-found,
      every other exception internal-error; the message is `str(exc)`. */
  function ErrorBody(f: Failure): (b: Body)
    ensures b.Failed? && b.message == Message(f)
    ensures b.code == MethodNotFound <==> IsNotImplemented(f)
    ensures b.code == MethodNotFound || b.code == InternalError
  {
    Failed(if IsNotImplemented(f) then MethodNotFound else InternalError, Message(f))
  }

  /** `mcp_endpoint(req)`. */
  function Endpoint(req: Request, reg: Registry, handlers: HandlerTable): (resp: Response)
    ensures resp.Rejected? <==> req.jsonrpc != "2.0"
    ensures resp.Rejected? ==> resp == Rejected(400, VersionDetail)
    ensures resp.Reply? ==> resp.envelope.id == req.id
  {
    if req.jsonrpc != "2.0" then Rejected(400, VersionDetail)
    else
      match Dispatch(reg, handlers, req.toolName, req.params)
      case Ok(v) => Reply(Envelope(req.id, Success(v)))
      case Err(f) => Reply(Envelope(req.id, ErrorBody(f)))
  }

  /** The id as it is serialised: `None` becomes null. */
  function IdJson(id: Option<int>): Value {
    if id.None? then Null else Int(id.value)
  }

  /** The dict the endpoint returns for an envelope. */
  function EnvelopeJson(e: Envelope): Value {
    var head := map["jsonrpc" := Str("2.0"), "id" := IdJson(e.id)];
    match e.body
    case Success(v) => Obj(head["result" := v])
    case Failed(c, m) => Obj(head["error" := Obj(map["code" := Int(c), "message" := Str(m)])])
  }

  // ---------------------------------------------------------------------
  // Properties
  // ---------------------------------------------------------------------

  /** Every envelope carries the version, the id (null when absent) and
      exactly one of `result` and `error`. */
  lemma ExactlyOneOfResultOrError(e: Envelope)
    ensures EnvelopeJson(e).Obj?
    ensures EnvelopeJson(e).fields.Keys == {"jsonrpc", "id", "result"} ||
            EnvelopeJson(e).fields.Keys == {"jsonrpc", "id", "error"}
    ensures ("result" in EnvelopeJson(e).fields) != ("error" in EnvelopeJson(e).fields)
    ensures EnvelopeJson(e).fields["jsonrpc"] == Str("2.0")
    ensures EnvelopeJson(e).fields["id"] == IdJson(e.id)
    ensures e.body.Success? ==> EnvelopeJson(e).fields["result"] == e.body.result
  {
  }

  /** A wrong version is refused before the registry or any handler plays a
      part: the answer is the same whatever they are. */
  lemma VersionCheckedFirst(req: Request, reg1: Registry, hs1: HandlerTable, reg2: Registry, hs2: HandlerTable)
    requires req.jsonrpc != "2.0"
    ensures Endpoint(req, reg1, hs1) == Endpoint(req, reg2, hs2) == Rejected(400, VersionDetail)
  {
  }

  /** A tool that is not in the registry: ValueError, so internal-error with
      the message naming the tool. */
  lemma UnknownToolReply(req: Request, reg: Registry, handlers: HandlerTable)
    requires req.jsonrpc == "2.0"
    requires Lookup(reg, KStr(req.toolName)).None?
    ensures Endpoint(req, reg, handlers) ==
              Reply(Envelope(req.id, Failed(InternalError, "Unknown tool '" + req.toolName + "'")))
  {
  }

  /** The same after loading a catalog: a tool no record names is unknown. */
  lemma UnknownAfterLoad(req: Request, items: seq<Value>, handlers: HandlerTable)
    requires req.jsonrpc == "2.0"
    requires AllNamed(items)
    requires forall i :: 0 <= i < |items| ==> NameKey(items[i]) != Some(KStr(req.toolName))
    ensures Endpoint(req, Load(Parsed(Arr(items))), handlers) ==
              Reply(Envelope(req.id, Failed(InternalError, "Unknown tool '" + req.toolName + "'")))
  {
    LoadLookup(items, KStr(req.toolName));
  }

  /** A registered tool without a handler: NotImplementedError, so
      method-not-found with the message naming the tool. */
  lemma UnimplementedReply(req: Request, reg: Registry, handlers: HandlerTable)
    requires req.jsonrpc == "2.0"
    requires Valid(reg)
    requires KStr(req.toolName) in reg.table
    requires HandlerName(req.toolName) !in handlers
    ensures Endpoint(req, reg, handlers) ==
              Reply(Envelope(req.id, Failed(MethodNotFound, "No handler implemented for tool '" + req.toolName + "'")))
  {
    KnownToolIsMembership(reg, req.toolName);
  }

  /** Parameters that do not bind: TypeError, so internal-error with
      Python's binding message. */
  lemma BindingFailureReply(req: Request, reg: Registry, handlers: HandlerTable, e: BindError)
    requires req.jsonrpc == "2.0"
    requires KnownTool(reg, req.toolName)
    requires HandlerName(req.toolName) in handlers
    requires Bind(handlers[HandlerName(req.toolName)].params, Normalize(req.params)) == Err(e)
    ensures Endpoint(req, reg, handlers) ==
              Reply(Envelope(req.id, Failed(InternalError, BindMessage(HandlerName(req.toolName), e))))
  {
  }

  /** An exception inside the handler: its message is passed through; it is
      method-not-found when it is a NotImplementedError, internal-error
      otherwise. */
  lemma HandlerRaisedReply(req: Request, reg: Registry, handlers: HandlerTable,
                           args: map<string, Value>, cls: ExceptionClass, msg: string)
    requires req.jsonrpc == "2.0"
    requires KnownTool(reg, req.toolName)
    requires HandlerName(req.toolName) in handlers
    requires Bind(handlers[HandlerName(req.toolName)].params, Normalize(req.params)) == Ok(args)
    requires handlers[HandlerName(req.toolName)].body(args) == Raised(cls, msg)
    ensures Endpoint(req, reg, handlers) ==
              Reply(Envelope(req.id, Failed(if cls == NotImplementedErrorClass then MethodNotFound else InternalError, msg)))
  {
  }

  /** A handler that returns: its value is the result, untouched. */
  lemma SuccessReply(req: Request, reg: Registry, handlers: HandlerTable, args: map<string, Value>, v: Value)
    requires req.jsonrpc == "2.0"
    requires KnownTool(reg, req.toolName)
    requires HandlerName(req.toolName) in handlers
    requires Bind(handlers[HandlerName(req.toolName)].params, Normalize(req.params)) == Ok(args)
    requires handlers[HandlerName(req.toolName)].body(args) == Returned(v)
    ensures Endpoint(req, reg, handlers) == Reply(Envelope(req.id, Success(v)))
    ensures EnvelopeJson(Endpoint(req, reg, handlers).envelope).fields["result"] == v
  {
  }

  /** Code -32601 is given exactly to the failures `except
      NotImplementedError` catches; every other failure gets -32603. */
  lemma MethodNotFoundIff(req: Request, reg: Registry, handlers: HandlerTable)
    requires req.jsonrpc == "2.0"
    ensures var resp := Endpoint(req, reg, handlers);
            var d := Dispatch(reg, handlers, req.toolName, req.params);
            && resp.Reply?
            && (resp.envelope.body.Success? <==> d.Ok?)
            && (resp.envelope.body.Failed? && resp.envelope.body.code == MethodNotFound <==>
                  d.Err? && IsNotImplemented(d.error))
            && (resp.envelope.body.Failed? && resp.envelope.body.code == InternalError <==>
                  d.Err? && !IsNotImplemented(d.error))
  {
  }

  /** Omitting `params` is the same request as sending `{}`. */
  lemma AbsentParamsAsEmptyBag(req: Request, reg: Registry, handlers: HandlerTable)
    requires req.params.None?
    ensures Endpoint(req, reg, handlers) == Endpoint(req.(params := Some([])), reg, handlers)
  {
    AbsentParamsAsEmpty(reg, handlers, req.toolName);
  }

  /** The messages of the two not-found cases never coincide. */
  lemma UnknownAndUnimplementedDiffer(a: string, b: string)
    ensures Message(UnknownTool(a)) != Message(UnimplementedTool(b))
  {
    assert Message(UnknownTool(a))[0] == 'U';
    assert Message(UnimplementedTool(b))[0] == 'N';
  }
}
