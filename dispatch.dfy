/** `_dispatch_tool`: look the tool up, derive and resolve its handler,
    normalise the parameters and call the handler. Each way of failing is a
    distinct Python exception, modelled as a `Failure`. */
module Dispatcher {
  import opened Json
  import opened ToolRegistry
  import opened Handlers

  /** The exception `_dispatch_tool` ends with. */
  datatype Failure =
    | UnknownTool(toolName: string)                   // ValueError
    | UnimplementedTool(toolName: string)             // NotImplementedError
    | BindingFailure(handler: string, error: BindError)  // TypeError from `handler(**params)`
    | HandlerFailure(cls: ExceptionClass, message: string)  // raised inside the handler

  /** `str(exc)`. */
  function Message(f: Failure): string {
    match f
    case UnknownTool(m) => "Unknown tool '" + m + "'"
    case UnimplementedTool(m) => "No handler implemented for tool '" + m + "'"
    case BindingFailure(h, e) => BindMessage(h, e)
    case HandlerFailure(_, msg) => msg
  }

  /** Whether `except NotImplementedError` catches the failure. */
  predicate IsNotImplemented(f: Failure) {
    f.UnimplementedTool? || (f.HandlerFailure? && f.cls == NotImplementedErrorClass)
  }

  /** `tool_def = TOOLS_LOOKUP.get(method)` followed by `if not tool_def`. */
  predicate KnownTool(reg: Registry, toolName: string) {
    var t := Lookup(reg, KStr(toolName));
    t.Some? && Truthy(t.value)
  }

  /** `if params is None: params = {}`. */
  function Normalize(params: Option<Bag>): Bag {
    if params.None? then [] else params.value
  }

  /** `_dispatch_tool(method, params)`: the handler's return value, or the
      exception it ends with. */
  function Dispatch(reg: Registry, handlers: HandlerTable, toolName: string, params: Option<Bag>)
    : (r: Result<Value, Failure>)
    ensures r == Err(UnknownTool(toolName)) <==> !KnownTool(reg, toolName)
    ensures r == Err(UnimplementedTool(toolName)) <==>
              KnownTool(reg, toolName) && HandlerName(toolName) !in handlers
    ensures r.Err? && r.error.BindingFailure? ==>
              && KnownTool(reg, toolName) && HandlerName(toolName) in handlers
              && r.error.handler == HandlerName(toolName)
              && Bind(handlers[HandlerName(toolName)].params, Normalize(params)) == Err(r.error.error)
    ensures r.Ok? <==>
              && KnownTool(reg, toolName) && HandlerName(toolName) in handlers
              && var h := handlers[HandlerName(toolName)];
                 && Bind(h.params, Normalize(params)).Ok?
                 && h.body(Bind(h.params, Normalize(params)).value).Returned?
    ensures r.Ok? ==>
              var h := handlers[HandlerName(toolName)];
              r.value == h.body(Bind(h.params, Normalize(params)).value).value
    ensures KnownTool(reg, toolName) && HandlerName(toolName) in handlers ==>
              var h := handlers[HandlerName(toolName)];
              && (Bind(h.params, Normalize(params)).Err? ==>
                    r == Err(BindingFailure(HandlerName(toolName), Bind(h.params, Normalize(params)).error)))
              && (Bind(h.params, Normalize(params)).Ok? && h.body(Bind(h.params, Normalize(params)).value).Raised? ==>
                    var o := h.body(Bind(h.params, Normalize(params)).value);
                    r == Err(HandlerFailure(o.cls, o.message)))
  {
    if !KnownTool(reg, toolName) then Err(UnknownTool(toolName))
    else
      var name := HandlerName(toolName);
      if name !in handlers then Err(UnimplementedTool(toolName))
      else
        var h := handlers[name];
        match Bind(h.params, Normalize(params))
        case Err(e) => Err(BindingFailure(name, e))
        case Ok(args) =>
          match h.body(args)
          case Returned(v) => Ok(v)
          case Raised(cls, msg) => Err(HandlerFailure(cls, msg))
  }

  /** For a registry `load_tools` built, the truthiness test is plain
      membership: every stored record is a non-empty dict. */
  lemma KnownToolIsMembership(reg: Registry, toolName: string)
    requires Valid(reg)
    ensures KnownTool(reg, toolName) <==> KStr(toolName) in reg.table
  {
    if KStr(toolName) in reg.table {
      assert "name" in reg.table[KStr(toolName)].fields;
    }
  }

  /** An absent parameter bag is the empty one. */
  lemma AbsentParamsAsEmpty(reg: Registry, handlers: HandlerTable, toolName: string)
    ensures Dispatch(reg, handlers, toolName, None) == Dispatch(reg, handlers, toolName, Some([]))
  {
  }
}
