/** Whole requests against a loaded catalog and the server's own handler
    table. */
module Scenarios {
  import opened Json
  import opened ToolRegistry
  import opened Handlers
  import opened Dispatcher
  import opened JsonRpc
  import opened Stubs

  function Record(name: string): Value {
    Obj(map["name" := Str(name)])
  }

  /** A catalog listing `slack.post` and a tool with no handler. */
  const Catalog: seq<Value> := [Record("slack.post"), Record("pdf.render")]

  lemma CatalogNamed()
    ensures AllNamed(Catalog)
    ensures NameKey(Catalog[0]) == Some(KStr("slack.post"))
    ensures NameKey(Catalog[1]) == Some(KStr("pdf.render"))
  {
  }

  /** `/tools` lists the catalog as written. */
  lemma CatalogDiscovered()
    ensures Tools(Load(Parsed(Arr(Catalog)))) == Catalog
  {
    CatalogNamed();
    assert "slack.post"[0] != "pdf.render"[0];
    UniqueCatalogListedVerbatim(Catalog);
  }

  /** `slack.post` with channel and text: the handler sees both and
      `thread_ts` bound to null, and its value is the result. */
  lemma SlackPostSucceeds(impl: string -> map<string, Value> -> Outcome, c: Value, t: Value, v: Value)
    requires impl("tool_slack_post")(map["channel" := c, "text" := t, "thread_ts" := Null]) == Returned(v)
    ensures Endpoint(Request("2.0", Some(7), "slack.post", Some([("channel", c), ("text", t)])),
                     Load(Parsed(Arr(Catalog))), StubTable(impl)) ==
              Reply(Envelope(Some(7), Success(v)))
  {
    var reg := Load(Parsed(Arr(Catalog)));
    var req := Request("2.0", Some(7), "slack.post", Some([("channel", c), ("text", t)]));
    CatalogNamed();
    LoadLookup(Catalog, KStr("slack.post"));
    KnownToolIsMembership(reg, "slack.post");
    SlackPostHandler();
    SlackPostBinds(c, t);
    SuccessReply(req, reg, StubTable(impl), map["channel" := c, "text" := t, "thread_ts" := Null], v);
  }

  /** `slack.post` without its text: the binding TypeError, as
      internal-error. */
  lemma SlackPostWithoutText(impl: string -> map<string, Value> -> Outcome, c: Value)
    ensures Endpoint(Request("2.0", Some(9), "slack.post", Some([("channel", c)])),
                     Load(Parsed(Arr(Catalog))), StubTable(impl)) ==
              Reply(Envelope(Some(9), Failed(InternalError,
                BindMessage("tool_slack_post", MissingArguments(["text"])))))
  {
    var reg := Load(Parsed(Arr(Catalog)));
    CatalogNamed();
    LoadLookup(Catalog, KStr("slack.post"));
    KnownToolIsMembership(reg, "slack.post");
    SlackPostHandler();
    SlackPostMissingText(c);
    BindingFailureReply(Request("2.0", Some(9), "slack.post", Some([("channel", c)])), reg, StubTable(impl),
                        MissingArguments(["text"]));
  }

  /** No function of the server is named `tool_pdf_render`. */
  lemma PdfRenderHasNoHandler(impl: string -> map<string, Value> -> Outcome)
    ensures HandlerName("pdf.render") !in StubTable(impl)
  {
    var h := HandlerName("pdf.render");
    assert h[5] == 'p' by {
      HandlerNameShape("pdf.render");
      assert "pdf.render"[0] == 'p';
    }
    assert forall f :: f in Signatures ==> f[5] != 'p';
  }

  /** `pdf.render` is in the catalog but no function serves it:
      method-not-found. */
  lemma PdfRenderUnimplemented(impl: string -> map<string, Value> -> Outcome)
    ensures Endpoint(Request("2.0", Some(8), "pdf.render", None), Load(Parsed(Arr(Catalog))), StubTable(impl)) ==
              Reply(Envelope(Some(8), Failed(MethodNotFound, "No handler implemented for tool '" + "pdf.render" + "'")))
  {
    CatalogNamed();
    LoadLookup(Catalog, KStr("pdf.render"));
    PdfRenderHasNoHandler(impl);
    UnimplementedReply(Request("2.0", Some(8), "pdf.render", None), Load(Parsed(Arr(Catalog))), StubTable(impl));
  }

  /** `mail.send` has a handler but is not in this catalog: unknown tool,
      which ends as internal-error. */
  lemma MailSendNotCatalogued(impl: string -> map<string, Value> -> Outcome)
    ensures Endpoint(Request("2.0", None, "mail.send", None), Load(Parsed(Arr(Catalog))), StubTable(impl)) ==
              Reply(Envelope(None, Failed(InternalError, "Unknown tool '" + "mail.send" + "'")))
  {
    CatalogNamed();
    assert "mail.send"[0] != "slack.post"[0] && "mail.send"[0] != "pdf.render"[0];
    UnknownAfterLoad(Request("2.0", None, "mail.send", None), Catalog, StubTable(impl));
  }

  /** A duplicate name: the later record replaces the earlier one but keeps
      its place, ahead of the records named in between. */
  lemma DuplicateKeepsFirstPlaceLastRecord(a: Value, b: Value)
    ensures var first := Obj(map["name" := Str("x"), "v" := a]);
            var other := Record("y");
            var last := Obj(map["name" := Str("x"), "v" := b]);
            Tools(Load(Parsed(Arr([first, other, last])))) == [last, other]
  {
    var first := Obj(map["name" := Str("x"), "v" := a]);
    var other := Record("y");
    var last := Obj(map["name" := Str("x"), "v" := b]);
    var items := [first, other, last];
    assert NameKey(first) == Some(KStr("x"));
    assert NameKey(other) == Some(KStr("y"));
    assert NameKey(last) == Some(KStr("x"));
    assert NameKeys(items) == [KStr("x"), KStr("y"), KStr("x")];
    assert "x" != "y";
    var ks := [KStr("x"), KStr("y"), KStr("x")];
    assert Dedup(ks[..1]) == [KStr("x")] by {
      assert ks[..1][..0] == [];
    }
    assert Dedup(ks[..2]) == [KStr("x"), KStr("y")] by {
      assert ks[..2][..1] == ks[..1];
    }
    assert Dedup(ks) == [KStr("x"), KStr("y")] by {
      assert ks[..2] == ks[..|ks| - 1];
    }
    assert LastNamed(items, KStr("x"), 2);
    assert LastNamed(items, KStr("y"), 1);
    DiscoveryOrder(items, 0, 2);
    DiscoveryOrder(items, 1, 1);
  }

  /** A handler `tool_echo_ping(msg="pong")` that returns `{"msg": msg}`. */
  function EchoPing(): Handler {
    Handler([Optional("msg", Str("pong"))],
            args => Returned(Obj(map["msg" := if "msg" in args then args["msg"] else Null])))
  }

  const EchoTable: HandlerTable := map["tool_echo_ping" := EchoPing()]

  const EchoCatalog: seq<Value> := [Record("echo.ping")]

  /** The one-record catalog knows `echo.ping`. */
  lemma EchoPingResolves()
    ensures KnownTool(Load(Parsed(Arr(EchoCatalog))), "echo.ping")
  {
    assert NameKey(EchoCatalog[0]) == Some(KStr("echo.ping"));
    LoadLookup(EchoCatalog, KStr("echo.ping"));
    KnownToolIsMembership(Load(Parsed(Arr(EchoCatalog))), "echo.ping");
  }

  /** Its handler is `tool_echo_ping`. */
  lemma EchoPingHandlerName()
    ensures HandlerName("echo.ping") == "tool_echo_ping"
  {
    DottedHandlerName("echo", "ping");
    assert "echo" + "." + "ping" == "echo.ping";
    assert "tool_" + "echo" + "_" + "ping" == "tool_echo_ping";
  }

  /** `msg` binds to the value sent, or to "pong" when nothing is sent. */
  lemma EchoPingBinds(m: Value)
    ensures Bind(EchoPing().params, [("msg", m)]) == Ok(map["msg" := m])
    ensures Bind(EchoPing().params, []) == Ok(map["msg" := Str("pong")])
  {
    var bag := [("msg", m)];
    assert BagKeys(bag) == ["msg"];
    assert ParamNames(EchoPing().params) == ["msg"];
    BindYields(EchoPing().params, bag, map["msg" := m]);
    BindYields(EchoPing().params, [], map["msg" := Str("pong")]);
  }

  /** `echo.ping` with `msg` set: the handler's dict is the result. */
  lemma EchoPingReplies(m: Value)
    ensures Endpoint(Request("2.0", Some(7), "echo.ping", Some([("msg", m)])),
                     Load(Parsed(Arr(EchoCatalog))), EchoTable) ==
              Reply(Envelope(Some(7), Success(Obj(map["msg" := m]))))
  {
    EchoPingResolves();
    EchoPingHandlerName();
    EchoPingBinds(m);
    SuccessReply(Request("2.0", Some(7), "echo.ping", Some([("msg", m)])),
                 Load(Parsed(Arr(EchoCatalog))), EchoTable, map["msg" := m], Obj(map["msg" := m]));
  }

  /** `echo.ping` without params: `msg` takes its default. */
  lemma EchoPingDefault()
    ensures Endpoint(Request("2.0", Some(7), "echo.ping", None),
                     Load(Parsed(Arr(EchoCatalog))), EchoTable) ==
              Reply(Envelope(Some(7), Success(Obj(map["msg" := Str("pong")]))))
  {
    EchoPingResolves();
    EchoPingHandlerName();
    EchoPingBinds(Null);
    SuccessReply(Request("2.0", Some(7), "echo.ping", None),
                 Load(Parsed(Arr(EchoCatalog))), EchoTable,
                 map["msg" := Str("pong")], Obj(map["msg" := Str("pong")]));
  }

  /** `echo.pong` is not catalogued: the ValueError ends as internal-error
      (-32603), not method-not-found. */
  lemma EchoPongUnknown()
    ensures Endpoint(Request("2.0", Some(7), "echo.pong", None),
                     Load(Parsed(Arr(EchoCatalog))), EchoTable) ==
              Reply(Envelope(Some(7), Failed(InternalError, "Unknown tool 'echo.pong'")))
  {
    assert NameKey(EchoCatalog[0]) == Some(KStr("echo.ping"));
    assert "echo.pong" != "echo.ping" by {
      assert "echo.pong"[6] != "echo.ping"[6];
    }
    UnknownAfterLoad(Request("2.0", Some(7), "echo.pong", None), EchoCatalog, EchoTable);
    assert "Unknown tool '" + "echo.pong" + "'" == "Unknown tool 'echo.pong'";
  }
}
