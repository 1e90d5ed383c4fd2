/** The handler namespace of the server: the seven `tool_*` functions, by
    their declared parameters and defaults. What each one does is left to a
    parameter `impl`, since the bodies stand for outside integrations. */
module Stubs {
  import opened Json
  import opened Handlers

  function Required(n: string): Param {
    Param(n, None)
  }

  function Optional(n: string, d: Value): Param {
    Param(n, Some(d))
  }

  /** Declared signatures, one per function (`None` is null, `False` is
      false). */
  const SlackPost: seq<Param> := [Required("channel"), Required("text"), Optional("thread_ts", Null)]
  const MailDraft: seq<Param> := [Required("to"), Required("subject"), Required("body_md")]
  const MailSend: seq<Param> := [Required("draft_id"), Optional("dry_run", Bool(false))]
  const GhaRun: seq<Param> :=
    [Required("owner"), Required("repo"), Required("workflow_id"), Required("ref"),
     Optional("inputs", Null), Optional("dry_run", Bool(false))]
  const GhaStatus: seq<Param> := [Required("run_id")]
  const SqlQuery: seq<Param> := [Required("name"), Required("text_sql"), Optional("params", Null)]
  const ChartBar: seq<Param> := [Required("json_data")]

  /** The functions by name. */
  const Signatures: map<string, seq<Param>> := map[
    "tool_slack_post" := SlackPost,
    "tool_mail_draft" := MailDraft,
    "tool_mail_send" := MailSend,
    "tool_gha_run" := GhaRun,
    "tool_gha_status" := GhaStatus,
    "tool_sql_query" := SqlQuery,
    "tool_chart_bar" := ChartBar
  ]

  /** The handler table, with `impl(f)` the behaviour of function `f`. */
  function StubTable(impl: string -> map<string, Value> -> Outcome): HandlerTable {
    map f | f in Signatures :: Handler(Signatures[f], impl(f))
  }

  /** What Python accepts as a `def` signature: names are distinct and no
      required parameter follows one with a default. */
  predicate PythonSignature(ps: seq<Param>) {
    && DistinctParams(ps)
    && forall i, j :: 0 <= i < j < |ps| && ps[i].default.Some? ==> ps[j].default.Some?
  }

  /** Every declared signature is a legal Python one. */
  lemma SignaturesAreLegal(impl: string -> map<string, Value> -> Outcome)
    ensures forall f :: f in StubTable(impl) ==> PythonSignature(StubTable(impl)[f].params)
  {
  }

  /** With no dot in `a` or `b`, the handler of `a.b` is `tool_a_b`. */
  lemma DottedHandlerName(a: string, b: string)
    requires '.' !in a && '.' !in b
    ensures HandlerName(a + "." + b) == "tool_" + a + "_" + b
  {
    var m := a + "." + b;
    assert forall i :: 0 <= i < |a| ==> m[i] == a[i];
    assert forall i :: 0 <= i < |b| ==> m[|a| + 1 + i] == b[i];
    assert ReplaceDots(m) == a + "_" + b;
  }

  lemma SlackPostHandler()
    ensures HandlerName("slack.post") == "tool_slack_post"
    ensures "tool_slack_post" in Signatures && Signatures["tool_slack_post"] == SlackPost
  {
    DottedHandlerName("slack", "post");
    assert "slack" + "." + "post" == "slack.post";
    assert "tool_" + "slack" + "_" + "post" == "tool_slack_post";
  }

  lemma MailDraftHandler()
    ensures HandlerName("mail.draft") == "tool_mail_draft"
    ensures "tool_mail_draft" in Signatures && Signatures["tool_mail_draft"] == MailDraft
  {
    DottedHandlerName("mail", "draft");
    assert "mail" + "." + "draft" == "mail.draft";
    assert "tool_" + "mail" + "_" + "draft" == "tool_mail_draft";
  }

  lemma MailSendHandler()
    ensures HandlerName("mail.send") == "tool_mail_send"
    ensures "tool_mail_send" in Signatures && Signatures["tool_mail_send"] == MailSend
  {
    DottedHandlerName("mail", "send");
    assert "mail" + "." + "send" == "mail.send";
    assert "tool_" + "mail" + "_" + "send" == "tool_mail_send";
  }

  lemma GhaRunHandler()
    ensures HandlerName("gha.run") == "tool_gha_run"
    ensures "tool_gha_run" in Signatures && Signatures["tool_gha_run"] == GhaRun
  {
    DottedHandlerName("gha", "run");
    assert "gha" + "." + "run" == "gha.run";
    assert "tool_" + "gha" + "_" + "run" == "tool_gha_run";
  }

  lemma GhaStatusHandler()
    ensures HandlerName("gha.status") == "tool_gha_status"
    ensures "tool_gha_status" in Signatures && Signatures["tool_gha_status"] == GhaStatus
  {
    DottedHandlerName("gha", "status");
    assert "gha" + "." + "status" == "gha.status";
    assert "tool_" + "gha" + "_" + "status" == "tool_gha_status";
  }

  lemma SqlQueryHandler()
    ensures HandlerName("sql.query") == "tool_sql_query"
    ensures "tool_sql_query" in Signatures && Signatures["tool_sql_query"] == SqlQuery
  {
    DottedHandlerName("sql", "query");
    assert "sql" + "." + "query" == "sql.query";
    assert "tool_" + "sql" + "_" + "query" == "tool_sql_query";
  }

  lemma ChartBarHandler()
    ensures HandlerName("chart.bar") == "tool_chart_bar"
    ensures "tool_chart_bar" in Signatures && Signatures["tool_chart_bar"] == ChartBar
  {
    DottedHandlerName("chart", "bar");
    assert "chart" + "." + "bar" == "chart.bar";
    assert "tool_" + "chart" + "_" + "bar" == "tool_chart_bar";
  }

  /** `slack.post` with the channel alone: the text is reported missing. */
  lemma SlackPostMissingText(c: Value)
    ensures Bind(SlackPost, [("channel", c)]) == Err(MissingArguments(["text"]))
  {
    assert BagKeys([("channel", c)]) == ["channel"];
    assert ParamNames(SlackPost) == ["channel", "text", "thread_ts"];
    assert MissingRequired(SlackPost, ["channel"]) == ["text"];
  }

  /** `slack.post` with channel and text: `thread_ts` takes its default. */
  lemma SlackPostBinds(c: Value, t: Value)
    ensures Bind(SlackPost, [("channel", c), ("text", t)]) ==
              Ok(map["channel" := c, "text" := t, "thread_ts" := Null])
  {
    var bag := [("channel", c), ("text", t)];
    assert BagKeys(bag) == ["channel", "text"];
    assert ParamNames(SlackPost) == ["channel", "text", "thread_ts"];
    BindYields(SlackPost, bag, map["channel" := c, "text" := t, "thread_ts" := Null]);
  }

  /** `chart.bar` called with an extra key: the unexpected keyword is what
      is reported, even though the required `json_data` is missing too. */
  lemma ChartBarUnexpected(v: Value)
    ensures Bind(ChartBar, [("data", v)]) == Err(UnexpectedKeyword("data"))
  {
    assert ParamNames(ChartBar) == ["json_data"];
  }

  /** `mail.send` with only a draft id binds `dry_run` to false. */
  lemma MailSendDefaultsDryRun(d: Value)
    ensures Bind(MailSend, [("draft_id", d)]) == Ok(map["draft_id" := d, "dry_run" := Bool(false)])
  {
    var bag := [("draft_id", d)];
    assert BagKeys(bag) == ["draft_id"];
    assert ParamNames(MailSend) == ["draft_id", "dry_run"];
    BindYields(MailSend, bag, map["draft_id" := d, "dry_run" := Bool(false)]);
  }
}
