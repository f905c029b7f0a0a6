/**
  The `slack_post_message` tool (`tools/slack_post_message.py`): its input
  and output models, its handler, which drops a leading "#" from the channel
  and posts through the Slack adapter, and `build_tool`.
*/
module SlackPostMessageTool {
  import opened Wrappers
  import opened Dicts
  import opened Values
  import opened Errors
  import opened Schemas
  import opened Tooling
  import opened Http
  import Slack
  import Fields

  const ToolName := "slack_post_message"

  const Description :=
    "Post a message to a Slack channel. Supports channel IDs or channel names and optional threaded replies."

  /** `SlackPostMessageInput`. */
  datatype SlackPostMessageInput = SlackPostMessageInput(channel: string, text: string, threadTs: Option<string>)

  /** `SlackPostMessageInput.model_validate(data)`: channel and text are required, thread_ts is optional. */
  function ValidateInput(data: Assoc<Value>): (r: Result<SlackPostMessageInput, string>)
    ensures !HasKey(data, "channel") || !HasKey(data, "text") ==> r.Err?
    ensures r.Ok? ==> Get(data, "channel") == Some(Str(r.value.channel)) && Get(data, "text") == Some(Str(r.value.text))
    ensures r.Ok? && !HasKey(data, "thread_ts") ==> r.value.threadTs == None
  {
    var channel :- Fields.StrField(data, "channel", None);
    var text :- Fields.StrField(data, "text", None);
    var threadTs :- Fields.OptStrField(data, "thread_ts", None);
    Ok(SlackPostMessageInput(channel, text, threadTs))
  }

  /** The channel as posted to: a channel name loses its leading "#", an id is kept. */
  function ChannelOf(channel: string): (c: string)
    ensures |channel| > 0 && channel[0] == '#' ==> c == channel[1..]
    ensures !(|channel| > 0 && channel[0] == '#') ==> c == channel
  {
    if |channel| > 0 && channel[0] == '#' then channel[1..] else channel
  }

  /** The tool's handler: posts to the channel and returns the adapter's reply unchanged. */
  function Handle(adapter: Slack.SlackAdapter, net: Network, payload: SlackPostMessageInput): (o: HandlerOutcome)
    ensures var posted := Slack.PostMessage(adapter, net, ChannelOf(payload.channel), payload.text, payload.threadTs);
      && (posted.Err? ==> o == Raised(posted.error))
      && (posted.Ok? ==> o == ReturnedRaw(Dict(posted.value.ToDict())))
  {
    match Slack.PostMessage(adapter, net, ChannelOf(payload.channel), payload.text, payload.threadTs)
    case Err(e) => Raised(e)
    case Ok(posted) => ReturnedRaw(Dict(posted.ToDict()))
  }

  /** "#name" and "name" post the same message to the same place. */
  lemma {:induction false} HashNameSameChannel(adapter: Slack.SlackAdapter, net: Network, name: string, text: string, threadTs: Option<string>)
    requires !(|name| > 0 && name[0] == '#')
    ensures Handle(adapter, net, SlackPostMessageInput("#" + name, text, threadTs))
         == Handle(adapter, net, SlackPostMessageInput(name, text, threadTs))
  {
    assert ("#" + name)[1..] == name;
  }

  /** An optional string field of the output: None or a string. */
  function OptStrValue(data: Assoc<Value>, key: string): (r: Result<Value, string>)
    ensures r.Ok? ==> r.value.Null? || r.value.Str?
    ensures Get(data, key) == Some(Null) || !HasKey(data, key) ==> r == Ok(Null)
    ensures HasKey(data, key) && Get(data, key).value.Str? ==> r == Ok(Get(data, key).value)
  {
    var s :- Fields.OptStrField(data, key, None);
    Ok(if s.Some? then Str(s.value) else Null)
  }

  /**
    `SlackPostMessageOutput.model_validate(raw).model_dump()`: the timestamp,
    status and channel must be strings; the channel name and permalink are
    optional strings.
  */
  function ValidateOutput(raw: Value): (r: Result<Assoc<Value>, string>)
    ensures !raw.Dict? ==> r.Err?
    ensures r.Ok? ==> Keys(r.value) == ["message_ts", "status", "channel", "channel_name", "permalink"]
    ensures r.Ok? ==> Get(r.value, "message_ts") == Get(raw.entries, "message_ts")
    ensures r.Ok? ==> Get(r.value, "status") == Get(raw.entries, "status")
    ensures r.Ok? ==> Get(r.value, "channel") == Get(raw.entries, "channel")
  {
    if !raw.Dict? then Err("Input should be a valid dictionary or instance of SlackPostMessageOutput")
    else
      var data := raw.entries;
      var messageTs :- Fields.StrField(data, "message_ts", None);
      var status :- Fields.StrField(data, "status", None);
      var channel :- Fields.StrField(data, "channel", None);
      var channelName :- OptStrValue(data, "channel_name");
      var permalink :- OptStrValue(data, "permalink");
      Ok(OutputDump(Str(messageTs), Str(status), Str(channel), channelName, permalink))
  }

  /** The dump of a `SlackPostMessageOutput`, fields in declaration order. */
  function OutputDump(messageTs: Value, status: Value, channel: Value, channelName: Value, permalink: Value)
    : (d: Assoc<Value>)
    ensures Keys(d) == ["message_ts", "status", "channel", "channel_name", "permalink"]
    ensures Get(d, "message_ts") == Some(messageTs) && Get(d, "status") == Some(status)
    ensures Get(d, "channel") == Some(channel)
  {
    Cons("message_ts", messageTs, Cons("status", status, Cons("channel", channel,
    Cons("channel_name", channelName, Cons("permalink", permalink, [])))))
  }

  /** A reply whose timestamp and channel are strings, and whose name and permalink are strings or None, passes unchanged. */
  lemma {:induction false} ReplyValid(m: Slack.PostedMessage)
    requires m.messageTs.Str? && m.channel.Str?
    requires m.channelName.Null? || m.channelName.Str?
    requires m.permalink.Null? || m.permalink.Str?
    ensures ValidateOutput(Dict(m.ToDict())) == Ok(m.ToDict())
  {
    var d := m.ToDict();
    assert d == Cons("message_ts", m.messageTs, Cons("status", Str("sent"), Cons("channel", m.channel,
                Cons("channel_name", m.channelName, Cons("permalink", m.permalink, [])))));
  }

  /** A reply whose timestamp is not a string fails the output model. */
  lemma {:induction false} NonStringStampRejected(m: Slack.PostedMessage)
    requires !m.messageTs.Str?
    ensures ValidateOutput(Dict(m.ToDict())).Err?
  {
    assert Get(m.ToDict(), "message_ts") == Some(m.messageTs);
  }

  /** The validated input bound to the handler, as the spec's input model yields it. */
  function InputModel(adapter: Slack.SlackAdapter, net: Network): Assoc<Value> -> Result<BoundHandler, string> {
    (data: Assoc<Value>) =>
      match ValidateInput(data)
      case Err(m) => Err(m)
      case Ok(payload) => Ok((context: Option<Assoc<Value>>) => Handle(adapter, net, payload))
  }

  /** `build_tool`: validates the Slack configuration and returns the `slack_post_message` spec. */
  function BuildTool(net: Network, rawConfig: Assoc<Value>): (r: Result<ToolSpec, Exc>)
    ensures r.Err? <==> Slack.ValidateConfig(rawConfig).Err?
    ensures r.Err? ==> r.error.cls == ValidationError
    ensures r.Ok? ==> r.value.name == "slack_post_message" && r.value.description == Description
  {
    var config :- Slack.ValidateConfig(rawConfig);
    var adapter := Slack.NewAdapter(config);
    Ok(ToolSpec(ToolName, Description, InputModel(adapter, net), ValidateOutput))
  }

  /** The built tool runs the handler on the validated input, with the adapter of the validated configuration. */
  lemma {:induction false} BuiltHandler(net: Network, rawConfig: Assoc<Value>, request: ToolInvocationRequest)
    requires BuildTool(net, rawConfig).Ok?
    requires ValidateInput(request.input).Ok?
    ensures var spec := BuildTool(net, rawConfig).value;
      && spec.inputModel(request.input).Ok?
      && spec.inputModel(request.input).value(request.context)
         == Handle(Slack.NewAdapter(Slack.ValidateConfig(rawConfig).value), net, ValidateInput(request.input).value)
      && spec.outputModel == ValidateOutput
  {
  }

  /** A Slack error answer fails the invocation with Slack's message. */
  lemma {:induction false} SlackErrorReported(net: Network, rawConfig: Assoc<Value>, request: ToolInvocationRequest)
    requires BuildTool(net, rawConfig).Ok?
    requires ValidateInput(request.input).Ok?
    requires var payload := ValidateInput(request.input).value;
      Slack.PostMessage(Slack.NewAdapter(Slack.ValidateConfig(rawConfig).value), net,
                        ChannelOf(payload.channel), payload.text, payload.threadTs).Err?
    ensures var payload := ValidateInput(request.input).value;
      var e := Slack.PostMessage(Slack.NewAdapter(Slack.ValidateConfig(rawConfig).value), net,
                                 ChannelOf(payload.channel), payload.text, payload.threadTs).error;
      var r := Invoke(BuildTool(net, rawConfig).value, request);
      && (e.cls == ToolExecutionError ==> r == Ok(ToolInvocationResponse(false, [], Some(e.message))))
      && (e.cls == AttributeError ==> r == Err(Exc(ToolExecutionError, e.message)))
  {
    var payload := ValidateInput(request.input).value;
    var adapter := Slack.NewAdapter(Slack.ValidateConfig(rawConfig).value);
    var e := Slack.PostMessage(adapter, net, ChannelOf(payload.channel), payload.text, payload.threadTs).error;
    BuiltHandler(net, rawConfig, request);
    assert Handle(adapter, net, payload) == Raised(e);
    InvokeRaised(BuildTool(net, rawConfig).value, request, e);
  }
}
