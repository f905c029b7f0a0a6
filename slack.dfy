/**
  The Slack adapter (`integrations/slack.py`): its configuration, the
  headers its client sends, and `post_message`, which posts a form payload
  to `chat.postMessage` and reshapes Slack's answer into the message's
  timestamp, channel id, channel name and permalink. The adapter's client is
  fixed at construction, so the adapter is a value; what the network
  answers is the oracle `net`.
*/
module Slack {
  import opened Wrappers
  import opened Dicts
  import opened Values
  import opened Errors
  import opened PyOps
  import opened Http
  import Auth
  import Fields
  import Text

  datatype SlackConfig = SlackConfig(
    token: string,
    tokenType: string,
    baseUrl: string,
    timeout: real,
    retries: int,
    backoffFactor: real)

  const DefaultBaseUrl := "https://slack.com/api"

  /** `SlackConfig.model_validate(raw)`: the token is required, every other field has a default. */
  function ValidateConfig(raw: Assoc<Value>): (r: Result<SlackConfig, Exc>)
    ensures r.Err? ==> r.error.cls == ValidationError
    ensures !HasKey(raw, "token") ==> r.Err?
    ensures r.Ok? ==> Get(raw, "token") == Some(Str(r.value.token))
    ensures r.Ok? && !HasKey(raw, "token_type") ==> r.value.tokenType == "Bearer"
    ensures r.Ok? && !HasKey(raw, "base_url") ==> r.value.baseUrl == "https://slack.com/api"
    ensures r.Ok? && !HasKey(raw, "timeout") ==> r.value.timeout == 10.0
    ensures r.Ok? && !HasKey(raw, "retries") ==> r.value.retries == 1
    ensures r.Ok? && !HasKey(raw, "backoff_factor") ==> r.value.backoffFactor == 0.5
  {
    var token :- Fields.Validated(Fields.StrField(raw, "token", None));
    var tokenType :- Fields.Validated(Fields.StrField(raw, "token_type", Some("Bearer")));
    var baseUrl :- Fields.Validated(Fields.StrField(raw, "base_url", Some(DefaultBaseUrl)));
    var timeout :- Fields.Validated(Fields.FloatField(raw, "timeout", 10.0));
    var retries :- Fields.Validated(Fields.IntField(raw, "retries", 1));
    var backoffFactor :- Fields.Validated(Fields.FloatField(raw, "backoff_factor", 0.5));
    Ok(SlackConfig(token, tokenType, baseUrl, timeout, retries, backoffFactor))
  }

  const FormContentType := "application/x-www-form-urlencoded"

  /** The headers `__init__` builds: the form content type, then the token's Authorization header. */
  function AdapterHeaders(config: SlackConfig): (h: Assoc<string>)
    ensures Get(h, "Content-Type") == Some(FormContentType)
    ensures Get(h, "Authorization") == Some(config.tokenType + " " + config.token)
    ensures forall k :: k != "Content-Type" && k != "Authorization" ==> !HasKey(h, k)
  {
    var headers := Cons("Content-Type", FormContentType, []);
    Update(headers, Auth.OAuthTokenAuth(config.token, config.tokenType).Headers())
  }

  datatype SlackAdapter = SlackAdapter(client: ResilientAsyncHTTPClient)

  /** `SlackAdapter(config=config)`: a client for the configured base URL, with those headers. */
  function NewAdapter(config: SlackConfig): (a: SlackAdapter)
    ensures a.client.baseUrl == Some(config.baseUrl) && a.client.timeout == Some(config.timeout)
    ensures a.client.headers == AdapterHeaders(config)
    ensures config.retries >= 0 ==> a.client.retries == config.retries
  {
    SlackAdapter(NewClient(Some(config.baseUrl), Some(AdapterHeaders(config)), Some(config.timeout),
                           config.retries, config.backoffFactor))
  }

  /** The form `post_message` sends: channel and text, and the thread only when `thread_ts` is non-empty. */
  function Payload(channel: string, text: string, threadTs: Option<string>): (p: Assoc<Value>)
    ensures Get(p, "channel") == Some(Str(channel)) && Get(p, "text") == Some(Str(text))
    ensures HasKey(p, "thread_ts") <==> threadTs.Some? && threadTs.value != ""
    ensures HasKey(p, "thread_ts") ==> Get(p, "thread_ts") == Some(Str(threadTs.value))
    ensures Keys(p) == ["channel", "text"] + if threadTs.Some? && threadTs.value != "" then ["thread_ts"] else []
  {
    var payload := Cons("channel", Str(channel), Cons("text", Str(text), []));
    assert Keys(payload) == ["channel", "text"];
    assert !HasKey(payload, "thread_ts");
    if threadTs.Some? && threadTs.value != "" then Put(payload, "thread_ts", Str(threadTs.value))
    else payload
  }

  function PostCall(payload: Assoc<Value>): Call {
    Call("POST", "/chat.postMessage", [], payload)
  }

  /** What `post_message` returns. */
  datatype PostedMessage = PostedMessage(messageTs: Value, channel: Value, channelName: Value, permalink: Value)
  {
    /** The reply as the dict `post_message` returns; its status is always "sent". */
    function ToDict(): (d: Assoc<Value>)
      ensures Keys(d) == ["message_ts", "status", "channel", "channel_name", "permalink"]
      ensures Get(d, "status") == Some(Str("sent"))
    {
      Cons("message_ts", messageTs, Cons("status", Str("sent"), Cons("channel", channel,
      Cons("channel_name", channelName, Cons("permalink", permalink, [])))))
    }
  }

  /** The channel id: the answer's channel when it is a string, else its `id`, else the channel asked for. */
  function ChannelId(channelData: Value, channel: string): (r: Result<Value, Exc>)
    ensures channelData.Str? ==> r == Ok(channelData)
    ensures channelData.Dict? ==> r == Ok(GetOr(channelData.entries, "id", Str(channel)))
    ensures channelData.Dict? && !HasKey(channelData.entries, "id") ==> r == Ok(Str(channel))
    ensures r.Err? <==> !(channelData.Str? || channelData.Dict?)
    ensures r.Err? ==> r.error.cls == AttributeError
  {
    if channelData.Str? then Ok(channelData) else GetAttr(channelData, "id", Str(channel))
  }

  /** The channel name: "#" and the answer's channel name, when the channel is a dict with a non-empty name. */
  function ChannelName(channelData: Value): (r: Value)
    ensures r != Null <==> channelData.Dict? && Truthy(GetOr(channelData.entries, "name", Null))
    ensures r != Null ==> r == Str("#" + PyStr(Get(channelData.entries, "name").value))
  {
    if channelData.Dict? && Truthy(GetOr(channelData.entries, "name", Null)) then
      Str("#" + PyStr(Get(channelData.entries, "name").value))
    else Null
  }

  /** The permalink: the archive URL of the message when both its timestamp and the channel id are non-empty. */
  function Permalink(messageTs: Value, channelId: Value): (r: Result<Value, Exc>)
    ensures !(Truthy(messageTs) && Truthy(channelId)) ==> r == Ok(Null)
    ensures Truthy(messageTs) && Truthy(channelId) && messageTs.Str? ==>
      r == Ok(Str("https://slack.com/archives/" + PyStr(channelId) + "/p" + Text.RemoveChar(messageTs.s, '.')))
    ensures r.Ok? && r.value != Null ==> messageTs.Str? && Truthy(messageTs) && Truthy(channelId)
  {
    if Truthy(messageTs) && Truthy(channelId) then
      if messageTs.Str? then
        Ok(Str("https://slack.com/archives/" + PyStr(channelId) + "/p" + Text.RemoveChar(messageTs.s, '.')))
      else Err(Exc(AttributeError, "'" + TypeName(messageTs) + "' object has no attribute 'replace'"))
    else Ok(Null)
  }

  /** `post_message`'s handling of Slack's answer `response` to a post to `channel`. */
  function Reply(response: Value, channel: string): (r: Result<PostedMessage, Exc>)
    ensures !response.Dict? ==> r.Err? && r.error.cls == AttributeError
    ensures response.Dict? && !Truthy(GetOr(response.entries, "ok", Null)) ==>
      r == Err(Exc(ToolExecutionError, "Slack API error: " + PyStr(GetOr(response.entries, "error", Str("Unknown error")))))
    ensures r.Ok? ==> response.Dict? && Truthy(GetOr(response.entries, "ok", Null))
    ensures r.Ok? ==>
      var channelData := GetOr(response.entries, "channel", Dict([]));
      && Ok(r.value.channel) == ChannelId(channelData, channel)
      && r.value.channelName == ChannelName(channelData)
      && Ok(r.value.permalink) == Permalink(r.value.messageTs, r.value.channel)
      && GetAttr(GetOr(response.entries, "message", Dict([])), "ts", Str("")) == Ok(r.value.messageTs)
  {
    match GetAttr(response, "ok", Null)
    case Err(e) => Err(e)
    case Ok(ok) =>
      var entries := response.entries;
      if !Truthy(ok) then
        Err(Exc(ToolExecutionError, "Slack API error: " + PyStr(GetOr(entries, "error", Str("Unknown error")))))
      else
        var messageData := GetOr(entries, "message", Dict([]));
        var channelData := GetOr(entries, "channel", Dict([]));
        var channelId :- ChannelId(channelData, channel);
        var channelName := ChannelName(channelData);
        var messageTs :- GetAttr(messageData, "ts", Str(""));
        var permalink :- Permalink(messageTs, channelId);
        Ok(PostedMessage(messageTs, channelId, channelName, permalink))
  }

  /** `post_message`: posts the payload through the retrying client and reshapes the answer. */
  function PostMessage(adapter: SlackAdapter, net: Network, channel: string, text: string, threadTs: Option<string>)
    : (r: Result<PostedMessage, Exc>)
    ensures var sent := Send(net, adapter.client, PostCall(Payload(channel, text, threadTs)));
      && (sent.Err? ==> r == Err(sent.error))
      && (sent.Ok? ==> r == Reply(sent.value, channel))
  {
    var response :- Send(net, adapter.client, PostCall(Payload(channel, text, threadTs)));
    Reply(response, channel)
  }

  /**
    A successful post whose answer names the channel by a non-empty id and
    carries a string timestamp links to the message: the id, then "p" and
    the timestamp without its dots.
  */
  lemma {:induction false} PermalinkOfAnswer(response: Value, channel: string, id: string, ts: string)
    requires response.Dict? && Truthy(GetOr(response.entries, "ok", Null))
    requires GetOr(response.entries, "channel", Dict([])) == Dict([("id", Str(id))]) && id != ""
    requires GetOr(response.entries, "message", Dict([])) == Dict([("ts", Str(ts))]) && ts != ""
    ensures Reply(response, channel) ==
      Ok(PostedMessage(Str(ts), Str(id), Null, Str("https://slack.com/archives/" + id + "/p" + Text.RemoveChar(ts, '.'))))
  {
  }
}
