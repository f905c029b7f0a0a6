# AI Assistant Hub, modelled in Dafny

The AI Assistant Hub is an MCP tool gateway. It reads its settings from the
environment and an optional configuration file. It loads the tools that are
switched on, and registers each in a tool catalog and with the host MCP
server. It then invokes a tool by validating the input against the tool's
input model, running the handler, and wrapping the result in a uniform
response. Three tools ship with it:

- `github_issues` lists the issues of a repository.
- `slack_post_message` posts a Slack message.
- `weather` fetches the current conditions from OpenWeatherMap.

All three reach their services through a retrying HTTP client.

This project models that core and proves properties of the model:

| file | models |
|---|---|
| `collecting.dfy` | a loop that keeps some items' results in order and stops at the first error, with its specification |
| `dicts.dfy` | Python's insertion-ordered `dict`: an association list, with `Get`, `Put` (replace in place, or append), `Cons` and `Update` |
| `values.dfy` | JSON-like values: `Dict[str, Any]`, truthiness, `type(v).__name__` and `str(v)` |
| `text.dfy` | the string operations the code uses: `lower`, `startswith`, `in`, `split(sep, 1)`, `strip`, `join`, `replace`, `int(s)` and `str(i)` |
| `errors.dfy`, `schemas.dfy` | the exception hierarchy and the invocation request, response and error records |
| `paths.dfy` | `pathlib.Path` on POSIX: building a path from text and `str(path)` |
| `pyops.dfy` | built-in operations on values of unknown shape: `.get`, `in`, iteration, `v[0]`, `v[:n]`, `dict(v)`, each with the exception it raises |
| `fields.dfy` | pydantic's lax validation of one model field |
| `http.dfy` | `ResilientAsyncHTTPClient` and its retry loop |
| `auth.dfy` | the authentication header builders |
| `loaders.dfy`, `settings.dfy` | the configuration merge, the `TOOL_*` key parsing, and `load_settings` |
| `tooling.dfy` | `ToolSpec.invoke`, the host call-shape normalisation, and `ToolCatalog` |
| `server.dfy`, `tool_loader.dfy` | `AIHubMCPServer` and `load_tools` |
| `github.dfy`, `slack.dfy`, `weather.dfy` | the three integration adapters |
| `github_issues_tool.dfy`, `slack_post_message_tool.dfy`, `weather_tool.dfy` | the three tool modules: input and output models, handler, `build_tool` |

What the network does is a parameter:

- The client's `request` takes an oracle `outcomes(k)`. It says how attempt `k` ends: a response, a transient error, or another failure.
- The adapters take `net`, which gives those outcomes for each client and call.

Each adapter's client is fixed when the adapter is built, so adapters are values. Their operations are functions of the network oracle, because a tool handler is a closure inside the tool spec.

These parts change state in place and are imperative Dafny:

- The catalog and the server are classes.
- `merge_dicts`, `extract_tool_configs`, `_build_tool_toggles`, the client's retry loop, `load_tools` and the issue loop of `list_issues` are methods with loops.
- Each such method is proved equal to a specification function. The properties are proved about that function.

Two dict updates in the adapters are single conditional statements:

- `headers.update(...)` under `if config.token`, in the GitHub adapter.
- `payload["thread_ts"] = ...` under `if thread_ts`, in the Slack adapter.

Each is written as a conditional expression over `Update` or `Put`.

How the code reports some failures:

- Registering a duplicate name raises `ValueError("Tool already registered: ...")`.
- An unknown tool raises `ToolExecutionError("Unknown tool: ...")`.
- Transport failures are raised as `ToolExecutionError`s.
- A successful response whose body is not JSON falls into the client's catch-all handler. That handler raises "Unexpected HTTP error: ..." on the first attempt, without retrying.

## Model

| member | source | states |
|---|---|---|
| Dicts.Put | ai_assistant_hub/config/loaders.py:61 | `d[k] = v`: the key maps to the new value; every other key keeps its lookup; the keys are unchanged when present, else the key is appended at the end |
| Dicts.PutDistinct | ai_assistant_hub/config/loaders.py:61 | assigning into a dict keeps its keys distinct |
| Auth.APIKeyAuth.Headers | ai_assistant_hub/utils/auth.py:23-24 | exactly one header, named by the strategy, holding the key |
| Auth.OAuthTokenAuth.Headers | ai_assistant_hub/utils/auth.py:34-35 | exactly one header, `Authorization`, holding the token type, a space, and the token |
| Auth.NewOAuthTokenAuth | ai_assistant_hub/utils/auth.py:30-32 | the token type defaults to "Bearer", so the header is "Bearer " followed by the token |
| Auth.OAuthHeaderRoundTrip | ai_assistant_hub/utils/auth.py:34-35 | splitting the Authorization value at its first space gives back the token type and the token, when the type has no space |
| Errors.Taxonomy | ai_assistant_hub/utils/errors.py:10-19 | both hub errors are AIHubErrors and neither is the other; only ToolExecutionError is a ToolExecutionError; every class but BaseException and CancelledError is an Exception |
| Errors.NewToolErrorPayload | ai_assistant_hub/utils/errors.py:22-26 | code and details default to None |
| Errors.ToErrorDetail | ai_assistant_hub/utils/errors.py:28-29 | message, code and details are carried over unchanged |
| Schemas.NewRequest | ai_assistant_hub/schemas/base.py:18-23 | input defaults to {} and context to None |
| Schemas.NewResponse | ai_assistant_hub/schemas/base.py:26-31 | output defaults to {} and error to None |
| Schemas.NewErrorDetail | ai_assistant_hub/schemas/base.py:34-39 | code and details default to None |
| Http.NewClient | ai_assistant_hub/utils/http.py:21-34 | headers default to {}; retries and backoff factor are clamped below at 0 and otherwise kept |
| Http.ExtractErrorDetail | ai_assistant_hub/utils/http.py:79-86 | the response body when non-empty, otherwise the status error's text |
| Http.Decide | ai_assistant_hub/utils/http.py:49-74 | a non-transient attempt succeeds exactly on a 2xx status with a JSON body; every failure is a ToolExecutionError; a status failure's message names the status and reason; an unexpected exception or a non-JSON body raises "Unexpected HTTP error: " followed by its cause |
| Http.Run | ai_assistant_hub/utils/http.py:40-76 | every error a request raises is a ToolExecutionError |
| Http.Attempts | ai_assistant_hub/utils/http.py:42 | a request makes at least one attempt and at most retries + 1 |
| Http.Request | ai_assistant_hub/utils/http.py:36-76 | the retry loop returns what `Run` specifies, after `Attempts` attempts, sleeping the waits `Sleeps` lists |
| Http.Settle | ai_assistant_hub/utils/http.py:49-74 | an attempt that is not retried returns the parsed body or raises, as `Decide` specifies |
| Http.LastAttempt | ai_assistant_hub/utils/http.py:50-61 | the attempt that ends a request is the last one and is followed by no wait; a transient failure there raises the exhausted message with its cause |
| Http.RetriedAttempt | ai_assistant_hub/utils/http.py:58-72 | a transient failure before the last attempt leaves the result to the next attempt, adds one attempt, and sleeps its backoff unless that is 0 |
| Http.SleptBeforeRetry | ai_assistant_hub/utils/http.py:62-71 | after a retried attempt the trace grows by its wait `backoff_factor * 2**attempt`, unless that is 0, and the later waits follow |
| Http.Send | ai_assistant_hub/utils/http.py:36-76 | an adapter's call fails only with a ToolExecutionError |
| Http.BackoffsClosedForm | ai_assistant_hub/utils/http.py:62-72 | the k-th wait is backoff_factor * 2^k, and no wait happens when the factor is 0 |
| Http.FirstDecisive | ai_assistant_hub/utils/http.py:40-72 | after n transient failures, the first decisive attempt decides the result; n + 1 attempts are made, with the doubling waits in between |
| Http.SuccessAfterTransients | ai_assistant_hub/utils/http.py:40-72 | at most `retries` transient failures followed by a success give the parsed body |
| Http.StatusErrorNotRetried | ai_assistant_hub/utils/http.py:52-57 | an error status on the first attempt is raised at once, with no retry or wait; its message names the status and reason |
| Http.UnexpectedNotRetried | ai_assistant_hub/utils/http.py:73-74 | an unexpected exception or a non-JSON 2xx body on the first attempt is raised at once as "Unexpected HTTP error: " with its cause, with no retry or wait |
| Http.AllTransient | ai_assistant_hub/utils/http.py:58-76 | retries + 1 transient failures raise "Request failed after retries + 1 attempts" with the last cause, after exactly that many attempts |
| Fields.IntTextField | ai_assistant_hub/tools/github_issues.py:18-19 | an integer field given as integer text validates to that integer |
| PyOps.First | ai_assistant_hub/integrations/weather.py:50 | `v[0]`: the first element of a non-empty list or string; IndexError when empty; KeyError on a dict |
| Loaders.MergeDicts | ai_assistant_hub/config/loaders.py:54-61 | the in-place recursive merge leaves the dict equal to `Merged(base, overrides)` |
| Loaders.MergedGet | ai_assistant_hub/config/loaders.py:54-61 | a key the overrides hold maps to its merge over the base's value (recursive when both are dicts); every other key keeps the base's value |
| Loaders.MergedDistinct | ai_assistant_hub/config/loaders.py:54-61 | merging keeps the keys distinct |
| Loaders.CoerceBool | ai_assistant_hub/config/loaders.py:101-106 | booleans are kept; a string is true exactly when, stripped and lower-cased, it is one of 1, true, yes, on; anything else by truthiness |
| Loaders.CoerceValue | ai_assistant_hub/config/loaders.py:86-98 | non-strings are kept; "true"/"false" in any case become booleans; integer text becomes an integer; a string that stays a string is unchanged |
| Loaders.CoerceIntText | ai_assistant_hub/config/loaders.py:86-98 | the text of any integer coerces back to that integer |
| Loaders.SetItem | ai_assistant_hub/config/loaders.py:79 | item assignment succeeds only on a dict, and stores the value under the key |
| Loaders.ExtractStep | ai_assistant_hub/config/loaders.py:68-70 | a key without the `TOOL_` prefix leaves the tools unchanged |
| Loaders.ExtractStepEnabled | ai_assistant_hub/config/loaders.py:72-75 | `TOOL_N_ENABLED` sets lower(N)'s flag to the coerced value, creating the entry if needed; no other tool changes |
| Loaders.ExtractStepConfig | ai_assistant_hub/config/loaders.py:76-79 | `TOOL_N_CONFIG__K` stores the value under lower(K) in lower(N)'s config; an entry without a config raises KeyError, and a config that is not a dict raises what item assignment raises; no other tool changes |
| Loaders.ExtractStepMerge | ai_assistant_hub/config/loaders.py:80-82 | a dict-valued `TOOL_N` is merged into lower(N)'s entry, creating it if needed; any other value is ignored |
| Loaders.ApplyItem | ai_assistant_hub/config/loaders.py:69-82 | one iteration of the loop computes what `ExtractStep` specifies |
| Loaders.ExtractToolConfigs | ai_assistant_hub/config/loaders.py:64-83 | the loop over the items builds what `ExtractFrom` specifies |
| Loaders.OnlyToolKeysMatter | ai_assistant_hub/config/loaders.py:68-70 | keys without the `TOOL_` prefix do not affect the result |
| Loaders.ConfigKeyOnly | ai_assistant_hub/config/loaders.py:76-79 | a lone `TOOL_N_CONFIG__K` gives the tool lower(N), enabled, with config {lower(K): value} |
| AppSettings.ToolIsEnabled | ai_assistant_hub/config/settings.py:30-32 | a tool the settings do not mention is enabled; otherwise its toggle decides |
| AppSettings.ToolConfig | ai_assistant_hub/config/settings.py:34-35 | a tool the settings do not mention has config {}; otherwise its toggle's config |
| AppSettings.Toggle | ai_assistant_hub/config/settings.py:59-63 | enabled is the truthiness of "enabled", defaulting to true; config is {} when absent and the dict itself when given one |
| AppSettings.BuildToolToggles | ai_assistant_hub/config/settings.py:57-64 | the loop builds what `TogglesFrom` specifies |
| AppSettings.TogglesGet | ai_assistant_hub/config/settings.py:57-64 | each tool maps to the toggle of its own entry |
| AppSettings.TogglesKeys | ai_assistant_hub/config/settings.py:57-64 | the toggles keep the tools' order |
| AppSettings.ExtractExtraFields | ai_assistant_hub/config/settings.py:67-69 | the extra fields are exactly the items that are neither reserved nor `TOOL_` keys |
| AppSettings.CoercePath | ai_assistant_hub/config/settings.py:72-75 | None gives no path; anything else gives the path `Path(str(v))` builds, which is in normal form |
| Paths.ParseToText | ai_assistant_hub/config/settings.py:75 | a path built from the text of a normal-form path is that path |
| Paths.ParseIdempotent | ai_assistant_hub/config/settings.py:75 | building a path from the text of a built path gives the same path |
| Paths.RedundantSlashes | ai_assistant_hub/config/settings.py:75 | `conf//a.json/` and `conf/a.json` build the same path |
| Paths.DotParts | ai_assistant_hub/config/settings.py:75 | a `.` part is dropped, and the empty text builds the path `.` |
| AppSettings.ConfigSource | ai_assistant_hub/config/settings.py:42 | the explicit config path wins over the environment's CONFIG_FILE |
| AppSettings.StringField | ai_assistant_hub/config/settings.py:49-50 | the default when absent; the string when a string; a ValidationError otherwise |
| AppSettings.LoadSettings | ai_assistant_hub/config/settings.py:38-54 | the file read is the one at the path ConfigSource picks, merged over the environment; settings are built from the merged map: its toggles, name, level, the file's CONFIG_FILE and the extra fields; each failure is the exception the code raises |
| AppSettings.DefaultNameAndLevel | ai_assistant_hub/config/settings.py:49-50 | with neither source naming them, the app name is "AI-Assistant Hub" and the level "INFO" |
| Tooling.Invoke | ai_assistant_hub/mcp/tooling.py:145-159 | an invalid input raises ValidationError; a ToolExecutionError from the handler becomes a failed response carrying its text; any other Exception is re-raised as ToolExecutionError; a raw result goes through the output model; a failed response has empty output |
| Tooling.InvokeRaised | ai_assistant_hub/mcp/tooling.py:147-152 | a handler raising ToolExecutionError gives a failed response with its message; any other Exception is re-raised as a ToolExecutionError with the same text |
| Tooling.InvokeRaises | ai_assistant_hub/mcp/tooling.py:145-159 | invoke raises only ValidationError, ToolExecutionError, or a non-Exception |
| Tooling.Normalize | ai_assistant_hub/mcp/tooling.py:194-203 | None gives {}; a dict is kept; a model gives its dump; anything else gives `dict(x)`, or {"value": x} when that raises |
| Tooling.KeywordArguments | ai_assistant_hub/mcp/tooling.py:168-173 | `arguments`, else `input`, else `params`, else None |
| Tooling.ExtractPayload | ai_assistant_hub/mcp/tooling.py:162-205 | keyword arguments win; otherwise a leading dict is the arguments and a second positional the context, and a leading non-dict is the context with the second positional as the arguments |
| Tooling.ToolCatalog.constructor | ai_assistant_hub/mcp/tooling.py:208-212 | a catalog starts empty |
| Tooling.ToolCatalog.Register | ai_assistant_hub/mcp/tooling.py:214-217 | a duplicate name raises ValueError and leaves the catalog unchanged; a new name is appended; names stay distinct |
| Tooling.ToolCatalog.Get | ai_assistant_hub/mcp/tooling.py:219-220 | None exactly for unknown names; otherwise the spec filed under that name |
| Tooling.ToolCatalog.List | ai_assistant_hub/mcp/tooling.py:222-223 | the specs in registration order |
| Tooling.AppendFresh | ai_assistant_hub/mcp/tooling.py:214-217 | appending a fresh name keeps names distinct |
| Server.RegisterStep | ai_assistant_hub/server/mcp_server.py:58-61 | the catalog registration comes first: a duplicate fails before binding; a failed binding leaves the spec in the catalog but not on the host |
| Server.AIHubMCPServer.constructor | ai_assistant_hub/server/mcp_server.py:27-34 | a server starts with an empty catalog and nothing bound |
| Server.AIHubMCPServer.RegisterTool | ai_assistant_hub/server/mcp_server.py:58-61 | the catalog and the host change as `RegisterStep` specifies |
| Server.AIHubMCPServer.Invoke | ai_assistant_hub/server/mcp_server.py:63-67 | an unknown tool raises ToolExecutionError("Unknown tool: ...") without calling a handler; otherwise the named spec's invoke |
| Server.AIHubMCPServer.ListTools | ai_assistant_hub/server/mcp_server.py:69-70 | the catalog's list |
| Server.AIHubMCPServer.Metadata | ai_assistant_hub/server/mcp_server.py:72-74 | the host's name when it has one, else the settings' app name; the number of registered tools |
| ToolLoader.ModuleName | ai_assistant_hub/server/tool_loader.py:30 | the module path is "ai_assistant_hub.tools." followed by the tool name |
| ToolLoader.ImportToolFactory | ai_assistant_hub/server/tool_loader.py:29-42 | a ConfigurationError for a missing module, a missing `build_tool` or one that is not callable; otherwise the factory |
| ToolLoader.LoadTools | ai_assistant_hub/server/tool_loader.py:16-26 | the loop leaves the catalog, the host and the error as `LoadFrom` specifies |
| ToolLoader.DisabledSkipped | ai_assistant_hub/server/tool_loader.py:19-22 | disabled tools have no effect at all |
| ToolLoader.LoadAppend | ai_assistant_hub/server/tool_loader.py:19-26 | loading stops at the first error; loading a + b is loading a and then b |
| ToolLoader.LoadRegistersEach | ai_assistant_hub/server/tool_loader.py:19-26 | after an error-free load, every enabled tool's spec is in the catalog under its name, after the tools already there |
| GitHub.ValidateConfig | ai_assistant_hub/integrations/github.py:13-21 | every field has a default (api.github.com, no token, Bearer, 10.0, 1, 0.5), so an empty config validates; failures are ValidationErrors |
| GitHub.AdapterHeaders | ai_assistant_hub/integrations/github.py:28-30 | Accept is always sent; Authorization exactly when a non-empty token is configured, as type, space, token; no other header |
| GitHub.NewAdapter | ai_assistant_hub/integrations/github.py:27-38 | the client gets the configured base URL, timeout, retries and these headers |
| GitHub.RepositoryError | ai_assistant_hub/integrations/github.py:43-53 | "404" or "Not Found" in the error gives the not-found message; otherwise "403" or "Forbidden" gives the inaccessible message; otherwise the error unchanged |
| GitHub.EnsureRepository | ai_assistant_hub/integrations/github.py:40-53 | nothing is raised exactly when the repository request succeeds; otherwise the reinterpreted ToolExecutionError |
| GitHub.NotFoundReported | ai_assistant_hub/integrations/github.py:45-48 | a 404 answer raises "Repository 'owner/repo' not found. ...", not the transport's message |
| GitHub.NotFoundStatus | ai_assistant_hub/utils/http.py:50-57 | a 404 answer fails the request at once with a ToolExecutionError whose message contains "404" |
| GitHub.BaseParams | ai_assistant_hub/integrations/github.py:65-69 | the query starts with state, page and per_page, in that order |
| GitHub.IssueParams | ai_assistant_hub/integrations/github.py:65-71 | per_page is capped at 100; labels are sent comma-joined exactly when a non-empty list is given, after the other three |
| GitHub.Pluck | ai_assistant_hub/integrations/github.py:92-94 | succeeds exactly when every item is a dict; then each item's value under the key, None when absent |
| GitHub.BodyOf | ai_assistant_hub/integrations/github.py:89 | a string body is cut to its first 500 characters; None gives ""; a non-empty dict body raises KeyError `slice(None, 500, None)`; the kept body is never longer than 500 |
| GitHub.Reshape | ai_assistant_hub/integrations/github.py:83-96 | only a dict issue is reshaped; any other issue raises AttributeError at its first `.get` |
| GitHub.Names | ai_assistant_hub/integrations/github.py:92-94 | over a list, the comprehension reads each element's key as `Pluck` does |
| GitHub.ReshapeFields | ai_assistant_hub/integrations/github.py:85-93 | number, title, state, url (from html_url), the two dates and the user's login are read from the issue |
| GitHub.ReshapeBody | ai_assistant_hub/integrations/github.py:89 | the kept body is the first 500 characters of the issue's body, or "" for None |
| GitHub.ReshapeLists | ai_assistant_hub/integrations/github.py:92-94 | labels are the labels' names and assignees the assignees' logins |
| GitHub.ReshapeTotal | ai_assistant_hub/integrations/github.py:83-96 | an issue of the shape GitHub sends is reshaped without raising |
| GitHub.ShapeIssue | ai_assistant_hub/integrations/github.py:80-96 | an item is skipped exactly when it has a pull_request member; otherwise it is reshaped |
| GitHub.ShapeAll | ai_assistant_hub/integrations/github.py:79-97 | never more issues than items; which issues, and in what order, is stated by GitHub.ShapeAllOrder |
| GitHub.NonPulls | ai_assistant_hub/integrations/github.py:80-82 | the kept items are items of the answer and none is a pull request |
| GitHub.ShapeAllOrder | ai_assistant_hub/integrations/github.py:79-97 | the issues correspond one to one, in order, to the answer's items that are not pull requests |
| GitHub.ListIssues | ai_assistant_hub/integrations/github.py:55-97 | the query building and the issue loop return what `ListedIssues` specifies |
| GitHub.ShapeIssues | ai_assistant_hub/integrations/github.py:79-97 | the loop returns what `ShapeAll` specifies, stopping at the first item that raises |
| Collecting.Collect | ai_assistant_hub/integrations/github.py:79-97 | never more results than items; which results, and in what order, is stated by Collecting.CollectOrder |
| Collecting.Kept | ai_assistant_hub/integrations/github.py:80-82 | the kept items are items of the input, none of them skipped |
| Collecting.CollectStep | ai_assistant_hub/integrations/github.py:80-96 | one item more: a raising item stops the list; otherwise its result, if any, is appended |
| Collecting.CollectOrder | ai_assistant_hub/integrations/github.py:79-97 | when the items without a result are exactly the skipped ones, the results correspond one to one, in order, to the kept items |
| Slack.ValidateConfig | ai_assistant_hub/integrations/slack.py:13-21 | the token is required; the other fields default to Bearer, slack.com/api, 10.0, 1, 0.5; failures are ValidationErrors |
| Slack.AdapterHeaders | ai_assistant_hub/integrations/slack.py:28-29 | the form content type and the Authorization header, and no other header |
| Slack.NewAdapter | ai_assistant_hub/integrations/slack.py:27-37 | the client gets the configured base URL, timeout, retries and these headers |
| Slack.Payload | ai_assistant_hub/integrations/slack.py:46-48 | channel and text, then thread_ts exactly when a non-empty one is given |
| Slack.PostedMessage.ToDict | ai_assistant_hub/integrations/slack.py:68-74 | the five keys in order, with status always "sent" |
| Slack.ChannelId | ai_assistant_hub/integrations/slack.py:57-58 | a string channel is the id; a dict gives its id, defaulting to the channel asked for; any other shape raises AttributeError |
| Slack.ChannelName | ai_assistant_hub/integrations/slack.py:59-61 | "#" and the name exactly when the channel is a dict with a non-empty name; else None |
| Slack.Permalink | ai_assistant_hub/integrations/slack.py:63-66 | None unless both timestamp and channel id are non-empty; then the archive URL with the dots dropped from the timestamp |
| Slack.Reply | ai_assistant_hub/integrations/slack.py:52-74 | a falsy "ok" raises "Slack API error: " and the error, defaulting to "Unknown error"; success only on a truthy "ok", with channel, name, timestamp and permalink read as specified |
| Slack.PostMessage | ai_assistant_hub/integrations/slack.py:39-74 | posts the payload and reads the reply; a transport failure is raised as is |
| Slack.PermalinkOfAnswer | ai_assistant_hub/integrations/slack.py:56-66 | an answer naming the channel id and a timestamp yields the permalink "https://slack.com/archives/<id>/p<ts without dots>" |
| Weather.ValidateConfig | ai_assistant_hub/integrations/weather.py:12-22 | the API key is required; the other fields default to openweathermap's 2.5 API, 10.0, 1, 0.5; failures are ValidationErrors |
| Weather.NewAdapter | ai_assistant_hub/integrations/weather.py:28-35 | the client gets the configured base URL, timeout and retries, and no headers |
| Weather.WeatherParams | ai_assistant_hub/integrations/weather.py:41-45 | the query is q, units and appid, in that order, holding the location, units and key |
| Weather.LocationLine | ai_assistant_hub/integrations/weather.py:54 | "name, country" when the country is non-empty, else the name as given |
| Weather.Read | ai_assistant_hub/integrations/weather.py:49-68 | a non-dict answer raises AttributeError; errors are only the lookup errors of the code; the readings come from main, the description from the first element of `weather` (default ""), wind speed and direction from `wind`, clouds from `clouds.all`, visibility from the answer, the location line from name and sys.country, and the units are those asked for |
| Weather.FetchWeather | ai_assistant_hub/integrations/weather.py:37-68 | an empty API key raises the configuration hint before any request; otherwise the answer of the query is read, and transport failures propagate |
| Weather.EmptyAnswer | ai_assistant_hub/integrations/weather.py:49-68 | an empty answer gives the location asked for, an empty description, the units, and None elsewhere |
| Weather.CountryLabelsLocation | ai_assistant_hub/integrations/weather.py:52-54 | an answer naming a country labels the location "name, country" |
| GitHubIssuesTool.ValidateInput | ai_assistant_hub/tools/github_issues.py:13-19 | owner and repo are required strings; state defaults to "open", labels to None, page to 1, per_page to 30 |
| GitHubIssuesTool.StateFilter | ai_assistant_hub/tools/github_issues.py:35 | the state is lower-cased, and "open" is used when it is None or empty |
| GitHubIssuesTool.OrDefault | ai_assistant_hub/tools/github_issues.py:45-46 | `x or default`: None and 0 fall back to the default |
| GitHubIssuesTool.Summary | ai_assistant_hub/tools/github_issues.py:49-53 | under "issues", each issue as its dict, in order; repository_exists true, and total_count equal to the number of issues |
| GitHubIssuesTool.Handle | ai_assistant_hub/tools/github_issues.py:34-53 | an unknown state raises before any request; then a missing repository is raised; then the listing's error or its summary |
| GitHubIssuesTool.ValidateOutput | ai_assistant_hub/tools/github_issues.py:22-25 | the dump has issues, repository_exists and total_count, defaulting to true and None |
| GitHubIssuesTool.SummaryValid | ai_assistant_hub/tools/github_issues.py:49-53 | the handler's summary passes the output model unchanged |
| GitHubIssuesTool.BuildTool | ai_assistant_hub/tools/github_issues.py:28-67 | fails exactly when the config does not validate; otherwise the spec named "github_issues" |
| GitHubIssuesTool.BuiltHandler | ai_assistant_hub/tools/github_issues.py:31-34 | the built tool runs the handler on the validated input, with the adapter of the validated configuration, and validates with the output model |
| GitHubIssuesTool.UnknownStateRefused | ai_assistant_hub/tools/github_issues.py:35-37 | an unknown state gives a failed response with the state message, for any network |
| GitHubIssuesTool.ListingReturned | ai_assistant_hub/tools/github_issues.py:49-53 | a successful listing is a successful response whose total_count is the number of issues |
| GitHubIssuesTool.MissingRepositoryReported | ai_assistant_hub/tools/github_issues.py:39 | a 404 for the repository gives a failed response naming owner and repo |
| SlackPostMessageTool.ValidateInput | ai_assistant_hub/tools/slack_post_message.py:12-15 | channel and text are required strings; thread_ts defaults to None |
| SlackPostMessageTool.ChannelOf | ai_assistant_hub/tools/slack_post_message.py:33 | a leading "#" is dropped; anything else is kept |
| SlackPostMessageTool.Handle | ai_assistant_hub/tools/slack_post_message.py:32-35 | posts to that channel and returns the adapter's reply as is, or raises its error |
| SlackPostMessageTool.HashNameSameChannel | ai_assistant_hub/tools/slack_post_message.py:33 | "#name" and "name" post the same message to the same channel |
| SlackPostMessageTool.ValidateOutput | ai_assistant_hub/tools/slack_post_message.py:18-23 | the five fields in order; timestamp, status and channel are carried over |
| SlackPostMessageTool.ReplyValid | ai_assistant_hub/tools/slack_post_message.py:18-23 | a reply with string timestamp and channel, and string-or-None name and permalink, passes unchanged |
| SlackPostMessageTool.NonStringStampRejected | ai_assistant_hub/tools/slack_post_message.py:19 | a reply whose timestamp is not a string fails the output model |
| SlackPostMessageTool.BuildTool | ai_assistant_hub/tools/slack_post_message.py:26-47 | fails exactly when the config does not validate; otherwise the spec named "slack_post_message" |
| SlackPostMessageTool.BuiltHandler | ai_assistant_hub/tools/slack_post_message.py:29-32 | the built tool runs the handler on the validated input, with the adapter of the validated configuration, and validates with the output model |
| SlackPostMessageTool.SlackErrorReported | ai_assistant_hub/tools/slack_post_message.py:34-35 | a Slack error gives a failed response with its message; an AttributeError from a malformed answer is re-raised as ToolExecutionError |
| WeatherTool.ValidateInput | ai_assistant_hub/tools/weather.py:13-15 | the location is required; units default to "metric" |
| WeatherTool.Handle | ai_assistant_hub/tools/weather.py:28-34 | an unknown unit system raises before any request; otherwise the conditions in the lower-cased units, under "conditions" |
| WeatherTool.AsScalar | ai_assistant_hub/tools/weather.py:19 | None, floats, strings and integers are kept; lists and dicts are refused |
| WeatherTool.ScalarEntries | ai_assistant_hub/tools/weather.py:19 | the conditions validate exactly when no value is a list or dict; keys keep their order |
| WeatherTool.ScalarEntriesKeep | ai_assistant_hub/tools/weather.py:19 | conditions holding only scalars pass unchanged |
| WeatherTool.ValidateOutput | ai_assistant_hub/tools/weather.py:18-19 | the dump is one dict under "conditions", {} when absent |
| WeatherTool.ReportValid | ai_assistant_hub/tools/weather.py:18-19 | the handler's report passes the output model unchanged when its readings are scalars |
| WeatherTool.BuildTool | ai_assistant_hub/tools/weather.py:22-44 | fails exactly when the config does not validate; otherwise the spec named "weather" |
| WeatherTool.UnknownUnitsRefused | ai_assistant_hub/tools/weather.py:29-31 | units other than metric or imperial give a failed response with the units message, for any network |
| WeatherTool.MissingKeyReported | ai_assistant_hub/integrations/weather.py:38-39 | without an API key a valid request gives a failed response with the configuration hint, for any network |
| WeatherTool.UnitsCaseInsensitive | ai_assistant_hub/tools/weather.py:29 | "METRIC" is handled exactly as "metric" |

## Left out

- I/O is not modelled:
  - `build_base_config` and `load_file_config` read the environment, `.env` and JSON/YAML files. `load_settings` takes the environment's map and the file reader as parameters.
  - `server/main.py` and `utils/logging.py` are not part of this model.
  - Logging calls and `log_startup` are not modelled.
- The network and the host library are parameters:
  - The HTTP client and adapters use the outcome oracle.
  - `bind_to_server` is the parameter `bind`, which says whether binding raises. Its fan-out over the host's registration APIs is not modelled.
  - The host's `name` attribute is a parameter.
- Also not modelled:
  - `AIHubMCPServer.__post_init__`, which constructs the host server.
  - `to_metadata`, which needs pydantic's JSON schema generation.
  - The RuntimeError raised when `httpx` or `mcp` is not installed.
- Concurrency, `async`, and cancellation are not modelled: every await is a plain call. Sleeps are recorded as a ghost trace of wait lengths.
- Float parsing of configuration strings (`float(value)` in `_coerce_value`) is a parameter `parseFloat`. Pydantic's float fields accept integer text only.
- `str.lower` folds ASCII letters only. `str.strip` uses Python's whitespace set. `int(s)` accepts ASCII digits with single underscores, a sign, and surrounding whitespace.
- Dict keys are strings: `Assoc` pairs a `string` with its value, so a dict keyed by an int, None, a bool or a float cannot be represented.
- PyOps.PairOf: `dict(...)` over pairs whose key is an int, None, a bool or a float succeeds in Python but is modelled as a TypeError.
- Tooling.Normalize: for pairs with such keys it falls back to `{"value": x}` where `dict(x)` would build the dict.
- AppSettings.Toggle: for a config of pairs with such keys it raises where `dict(entry.get("config", {}))` would build the dict.
- PyOps.SliceTo: slicing a dict raises CPython 3.12's KeyError naming the slice. Earlier versions raise TypeError "unhashable type: 'slice'" instead.
- Paths: paths are POSIX paths. Windows path parsing is not modelled.
- `Values.PyStr`: `str(v)` is exact for None, booleans, integers and strings. Floats, lists and dicts get placeholder texts, so messages built from them are not exact.
- Pydantic validation reports only the first failing field, with pydantic's reason text. Lax coercions are limited to those listed in `fields.dfy`.
- `WeatherTool.AsScalar` turns a boolean into a float in the `Optional[float | str | int]` union, following lax float validation. Pydantic's smart-union choice for booleans is not modelled beyond that.
- Output models are modelled as their `model_dump()`. A handler returning a pydantic model instance is not modelled, because the three tools return dicts.
- `Weather.Conditions.ToDict` and `GitHub.Issue.ToDict` carry no contract; their key order is the source's literal order.
- `GitHub.ShapeAll`: a pull-request check that raises (an item that is not a dict, string or list) is an error of the whole listing, as in the source.
