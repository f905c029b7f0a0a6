/**
  The GitHub issues adapter (`integrations/github.py`): its configuration,
  the headers its client sends, the repository check that turns "not found"
  and "forbidden" failures into messages naming the repository, and the
  listing of issues, which drops pull requests and reshapes each issue into
  a compact record. The adapter's client is fixed at construction, so the
  adapter is a value; what the network answers is the oracle `net`.
*/
module GitHub {
  import opened Wrappers
  import opened Dicts
  import opened Values
  import opened Errors
  import opened PyOps
  import opened Http
  import Auth
  import Fields
  import Text
  import Collecting

  datatype GitHubIssuesConfig = GitHubIssuesConfig(
    baseUrl: string,
    token: Option<string>,
    tokenType: string,
    timeout: real,
    retries: int,
    backoffFactor: real)

  const DefaultBaseUrl := "https://api.github.com"

  /** `GitHubIssuesConfig.model_validate(raw)`: every field absent from `raw` takes its default. */
  function ValidateConfig(raw: Assoc<Value>): (r: Result<GitHubIssuesConfig, Exc>)
    ensures r.Err? ==> r.error.cls == ValidationError
    ensures r.Ok? && !HasKey(raw, "base_url") ==> r.value.baseUrl == "https://api.github.com"
    ensures r.Ok? && !HasKey(raw, "token") ==> r.value.token == None
    ensures r.Ok? && !HasKey(raw, "token_type") ==> r.value.tokenType == "Bearer"
    ensures r.Ok? && !HasKey(raw, "timeout") ==> r.value.timeout == 10.0
    ensures r.Ok? && !HasKey(raw, "retries") ==> r.value.retries == 1
    ensures r.Ok? && !HasKey(raw, "backoff_factor") ==> r.value.backoffFactor == 0.5
    ensures Get(raw, "token") == Some(Null) ==> r.Err? || r.value.token == None
    ensures raw == [] ==> r.Ok?
  {
    var baseUrl :- Fields.Validated(Fields.StrField(raw, "base_url", Some(DefaultBaseUrl)));
    var token :- Fields.Validated(Fields.OptStrField(raw, "token", None));
    var tokenType :- Fields.Validated(Fields.StrField(raw, "token_type", Some("Bearer")));
    var timeout :- Fields.Validated(Fields.FloatField(raw, "timeout", 10.0));
    var retries :- Fields.Validated(Fields.IntField(raw, "retries", 1));
    var backoffFactor :- Fields.Validated(Fields.FloatField(raw, "backoff_factor", 0.5));
    Ok(GitHubIssuesConfig(baseUrl, token, tokenType, timeout, retries, backoffFactor))
  }

  const AcceptHeader := "application/vnd.github.v3+json"

  /** `if config.token:` */
  predicate HasToken(config: GitHubIssuesConfig) {
    config.token.Some? && config.token.value != ""
  }

  /** The headers `__init__` builds: Accept always, Authorization only with a non-empty token. */
  function AdapterHeaders(config: GitHubIssuesConfig): (h: Assoc<string>)
    ensures Get(h, "Accept") == Some(AcceptHeader)
    ensures HasKey(h, "Authorization") <==> HasToken(config)
    ensures HasToken(config) ==> Get(h, "Authorization") == Some(config.tokenType + " " + config.token.value)
    ensures forall k :: k != "Accept" && k != "Authorization" ==> !HasKey(h, k)
  {
    var headers := [("Accept", AcceptHeader)];
    if HasToken(config) then Update(headers, Auth.OAuthTokenAuth(config.token.value, config.tokenType).Headers())
    else headers
  }

  datatype GitHubIssuesAdapter = GitHubIssuesAdapter(client: ResilientAsyncHTTPClient)

  /** `GitHubIssuesAdapter(config=config)`: a client for the configured base URL, with those headers. */
  function NewAdapter(config: GitHubIssuesConfig): (a: GitHubIssuesAdapter)
    ensures a.client.baseUrl == Some(config.baseUrl) && a.client.timeout == Some(config.timeout)
    ensures a.client.headers == AdapterHeaders(config)
    ensures config.retries >= 0 ==> a.client.retries == config.retries
  {
    GitHubIssuesAdapter(NewClient(Some(config.baseUrl), Some(AdapterHeaders(config)), Some(config.timeout),
                                  config.retries, config.backoffFactor))
  }

  function RepositoryPath(owner: string, repo: string): string {
    "/repos/" + owner + "/" + repo
  }

  function NotFoundMessage(owner: string, repo: string): string {
    "Repository '" + owner + "/" + repo + "' not found. Confirm owner and repository name."
  }

  function InaccessibleMessage(owner: string, repo: string): string {
    "Repository '" + owner + "/" + repo
      + "' is private or inaccessible. Provide a GitHub token via TOOL_GITHUB_ISSUES_CONFIG__TOKEN"
  }

  /** The error `ensure_repository` raises for a caught ToolExecutionError `e`. */
  function RepositoryError(owner: string, repo: string, e: Exc): (r: Exc)
    ensures Text.Contains(e.message, "404") || Text.Contains(e.message, "Not Found") ==>
      r == Exc(ToolExecutionError, NotFoundMessage(owner, repo))
    ensures (!(Text.Contains(e.message, "404") || Text.Contains(e.message, "Not Found"))
          && (Text.Contains(e.message, "403") || Text.Contains(e.message, "Forbidden"))) ==>
      r == Exc(ToolExecutionError, InaccessibleMessage(owner, repo))
    ensures (!(Text.Contains(e.message, "404") || Text.Contains(e.message, "Not Found"))
          && !(Text.Contains(e.message, "403") || Text.Contains(e.message, "Forbidden"))) ==>
      r == e
  {
    var message := e.message;
    if Text.Contains(message, "404") || Text.Contains(message, "Not Found") then
      Exc(ToolExecutionError, NotFoundMessage(owner, repo))
    else if Text.Contains(message, "403") || Text.Contains(message, "Forbidden") then
      Exc(ToolExecutionError, InaccessibleMessage(owner, repo))
    else e
  }

  function RepositoryCall(owner: string, repo: string): Call {
    Call("GET", RepositoryPath(owner, repo), [], [])
  }

  /** `ensure_repository`: None when the repository answers, else the error raised. */
  function EnsureRepository(adapter: GitHubIssuesAdapter, net: Network, owner: string, repo: string): (r: Option<Exc>)
    ensures r.None? <==> Send(net, adapter.client, RepositoryCall(owner, repo)).Ok?
    ensures r.Some? ==> r.value == RepositoryError(owner, repo, Send(net, adapter.client, RepositoryCall(owner, repo)).error)
    ensures r.Some? ==> r.value.cls == ToolExecutionError
  {
    match Send(net, adapter.client, RepositoryCall(owner, repo))
    case Ok(_) => None
    case Err(e) => if IsA(e.cls, ToolExecutionError) then Some(RepositoryError(owner, repo, e)) else Some(e)
  }

  /** A 404 answer to the repository check is reported as the repository not being found. */
  lemma {:induction false} NotFoundReported(adapter: GitHubIssuesAdapter, net: Network, owner: string, repo: string)
    requires var a := net(adapter.client, RepositoryCall(owner, repo))(0); a.Received? && a.status == 404
    ensures EnsureRepository(adapter, net, owner, repo) == Some(Exc(ToolExecutionError, NotFoundMessage(owner, repo)))
  {
    var c := adapter.client;
    var outcomes := net(c, RepositoryCall(owner, repo));
    NotFoundStatus(c, outcomes);
    assert Send(net, c, RepositoryCall(owner, repo)) == Run(c, outcomes, 0);
  }

  /** A 404 answer fails the request at once with a ToolExecutionError whose message contains "404". */
  lemma {:induction false} NotFoundStatus(c: ResilientAsyncHTTPClient, outcomes: nat -> Attempt)
    requires outcomes(0).Received? && outcomes(0).status == 404
    ensures Run(c, outcomes, 0).Err? && Run(c, outcomes, 0).error.cls == ToolExecutionError
    ensures Text.Contains(Run(c, outcomes, 0).error.message, "404")
  {
    StatusErrorNotRetried(c, outcomes);
    Mentions404(Run(c, outcomes, 0).error.message, outcomes(0).reason);
  }

  /** A message naming status 404 and its reason contains "404". */
  lemma {:induction false} Mentions404(message: string, reason: string)
    requires Text.Contains(message, Text.IntToString(404) + " " + reason)
    ensures Text.Contains(message, "404")
  {
    Text404();
    assert Text.IntToString(404) + " " + reason == "404" + (" " + reason);
    Text.ContainsPrefix(message, "404", " " + reason);
  }

  lemma {:induction false} Text404()
    ensures Text.IntToString(404) == "404"
  {
    assert Text.NatToString(4) == "4";
    assert Text.NatToString(40) == "40";
  }

  function Min(a: int, b: int): int {
    if a < b then a else b
  }

  /** The query `list_issues` starts from. */
  function BaseParams(state: string, page: int, perPage: int): (p: Assoc<Value>)
    ensures Keys(p) == ["state", "page", "per_page"]
  {
    Cons("state", Str(state), Cons("page", Int(page), Cons("per_page", Int(Min(perPage, 100)), [])))
  }

  /** The query of `list_issues`. */
  function IssueParams(state: string, labels: Option<seq<string>>, page: int, perPage: int): (p: Assoc<Value>)
    ensures Get(p, "state") == Some(Str(state)) && Get(p, "page") == Some(Int(page))
    ensures Get(p, "per_page") == Some(Int(Min(perPage, 100)))
    ensures HasKey(p, "labels") <==> labels.Some? && labels.value != []
    ensures HasKey(p, "labels") ==> Get(p, "labels") == Some(Str(Text.Join(",", labels.value)))
    ensures Keys(p) == ["state", "page", "per_page"] + if labels.Some? && labels.value != [] then ["labels"] else []
  {
    var params := BaseParams(state, page, perPage);
    assert !HasKey(params, "labels");
    if labels.Some? && labels.value != [] then Put(params, "labels", Str(Text.Join(",", labels.value)))
    else params
  }

  function IssuesCall(owner: string, repo: string, params: Assoc<Value>): Call {
    Call("GET", RepositoryPath(owner, repo) + "/issues", params, [])
  }

  /** `[x.get(key) for x in items]` */
  function Pluck(items: seq<Value>, key: string): (r: Result<seq<Value>, Exc>)
    ensures r.Ok? <==> forall i :: 0 <= i < |items| ==> items[i].Dict?
    ensures r.Ok? ==> |r.value| == |items| && forall i :: 0 <= i < |items| ==> r.value[i] == GetOr(items[i].entries, key, Null)
  {
    if items == [] then Ok([])
    else
      var first :- GetAttr(items[0], key, Null);
      var rest :- Pluck(items[1..], key);
      assert forall i :: 0 < i < |items| ==> items[i] == items[1..][i - 1];
      Ok([first] + rest)
  }

  /** `"pull_request" in issue` holds. */
  predicate IsPull(issue: Value) {
    HasMember(issue, "pull_request") == Ok(true)
  }

  /** The field of `issue` under `key` with `default`, when `issue` is a dict. */
  function Field(issue: Value, key: string, default: Value): Value {
    if issue.Dict? then GetOr(issue.entries, key, default) else default
  }

  /** The body kept for an issue: `(body or "")[:500]`. */
  function BodyOf(body: Value): (r: Result<Value, Exc>)
    ensures body.Str? ==> r == Ok(Str(body.s[..Min(|body.s|, 500)]))
    ensures body.Null? ==> r == Ok(Str(""))
    ensures body.Dict? && body.entries != [] ==> r == Err(Exc(KeyError, "slice(None, 500, None)"))
    ensures r.Ok? && r.value.Str? ==> |r.value.s| <= 500
  {
    assert "slice(None, " + Text.NatToString(500) + ", None)" == "slice(None, 500, None)" by {
      assert Text.NatToString(5) == "5";
      assert Text.NatToString(50) == "50";
      assert Text.NatToString(500) == "500";
    }
    SliceTo(if Truthy(body) then body else Str(""), 500)
  }

  /** The record `list_issues` keeps for one issue. */
  datatype Issue = Issue(
    number: Value,
    title: Value,
    state: Value,
    url: Value,
    body: Value,
    createdAt: Value,
    updatedAt: Value,
    labels: seq<Value>,
    user: Value,
    assignees: seq<Value>)
  {
    /** The record as the dict `list_issues` returns. */
    function ToDict(): Assoc<Value> {
      [("number", number), ("title", title), ("state", state), ("url", url), ("body", body),
       ("created_at", createdAt), ("updated_at", updatedAt), ("labels", List(labels)),
       ("user", user), ("assignees", List(assignees))]
    }
  }

  /** The record built for an issue that is not a pull request; raises when the issue has the wrong shape. */
  function Reshape(issue: Value): (r: Result<Issue, Exc>)
    ensures r.Ok? ==> issue.Dict?
    ensures !issue.Dict? ==> r.Err? && r.error.cls == AttributeError
  {
    if !issue.Dict? then
      // The first `issue.get` raises.
      Err(GetAttr(issue, "number", Null).error)
    else ReshapeEntries(issue.entries)
  }

  /** The record built from an issue's entries: the `.get` calls cannot fail, the body and lists can. */
  function ReshapeEntries(e: Assoc<Value>): Result<Issue, Exc> {
    var body :- BodyOf(GetOr(e, "body", Str("")));
    var labels :- Names(GetOr(e, "labels", List([])), "name");
    var user :- GetAttr(GetOr(e, "user", Dict([])), "login", Null);
    var assignees :- Names(GetOr(e, "assignees", List([])), "login");
    Ok(Issue(GetOr(e, "number", Null), GetOr(e, "title", Null), GetOr(e, "state", Null), GetOr(e, "html_url", Null),
             body, GetOr(e, "created_at", Null), GetOr(e, "updated_at", Null), labels, user, assignees))
  }

  /** `[x.get(key) for x in v]`. */
  function Names(v: Value, key: string): (r: Result<seq<Value>, Exc>)
    ensures v.List? ==> r == Pluck(v.items, key)
  {
    var items :- Iterate(v);
    Pluck(items, key)
  }

  /** The scalar fields are copied from the issue, `html_url` becoming `url`, absent ones None. */
  lemma {:induction false} ReshapeFields(issue: Value)
    requires Reshape(issue).Ok?
    ensures var d := Reshape(issue).value;
      && d.number == Field(issue, "number", Null)
      && d.title == Field(issue, "title", Null)
      && d.state == Field(issue, "state", Null)
      && d.url == Field(issue, "html_url", Null)
      && d.createdAt == Field(issue, "created_at", Null)
      && d.updatedAt == Field(issue, "updated_at", Null)
      && d.user == GetOr(Field(issue, "user", Dict([])).entries, "login", Null)
  {
  }

  /** The body is the issue's body cut to 500 characters; a missing or None body gives "". */
  lemma {:induction false} ReshapeBody(issue: Value)
    requires Reshape(issue).Ok?
    ensures var body := Field(issue, "body", Str(""));
      && (body.Str? ==> Reshape(issue).value.body == Str(body.s[..Min(|body.s|, 500)]))
      && (body.Null? ==> Reshape(issue).value.body == Str(""))
  {
  }

  /** `labels` lists the labels' names and `assignees` the assignees' logins, in order. */
  lemma {:induction false} ReshapeLists(issue: Value)
    requires Reshape(issue).Ok?
    ensures var labels := Field(issue, "labels", List([]));
      labels.List? ==>
        && Pluck(labels.items, "name").Ok?
        && Reshape(issue).value.labels == Pluck(labels.items, "name").value
    ensures var assignees := Field(issue, "assignees", List([]));
      assignees.List? ==>
        && Pluck(assignees.items, "login").Ok?
        && Reshape(issue).value.assignees == Pluck(assignees.items, "login").value
  {
  }

  /** A list of dicts, or absent: what `labels` and `assignees` hold in a well-formed issue. */
  predicate DictsOrAbsent(issue: Value, key: string) {
    var v := Field(issue, key, List([]));
    v.List? && forall i :: 0 <= i < |v.items| ==> v.items[i].Dict?
  }

  /** An issue of the shape GitHub sends is always reshaped without raising. */
  lemma {:induction false} ReshapeTotal(issue: Value)
    requires issue.Dict? && DictsOrAbsent(issue, "labels") && DictsOrAbsent(issue, "assignees")
    requires Field(issue, "user", Dict([])).Dict?
    requires Field(issue, "body", Str("")).Str? || Field(issue, "body", Str("")).Null?
    ensures Reshape(issue).Ok?
  {
  }

  /** One iteration of `list_issues`' loop: None for a pull request, else the reshaped issue. */
  function ShapeIssue(issue: Value): (r: Result<Option<Issue>, Exc>)
    ensures r == Ok(None) <==> IsPull(issue)
    ensures !IsPull(issue) && HasMember(issue, "pull_request").Ok? ==>
      r == (match Reshape(issue) case Ok(d) => Ok(Some(d)) case Err(e) => Err(e))
  {
    var isPull :- HasMember(issue, "pull_request");
    if isPull then Ok(None)
    else
      var d :- Reshape(issue);
      Ok(Some(d))
  }

  /** The issues `items` contribute, in order; the first error stops. */
  function ShapeAll(items: seq<Value>): (r: Result<seq<Issue>, Exc>)
    ensures r.Ok? ==> |r.value| <= |items|
  {
    Collecting.Collect(ShapeIssue, items)
  }

  /** The items that are not pull requests, in order. */
  function NonPulls(items: seq<Value>): (r: seq<Value>)
    ensures |r| <= |items|
    ensures forall x :: x in r ==> x in items && !IsPull(x)
  {
    Collecting.Kept(IsPull, items)
  }

  /**
    Pull requests are dropped and nothing else is: the reshaped issues are
    the reshaped non-pull-request items, one each, in their input order.
  */
  lemma {:induction false} ShapeAllOrder(items: seq<Value>)
    requires ShapeAll(items).Ok?
    ensures var r := ShapeAll(items).value;
      && |r| == |NonPulls(items)|
      && forall j :: 0 <= j < |r| ==> ShapeIssue(NonPulls(items)[j]) == Ok(Some(r[j]))
  {
    Collecting.CollectOrder(ShapeIssue, IsPull, items);
  }

  /** `list_issues`' result, given the answer to its request. */
  function ListedIssues(adapter: GitHubIssuesAdapter, net: Network, owner: string, repo: string,
                        state: string, labels: Option<seq<string>>, page: int, perPage: int): Result<seq<Issue>, Exc>
  {
    var response :- Send(net, adapter.client, IssuesCall(owner, repo, IssueParams(state, labels, page, perPage)));
    var items :- Iterate(response);
    ShapeAll(items)
  }

  /**
    `list_issues`: builds the query, sends it through the retrying client,
    and reshapes the answer issue by issue, skipping pull requests.
  */
  method ListIssues(adapter: GitHubIssuesAdapter, net: Network, owner: string, repo: string,
                    state: string, labels: Option<seq<string>>, page: int, perPage: int)
    returns (r: Result<seq<Issue>, Exc>)
    ensures r == ListedIssues(adapter, net, owner, repo, state, labels, page, perPage)
  {
    var params := BaseParams(state, page, perPage);
    if labels.Some? && labels.value != [] {
      params := Put(params, "labels", Str(Text.Join(",", labels.value)));
    }
    assert params == IssueParams(state, labels, page, perPage);
    var call := IssuesCall(owner, repo, params);
    var response, sleeps, attempts := Request(adapter.client, net(adapter.client, call));
    if response.Err? {
      return Err(response.error);
    }
    var items := Iterate(response.value);
    if items.Err? {
      return Err(items.error);
    }
    r := ShapeIssues(items.value);
  }

  /** The loop of `list_issues`: reshapes the items one by one, skipping pull requests. */
  method ShapeIssues(items: seq<Value>) returns (r: Result<seq<Issue>, Exc>)
    ensures r == ShapeAll(items)
  {
    var issues: seq<Issue> := [];
    var i := 0;
    assert items[i..] == items;
    assert ShapeAll(items).Ok? ==> [] + ShapeAll(items).value == ShapeAll(items).value;
    while i < |items|
      invariant 0 <= i <= |items|
      invariant Collecting.After(issues, Collecting.Collect(ShapeIssue, items[i..])) == ShapeAll(items)
    {
      ghost var tail := items[i..];
      assert tail[0] == items[i] && tail[1..] == items[i + 1..];
      Collecting.CollectStep(ShapeIssue, issues, tail);
      var shaped := ShapeIssue(items[i]);
      if shaped.Err? {
        assert Collecting.After(issues, Collecting.Collect(ShapeIssue, tail)) == Err(shaped.error);
        return Err(shaped.error);
      }
      ghost var before := issues;
      if shaped.value.Some? {
        issues := issues + [shaped.value.value];
      }
      assert issues == before + (if shaped.value.Some? then [shaped.value.value] else []);
      i := i + 1;
    }
    assert items[i..] == [] && Collecting.Collect(ShapeIssue, items[i..]) == Ok([]);
    assert issues + [] == issues;
    r := Ok(issues);
  }

}
