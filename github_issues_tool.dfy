/**
  The `github_issues` tool (`tools/github_issues.py`): its input and output
  models, its handler, and `build_tool`, which validates the GitHub
  configuration and returns the tool's spec. The handler checks the issue
  state before it touches the network, confirms the repository exists, lists
  one page of issues and reports how many it found.
*/
module GitHubIssuesTool {
  import opened Wrappers
  import opened Dicts
  import opened Values
  import opened Errors
  import opened Schemas
  import opened Tooling
  import opened Http
  import GitHub
  import Fields
  import Text

  const ToolName := "github_issues"

  const Description :=
    "List and summarize GitHub issues for a repository. "
    + "Validates repository existence before fetching issues. "
    + "Supports filtering by state and labels, with pagination."

  /** `GitHubIssuesInput`. */
  datatype GitHubIssuesInput = GitHubIssuesInput(
    owner: string,
    repo: string,
    state: Option<string>,
    labels: Option<seq<string>>,
    page: Option<int>,
    perPage: Option<int>)

  /** `GitHubIssuesInput.model_validate(data)`: owner and repo are required; state, page and per_page have defaults. */
  function ValidateInput(data: Assoc<Value>): (r: Result<GitHubIssuesInput, string>)
    ensures !HasKey(data, "owner") || !HasKey(data, "repo") ==> r.Err?
    ensures r.Ok? ==> Get(data, "owner") == Some(Str(r.value.owner)) && Get(data, "repo") == Some(Str(r.value.repo))
    ensures r.Ok? && !HasKey(data, "state") ==> r.value.state == Some("open")
    ensures r.Ok? && !HasKey(data, "labels") ==> r.value.labels == None
    ensures r.Ok? && !HasKey(data, "page") ==> r.value.page == Some(1)
    ensures r.Ok? && !HasKey(data, "per_page") ==> r.value.perPage == Some(30)
  {
    var owner :- Fields.StrField(data, "owner", None);
    var repo :- Fields.StrField(data, "repo", None);
    var state :- Fields.OptStrField(data, "state", Some("open"));
    var labels :- Fields.OptStrListField(data, "labels");
    var page :- Fields.OptIntField(data, "page", Some(1));
    var perPage :- Fields.OptIntField(data, "per_page", Some(30));
    Ok(GitHubIssuesInput(owner, repo, state, labels, page, perPage))
  }

  const InvalidStateMessage := "Invalid issue state. Choose 'open', 'closed', or 'all'."

  /** The state filter the handler uses: the requested state lower-cased, "open" when none or empty was given. */
  function StateFilter(state: Option<string>): (s: string)
    ensures state.None? || state == Some("") ==> s == "open"
    ensures state.Some? && state.value != "" ==> s == Text.Lower(state.value)
  {
    Text.Lower(if state.Some? && state.value != "" then state.value else "open")
  }

  predicate IsKnownState(s: string) {
    s in {"open", "closed", "all"}
  }

  /** `x or default` for an optional integer: None and 0 fall back to the default. */
  function OrDefault(x: Option<int>, default: int): (n: int)
    ensures x.Some? && x.value != 0 ==> n == x.value
    ensures x.None? || x.value == 0 ==> n == default
  {
    if x.Some? && x.value != 0 then x.value else default
  }

  /** What the handler returns for the listed issues: the issues, that the repository exists, and their count. */
  function Summary(issues: seq<GitHub.Issue>): (v: Value)
    ensures v.Dict? && Keys(v.entries) == ["issues", "repository_exists", "total_count"]
    ensures Get(v.entries, "issues").Some? && Get(v.entries, "issues").value.List?
    ensures |Get(v.entries, "issues").value.items| == |issues|
    ensures forall i :: 0 <= i < |issues| ==> Get(v.entries, "issues").value.items[i] == Dict(issues[i].ToDict())
    ensures Get(v.entries, "repository_exists") == Some(Bool(true))
    ensures Get(v.entries, "total_count") == Some(Int(|issues|))
  {
    Dict(Cons("issues", List(seq(|issues|, i requires 0 <= i < |issues| => Dict(issues[i].ToDict()))),
         Cons("repository_exists", Bool(true),
         Cons("total_count", Int(|issues|), []))))
  }

  /**
    The tool's handler: an unknown state is refused before any request; then
    a missing or inaccessible repository is reported; then one page of issues
    is listed, with page 1 and 30 per page when none (or 0) was asked for.
  */
  function Handle(adapter: GitHub.GitHubIssuesAdapter, net: Network, payload: GitHubIssuesInput): (o: HandlerOutcome)
    ensures !IsKnownState(StateFilter(payload.state)) ==> o == Raised(Exc(ToolExecutionError, InvalidStateMessage))
    ensures IsKnownState(StateFilter(payload.state)) ==>
      var missing := GitHub.EnsureRepository(adapter, net, payload.owner, payload.repo);
      var listed := GitHub.ListedIssues(adapter, net, payload.owner, payload.repo, StateFilter(payload.state),
                                        payload.labels, OrDefault(payload.page, 1), OrDefault(payload.perPage, 30));
      && (missing.Some? ==> o == Raised(missing.value))
      && (missing.None? && listed.Err? ==> o == Raised(listed.error))
      && (missing.None? && listed.Ok? ==> o == ReturnedRaw(Summary(listed.value)))
  {
    var state := StateFilter(payload.state);
    if !IsKnownState(state) then Raised(Exc(ToolExecutionError, InvalidStateMessage))
    else match GitHub.EnsureRepository(adapter, net, payload.owner, payload.repo)
      case Some(e) => Raised(e)
      case None =>
        match GitHub.ListedIssues(adapter, net, payload.owner, payload.repo, state,
                                  payload.labels, OrDefault(payload.page, 1), OrDefault(payload.perPage, 30))
        case Err(e) => Raised(e)
        case Ok(issues) => ReturnedRaw(Summary(issues))
  }

  /**
    `GitHubIssuesOutput.model_validate(raw).model_dump()`: issues default to
    [] and must be dicts, repository_exists defaults to True, total_count to
    None.
  */
  function ValidateOutput(raw: Value): (r: Result<Assoc<Value>, string>)
    ensures !raw.Dict? ==> r.Err?
    ensures r.Ok? ==> Keys(r.value) == ["issues", "repository_exists", "total_count"]
    ensures r.Ok? && !HasKey(raw.entries, "repository_exists") ==> Get(r.value, "repository_exists") == Some(Bool(true))
    ensures r.Ok? && !HasKey(raw.entries, "total_count") ==> Get(r.value, "total_count") == Some(Null)
  {
    if !raw.Dict? then Err("Input should be a valid dictionary or instance of GitHubIssuesOutput")
    else
      var data := raw.entries;
      var issuesValue :- Fields.Field(data, "issues", Some(List([])));
      var issues :- Fields.AsDictList("issues", issuesValue);
      var existsValue :- Fields.Field(data, "repository_exists", Some(Bool(true)));
      var repositoryExists :- Fields.AsBool("repository_exists", existsValue);
      var total :- Fields.OptIntField(data, "total_count", None);
      Ok(Cons("issues", List(issues),
         Cons("repository_exists", Bool(repositoryExists),
         Cons("total_count", if total.Some? then Int(total.value) else Null, []))))
  }

  /** The handler's summary passes the output model unchanged. */
  lemma {:induction false} SummaryValid(issues: seq<GitHub.Issue>)
    ensures ValidateOutput(Summary(issues)) == Ok(Summary(issues).entries)
  {
    var d := Summary(issues).entries;
    assert d == Cons("issues", List(seq(|issues|, i requires 0 <= i < |issues| => Dict(issues[i].ToDict()))),
                Cons("repository_exists", Bool(true), Cons("total_count", Int(|issues|), [])));
  }

  /** The validated input bound to the handler, as the spec's input model yields it. */
  function InputModel(adapter: GitHub.GitHubIssuesAdapter, net: Network): Assoc<Value> -> Result<BoundHandler, string> {
    (data: Assoc<Value>) =>
      match ValidateInput(data)
      case Err(m) => Err(m)
      case Ok(payload) => Ok((context: Option<Assoc<Value>>) => Handle(adapter, net, payload))
  }

  /** `build_tool`: validates the GitHub configuration and returns the `github_issues` spec. */
  function BuildTool(net: Network, rawConfig: Assoc<Value>): (r: Result<ToolSpec, Exc>)
    ensures r.Err? <==> GitHub.ValidateConfig(rawConfig).Err?
    ensures r.Err? ==> r.error.cls == ValidationError
    ensures r.Ok? ==> r.value.name == "github_issues" && r.value.description == Description
  {
    var config :- GitHub.ValidateConfig(rawConfig);
    var adapter := GitHub.NewAdapter(config);
    Ok(ToolSpec(ToolName, Description, InputModel(adapter, net), ValidateOutput))
  }

  /** The built tool runs the handler on the validated input, with the adapter of the validated configuration. */
  lemma {:induction false} BuiltHandler(net: Network, rawConfig: Assoc<Value>, request: ToolInvocationRequest)
    requires BuildTool(net, rawConfig).Ok?
    requires ValidateInput(request.input).Ok?
    ensures var spec := BuildTool(net, rawConfig).value;
      && spec.inputModel(request.input).Ok?
      && spec.inputModel(request.input).value(request.context)
         == Handle(GitHub.NewAdapter(GitHub.ValidateConfig(rawConfig).value), net, ValidateInput(request.input).value)
      && spec.outputModel == ValidateOutput
  {
  }

  /** An unknown state fails the invocation with the state message, whatever the network would answer. */
  lemma {:induction false} UnknownStateRefused(net: Network, rawConfig: Assoc<Value>, request: ToolInvocationRequest)
    requires BuildTool(net, rawConfig).Ok?
    requires ValidateInput(request.input).Ok?
    requires !IsKnownState(StateFilter(ValidateInput(request.input).value.state))
    ensures Invoke(BuildTool(net, rawConfig).value, request) == Ok(ToolInvocationResponse(false, [], Some(InvalidStateMessage)))
  {
    var adapter := GitHub.NewAdapter(GitHub.ValidateConfig(rawConfig).value);
    BuiltHandler(net, rawConfig, request);
    assert Handle(adapter, net, ValidateInput(request.input).value) == Raised(Exc(ToolExecutionError, InvalidStateMessage));
    InvokeRaised(BuildTool(net, rawConfig).value, request, Exc(ToolExecutionError, InvalidStateMessage));
  }

  /** A successful listing is returned as it is, with total_count the number of issues. */
  lemma {:induction false} ListingReturned(net: Network, rawConfig: Assoc<Value>, request: ToolInvocationRequest, issues: seq<GitHub.Issue>)
    requires BuildTool(net, rawConfig).Ok?
    requires ValidateInput(request.input).Ok?
    requires Handle(GitHub.NewAdapter(GitHub.ValidateConfig(rawConfig).value), net, ValidateInput(request.input).value)
             == ReturnedRaw(Summary(issues))
    ensures var r := Invoke(BuildTool(net, rawConfig).value, request);
      && r == Ok(ToolInvocationResponse(true, Summary(issues).entries, None))
      && Get(r.value.output, "total_count") == Some(Int(|issues|))
  {
    BuiltHandler(net, rawConfig, request);
    SummaryValid(issues);
  }

  /**
    A repository the service answers with 404 fails the invocation with a
    message naming owner and repository, whatever the issues query would
    have answered.
  */
  lemma {:induction false} MissingRepositoryReported(net: Network, rawConfig: Assoc<Value>, request: ToolInvocationRequest)
    requires BuildTool(net, rawConfig).Ok?
    requires ValidateInput(request.input).Ok?
    requires var payload := ValidateInput(request.input).value;
      var adapter := GitHub.NewAdapter(GitHub.ValidateConfig(rawConfig).value);
      var a := net(adapter.client, GitHub.RepositoryCall(payload.owner, payload.repo))(0);
      IsKnownState(StateFilter(payload.state)) && a.Received? && a.status == 404
    ensures var payload := ValidateInput(request.input).value;
      Invoke(BuildTool(net, rawConfig).value, request)
        == Ok(ToolInvocationResponse(false, [], Some(GitHub.NotFoundMessage(payload.owner, payload.repo))))
  {
    var payload := ValidateInput(request.input).value;
    var adapter := GitHub.NewAdapter(GitHub.ValidateConfig(rawConfig).value);
    var e := Exc(ToolExecutionError, GitHub.NotFoundMessage(payload.owner, payload.repo));
    GitHub.NotFoundReported(adapter, net, payload.owner, payload.repo);
    BuiltHandler(net, rawConfig, request);
    assert Handle(adapter, net, payload) == Raised(e);
    InvokeRaised(BuildTool(net, rawConfig).value, request, e);
  }
}
