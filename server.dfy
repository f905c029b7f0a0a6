/**
  The hub's server wrapper (`server/mcp_server.py`): it owns a tool catalog
  and binds each registered tool to the host MCP server. Binding is a call
  into the host library, given here as the parameter `bind`, which says
  whether binding a spec raises; the names bound so far are `hostTools`.
*/
module Server {
  import opened Wrappers
  import opened Dicts
  import opened Errors
  import opened Schemas
  import opened Tooling
  import opened AppSettings

  /** The dict `metadata()` returns. */
  datatype ServerMetadata = ServerMetadata(appName: string, toolCount: nat)

  /**
    What `register_tool` does to the catalog and the host: registration in the
    catalog comes first, so a duplicate fails before any binding; a binding
    that fails leaves the spec in the catalog.
  */
  function RegisterStep(tools: Assoc<ToolSpec>, hostTools: seq<string>, bind: ToolSpec -> Option<Exc>, spec: ToolSpec)
    : (r: (Assoc<ToolSpec>, seq<string>, Option<Exc>))
    ensures HasKey(tools, spec.name) ==>
      r.0 == tools && r.1 == hostTools && r.2 == Some(Exc(ValueError, "Tool already registered: " + spec.name))
    ensures !HasKey(tools, spec.name) ==> r.0 == tools + [(spec.name, spec)] && r.2 == bind(spec)
    ensures !HasKey(tools, spec.name) && bind(spec).None? ==> r.1 == hostTools + [spec.name]
    ensures bind(spec).Some? ==> r.1 == hostTools
  {
    if HasKey(tools, spec.name) then (tools, hostTools, Some(Exc(ValueError, "Tool already registered: " + spec.name)))
    else
      match bind(spec)
      case Some(e) => (tools + [(spec.name, spec)], hostTools, Some(e))
      case None => (tools + [(spec.name, spec)], hostTools + [spec.name], None)
  }

  class AIHubMCPServer {
    const settings: Settings
    /** The host server's own `name` attribute, when it has one. */
    const hostName: Option<string>
    /** Whether `spec.bind_to_server(host)` raises, and what. */
    const bind: ToolSpec -> Option<Exc>
    const catalog: ToolCatalog
    /** The names of the tools bound to the host, in binding order. */
    var hostTools: seq<string>

    ghost predicate Valid()
      reads this, catalog
    {
      catalog.Valid()
    }

    constructor(settings: Settings, hostName: Option<string>, bind: ToolSpec -> Option<Exc>)
      ensures Valid() && fresh(catalog)
      ensures this.settings == settings && this.hostName == hostName && this.bind == bind
      ensures catalog.tools == [] && hostTools == []
    {
      this.settings := settings;
      this.hostName := hostName;
      this.bind := bind;
      this.catalog := new ToolCatalog();
      this.hostTools := [];
    }

    /** `register_tool`: registers the spec in the catalog, then binds it to the host. */
    method RegisterTool(spec: ToolSpec) returns (err: Option<Exc>)
      requires Valid()
      modifies this, catalog
      ensures Valid()
      ensures (catalog.tools, hostTools, err) == RegisterStep(old(catalog.tools), old(hostTools), bind, spec)
    {
      err := catalog.Register(spec);
      if err.Some? {
        return;
      }
      err := bind(spec);
      if err.None? {
        hostTools := hostTools + [spec.name];
      }
    }

    /** `invoke`: an unknown tool raises ToolExecutionError; a known one answers with its spec's invoke. */
    function Invoke(request: ToolInvocationRequest): (r: Result<ToolInvocationResponse, Exc>)
      requires Valid()
      reads this, catalog
      ensures !HasKey(catalog.tools, request.tool) ==> r == Err(Exc(ToolExecutionError, "Unknown tool: " + request.tool))
      ensures HasKey(catalog.tools, request.tool) ==>
        exists i :: 0 <= i < |catalog.tools| && catalog.tools[i].0 == request.tool
                    && r == Tooling.Invoke(catalog.tools[i].1, request)
    {
      var spec := catalog.Get(request.tool);
      if spec.None? then Err(Exc(ToolExecutionError, "Unknown tool: " + request.tool))
      else Tooling.Invoke(spec.value, request)
    }

    /** `list_tools`: the catalog's list. */
    function ListTools(): (specs: seq<ToolSpec>)
      requires Valid()
      reads this, catalog
      ensures specs == catalog.List()
      ensures |specs| == |catalog.tools|
    {
      catalog.List()
    }

    /** `metadata`: the host's name (the configured app name when it has none) and the number of tools. */
    function Metadata(): (m: ServerMetadata)
      reads this, catalog
      ensures m.toolCount == |catalog.tools|
      ensures hostName.Some? ==> m.appName == hostName.value
      ensures hostName.None? ==> m.appName == settings.appName
    {
      ServerMetadata(hostName.GetOr(settings.appName), |catalog.tools|)
    }
  }
}
