/**
  Loading the configured tools into the server (`server/tool_loader.py`).
  The importable tool modules are given as a table from module name to what
  the module holds under `build_tool`.
*/
module ToolLoader {
  import opened Wrappers
  import opened Dicts
  import opened Values
  import opened Errors
  import opened Tooling
  import opened AppSettings
  import opened Server

  /** A tool factory: builds the spec from the tool's config, or raises. */
  type ToolFactory = Assoc<Value> -> Result<ToolSpec, Exc>

  /** What a module holds under the name `build_tool`. */
  datatype Attr = Callable(factory: ToolFactory) | NotCallable

  datatype ToolModule = ToolModule(buildTool: Option<Attr>)

  /** The importable modules, by dotted name. */
  type Modules = map<string, ToolModule>

  function ModuleName(toolName: string): (m: string)
    ensures |m| == 23 + |toolName| && m[..23] == "ai_assistant_hub.tools." && m[23..] == toolName
  {
    "ai_assistant_hub.tools." + toolName
  }

  /** `_import_tool_factory`: the module's callable `build_tool`, or a ConfigurationError saying what is wrong. */
  function ImportToolFactory(modules: Modules, toolName: string): (r: Result<ToolFactory, Exc>)
    ensures ModuleName(toolName) !in modules ==>
      r == Err(Exc(ConfigurationError, "Tool module not found: " + ModuleName(toolName)))
    ensures ModuleName(toolName) in modules && modules[ModuleName(toolName)].buildTool.None? ==>
      r == Err(Exc(ConfigurationError, "Tool module " + ModuleName(toolName) + " missing build_tool"))
    ensures ModuleName(toolName) in modules && modules[ModuleName(toolName)].buildTool == Some(NotCallable) ==>
      r == Err(Exc(ConfigurationError, "Tool module " + ModuleName(toolName) + " build_tool is not callable"))
    ensures r.Ok? <==> ModuleName(toolName) in modules && modules[ModuleName(toolName)].buildTool.Some?
                       && modules[ModuleName(toolName)].buildTool.value.Callable?
    ensures r.Ok? ==> r.value == modules[ModuleName(toolName)].buildTool.value.factory
  {
    var moduleName := ModuleName(toolName);
    if moduleName !in modules then Err(Exc(ConfigurationError, "Tool module not found: " + moduleName))
    else match modules[moduleName].buildTool
      case None => Err(Exc(ConfigurationError, "Tool module " + moduleName + " missing build_tool"))
      case Some(NotCallable) => Err(Exc(ConfigurationError, "Tool module " + moduleName + " build_tool is not callable"))
      case Some(Callable(factory)) => Ok(factory)
  }

  /** The spec an enabled tool contributes: its factory applied to its config. */
  function BuildSpec(modules: Modules, toolName: string, toggle: ToolToggle): Result<ToolSpec, Exc> {
    match ImportToolFactory(modules, toolName)
    case Err(e) => Err(e)
    case Ok(factory) => factory(toggle.config)
  }

  /**
    The catalog, the host's bound tools and the error after loading the
    toggles in order: disabled tools are skipped, and the first error stops.
  */
  function LoadFrom(tools: Assoc<ToolSpec>, hostTools: seq<string>, bind: ToolSpec -> Option<Exc>,
                    modules: Modules, toggles: Assoc<ToolToggle>): (Assoc<ToolSpec>, seq<string>, Option<Exc>)
    decreases |toggles|
  {
    if toggles == [] then (tools, hostTools, None)
    else if !toggles[0].1.enabled then LoadFrom(tools, hostTools, bind, modules, toggles[1..])
    else match BuildSpec(modules, toggles[0].0, toggles[0].1)
      case Err(e) => (tools, hostTools, Some(e))
      case Ok(spec) =>
        var (t, h, err) := RegisterStep(tools, hostTools, bind, spec);
        if err.Some? then (t, h, err) else LoadFrom(t, h, bind, modules, toggles[1..])
  }

  /** `load_tools`: registers every enabled tool of `settings`, in order, into the server. */
  method LoadTools(server: AIHubMCPServer, settings: Settings, modules: Modules) returns (err: Option<Exc>)
    requires server.Valid()
    modifies server, server.catalog
    ensures server.Valid()
    ensures (server.catalog.tools, server.hostTools, err)
         == LoadFrom(old(server.catalog.tools), old(server.hostTools), server.bind, modules, settings.enabledTools)
  {
    var toggles := settings.enabledTools;
    var i := 0;
    while i < |toggles|
      invariant 0 <= i <= |toggles|
      invariant server.Valid()
      invariant LoadFrom(server.catalog.tools, server.hostTools, server.bind, modules, toggles[i..])
             == LoadFrom(old(server.catalog.tools), old(server.hostTools), server.bind, modules, toggles)
    {
      var (toolName, toggle) := toggles[i];
      assert toggles[i..][0] == toggles[i] && toggles[i..][1..] == toggles[i + 1..];
      if !toggle.enabled {
        i := i + 1;
        continue;
      }
      var factory := ImportToolFactory(modules, toolName);
      if factory.Err? {
        return Some(factory.error);
      }
      var spec := factory.value(toggle.config);
      if spec.Err? {
        return Some(spec.error);
      }
      err := server.RegisterTool(spec.value);
      if err.Some? {
        return;
      }
      i := i + 1;
    }
    err := None;
  }

  /** The enabled toggles, in order. */
  function Enabled(toggles: Assoc<ToolToggle>): (r: Assoc<ToolToggle>)
    ensures forall i :: 0 <= i < |r| ==> r[i].1.enabled
  {
    if toggles == [] then []
    else (if toggles[0].1.enabled then [toggles[0]] else []) + Enabled(toggles[1..])
  }

  /** A disabled tool is never imported or registered: loading only the enabled toggles changes nothing. */
  lemma {:induction false} DisabledSkipped(tools: Assoc<ToolSpec>, hostTools: seq<string>, bind: ToolSpec -> Option<Exc>,
                                           modules: Modules, toggles: Assoc<ToolToggle>)
    ensures LoadFrom(tools, hostTools, bind, modules, toggles) == LoadFrom(tools, hostTools, bind, modules, Enabled(toggles))
    decreases |toggles|
  {
    if toggles != [] {
      var rest := Enabled(toggles[1..]);
      if !toggles[0].1.enabled {
        DisabledSkipped(tools, hostTools, bind, modules, toggles[1..]);
        assert Enabled(toggles) == rest;
      } else {
        assert Enabled(toggles) == [toggles[0]] + rest;
        assert ([toggles[0]] + rest)[1..] == rest;
        match BuildSpec(modules, toggles[0].0, toggles[0].1)
        case Err(_) =>
        case Ok(spec) =>
          var (t, h, err) := RegisterStep(tools, hostTools, bind, spec);
          DisabledSkipped(t, h, bind, modules, toggles[1..]);
      }
    }
  }

  /** Loading `a + b` is loading `a`, then, unless that raised, loading `b`: the first error stops the rest. */
  lemma {:induction false} LoadAppend(tools: Assoc<ToolSpec>, hostTools: seq<string>, bind: ToolSpec -> Option<Exc>,
                                      modules: Modules, a: Assoc<ToolToggle>, b: Assoc<ToolToggle>)
    ensures var (t, h, err) := LoadFrom(tools, hostTools, bind, modules, a);
      LoadFrom(tools, hostTools, bind, modules, a + b) ==
        if err.Some? then (t, h, err) else LoadFrom(t, h, bind, modules, b)
    decreases |a|
  {
    if a == [] {
      assert a + b == b;
    } else {
      assert (a + b)[0] == a[0] && (a + b)[1..] == a[1..] + b;
      if !a[0].1.enabled {
        LoadAppend(tools, hostTools, bind, modules, a[1..], b);
      } else {
        match BuildSpec(modules, a[0].0, a[0].1)
        case Err(_) =>
        case Ok(spec) =>
          var (t, h, err) := RegisterStep(tools, hostTools, bind, spec);
          LoadAppend(t, h, bind, modules, a[1..], b);
      }
    }
  }

  /**
    A load that raises nothing keeps every tool registered before, and
    registers, for each enabled tool, the spec its factory built from its
    config, filed under that spec's name.
  */
  lemma {:induction false} LoadRegistersEach(tools: Assoc<ToolSpec>, hostTools: seq<string>, bind: ToolSpec -> Option<Exc>,
                                             modules: Modules, toggles: Assoc<ToolToggle>)
    requires LoadFrom(tools, hostTools, bind, modules, toggles).2.None?
    ensures var r := LoadFrom(tools, hostTools, bind, modules, toggles).0;
      && tools <= r
      && forall i :: 0 <= i < |toggles| && toggles[i].1.enabled ==>
           && BuildSpec(modules, toggles[i].0, toggles[i].1).Ok?
           && (BuildSpec(modules, toggles[i].0, toggles[i].1).value.name,
               BuildSpec(modules, toggles[i].0, toggles[i].1).value) in r
    decreases |toggles|
  {
    if toggles != [] {
      var r := LoadFrom(tools, hostTools, bind, modules, toggles).0;
      if !toggles[0].1.enabled {
        LoadRegistersEach(tools, hostTools, bind, modules, toggles[1..]);
        forall i | 0 < i < |toggles| ensures toggles[1..][i - 1] == toggles[i] { }
      } else {
        var spec := BuildSpec(modules, toggles[0].0, toggles[0].1).value;
        var (t, h, err) := RegisterStep(tools, hostTools, bind, spec);
        LoadRegistersEach(t, h, bind, modules, toggles[1..]);
        assert t == tools + [(spec.name, spec)];
        assert t[|tools|] == (spec.name, spec);
        forall i | 0 < i < |toggles| ensures toggles[1..][i - 1] == toggles[i] { }
      }
    }
  }
}
