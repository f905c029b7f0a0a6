/**
  Tool specifications, their invocation envelope, the normalisation of the
  call shapes an MCP host uses, and the catalog of registered tools
  (`mcp/tooling.py`).

  Validation against a tool's pydantic input model is a parameter of the
  spec: `inputModel` either rejects the input (with pydantic's message) or
  yields the tool's handler applied to the validated model, awaiting only the
  context. Validation against the output model likewise either rejects the
  raw output or yields the model's `model_dump()`.
*/
module Tooling {
  import opened Wrappers
  import opened Dicts
  import opened Values
  import opened Errors
  import opened Schemas
  import opened PyOps

  /** How an awaited handler ends: returning a pydantic model, returning any other value, or raising. */
  datatype HandlerOutcome =
    | ReturnedModel(dump: Assoc<Value>)
    | ReturnedRaw(raw: Value)
    | Raised(exc: Exc)

  /** A handler bound to its validated input, awaiting the request context. */
  type BoundHandler = Option<Assoc<Value>> -> HandlerOutcome

  datatype ToolSpec = ToolSpec(
    name: string,
    description: string,
    inputModel: Assoc<Value> -> Result<BoundHandler, string>,
    outputModel: Value -> Result<Assoc<Value>, string>)

  /**
    `ToolSpec.invoke`: validates the input (a failure propagates as a
    ValidationError), runs the handler, turns a ToolExecutionError into a
    failed response, wraps any other Exception into a ToolExecutionError with
    the same text, lets an exception that is not an Exception through, and
    validates a raw result against the output model.
  */
  function Invoke(spec: ToolSpec, request: ToolInvocationRequest): (r: Result<ToolInvocationResponse, Exc>)
    ensures spec.inputModel(request.input).Err? ==>
      r == Err(Exc(ValidationError, spec.inputModel(request.input).error))
    ensures spec.inputModel(request.input).Ok? ==>
      var outcome := spec.inputModel(request.input).value(request.context);
      && (outcome.ReturnedModel? ==> r == Ok(ToolInvocationResponse(true, outcome.dump, None)))
      && (outcome.ReturnedRaw? ==>
            r == match spec.outputModel(outcome.raw)
                 case Ok(dump) => Ok(ToolInvocationResponse(true, dump, None))
                 case Err(m) => Err(Exc(ValidationError, m)))
      && (outcome.Raised? && IsA(outcome.exc.cls, ToolExecutionError) ==>
            r == Ok(ToolInvocationResponse(false, [], Some(outcome.exc.message))))
      && (outcome.Raised? && !IsA(outcome.exc.cls, ToolExecutionError) && IsA(outcome.exc.cls, Exception) ==>
            r == Err(Exc(ToolExecutionError, outcome.exc.message)))
      && (outcome.Raised? && !IsA(outcome.exc.cls, Exception) ==> r == Err(outcome.exc))
    ensures r.Ok? && !r.value.ok ==> r.value.output == [] && r.value.error.Some?
    ensures r.Ok? && r.value.ok ==> r.value.error == None
  {
    match spec.inputModel(request.input)
    case Err(m) => Err(Exc(ValidationError, m))
    case Ok(handler) =>
      match handler(request.context)
      case Raised(e) =>
        if IsA(e.cls, ToolExecutionError) then Ok(ToolInvocationResponse(false, [], Some(e.message)))
        else if IsA(e.cls, Exception) then Err(Exc(ToolExecutionError, e.message))
        else Err(e)
      case ReturnedModel(dump) => Ok(ToolInvocationResponse(true, dump, None))
      case ReturnedRaw(raw) =>
        match spec.outputModel(raw)
        case Ok(dump) => Ok(ToolInvocationResponse(true, dump, None))
        case Err(m) => Err(Exc(ValidationError, m))
  }

  /** Whatever invoke raises is a ValidationError, a ToolExecutionError, or an exception that is not an Exception. */
  lemma {:induction false} InvokeRaises(spec: ToolSpec, request: ToolInvocationRequest)
    ensures var r := Invoke(spec, request);
      r.Err? ==> r.error.cls == ValidationError || r.error.cls == ToolExecutionError || !IsA(r.error.cls, Exception)
  {
  }

  /**
    A handler that raises: a ToolExecutionError becomes a failed response
    with its message, any other Exception a ToolExecutionError with the same
    text.
  */
  lemma {:induction false} InvokeRaised(spec: ToolSpec, request: ToolInvocationRequest, e: Exc)
    requires spec.inputModel(request.input).Ok? && spec.inputModel(request.input).value(request.context) == Raised(e)
    ensures e.cls == ToolExecutionError ==> Invoke(spec, request) == Ok(ToolInvocationResponse(false, [], Some(e.message)))
    ensures e.cls != ToolExecutionError && e.cls != BaseException && e.cls != CancelledError ==>
      Invoke(spec, request) == Err(Exc(ToolExecutionError, e.message))
  {
    Taxonomy();
  }

  /** An argument a host passes: a plain Python value (`Obj(Null)` is None) or a pydantic model. */
  datatype PyObj = Obj(v: Value) | Model(dump: Assoc<Value>)

  predicate IsNone(o: PyObj) {
    o == Obj(Null)
  }

  predicate IsDict(o: PyObj) {
    o.Obj? && o.v.Dict?
  }

  /**
    The final normalisation of the selected arguments to a mapping: None gives
    {}, a dict itself, a model its dump, anything else `dict(x)`, or
    `{"value": x}` when `dict(x)` raises.
  */
  function Normalize(arguments: PyObj): (m: Assoc<Value>)
    ensures IsNone(arguments) ==> m == []
    ensures IsDict(arguments) ==> m == arguments.v.entries
    ensures arguments.Model? ==> m == arguments.dump
    ensures arguments.Obj? && !arguments.v.Null? && !arguments.v.Dict? ==>
      m == match DictFrom(arguments.v) case Ok(d) => d case Err(_) => [("value", arguments.v)]
  {
    match arguments
    case Model(dump) => dump
    case Obj(Null) => []
    case Obj(Dict(entries)) => entries
    case Obj(v) =>
      match DictFrom(v)
      case Ok(d) => d
      case Err(_) => [("value", v)]
  }

  /** The arguments named by keyword: `arguments`, else `input`, else `params`, else None. */
  function KeywordArguments(kwargs: Assoc<PyObj>): (a: PyObj)
    ensures HasKey(kwargs, "arguments") ==> a == Get(kwargs, "arguments").value
    ensures !HasKey(kwargs, "arguments") && HasKey(kwargs, "input") ==> a == Get(kwargs, "input").value
    ensures !HasKey(kwargs, "arguments") && !HasKey(kwargs, "input") && HasKey(kwargs, "params") ==>
      a == Get(kwargs, "params").value
    ensures !HasKey(kwargs, "arguments") && !HasKey(kwargs, "input") && !HasKey(kwargs, "params") ==> IsNone(a)
  {
    if HasKey(kwargs, "arguments") then GetOr(kwargs, "arguments", Obj(Null))
    else if HasKey(kwargs, "input") then GetOr(kwargs, "input", Obj(Null))
    else if HasKey(kwargs, "params") then GetOr(kwargs, "params", Obj(Null))
    else Obj(Null)
  }

  /**
    `_extract_invocation_payload`: the (arguments, context) pair a handler
    receives, from positional and keyword arguments of a host call.
    Positional arguments are consulted only when no keyword gave arguments.
  */
  function ExtractPayload(args: seq<PyObj>, kwargs: Assoc<PyObj>): (r: (Assoc<Value>, PyObj))
    // Keyword arguments win whenever they are not None.
    ensures !IsNone(KeywordArguments(kwargs)) ==>
      r == (Normalize(KeywordArguments(kwargs)), GetOr(kwargs, "context", Obj(Null)))
    // Nothing given at all: an empty mapping and no context.
    ensures IsNone(KeywordArguments(kwargs)) && args == [] ==>
      r == ([], GetOr(kwargs, "context", Obj(Null)))
    // A dict first: it is the arguments, and a second positional is the context.
    ensures IsNone(KeywordArguments(kwargs)) && args != [] && IsDict(args[0]) ==>
      r.0 == args[0].v.entries &&
      r.1 == (if |args| > 1 then args[1] else GetOr(kwargs, "context", Obj(Null)))
    // Anything else first: it is the context, and a second positional gives the arguments.
    ensures IsNone(KeywordArguments(kwargs)) && args != [] && !IsDict(args[0]) ==>
      r == (if |args| > 1 then Normalize(args[1]) else [], args[0])
  {
    var context := if HasKey(kwargs, "context") then GetOr(kwargs, "context", Obj(Null)) else Obj(Null);
    var arguments := KeywordArguments(kwargs);
    var (arguments, context) :=
      if IsNone(arguments) && |args| > 0 then
        if IsDict(args[0]) then
          (args[0], if |args| > 1 then args[1] else context)
        else
          (if |args| > 1 then
             (if IsDict(args[1]) then args[1]
              else if args[1].Model? then Obj(Dict(args[1].dump))
              else args[1])
           else arguments,
           args[0])
      else (arguments, context);
    (Normalize(arguments), context)
  }

  /** The registered tools, by name, in registration order. */
  class ToolCatalog {
    var tools: Assoc<ToolSpec>

    /** Each spec is filed under its own name, and no name twice. */
    ghost predicate Valid()
      reads this
    {
      && DistinctKeys(tools)
      && forall i :: 0 <= i < |tools| ==> tools[i].1.name == tools[i].0
    }

    constructor()
      ensures tools == [] && Valid()
    {
      tools := [];
    }

    /**
      `register`: a name already present raises ValueError and changes nothing;
      a new name is added after all the others.
    */
    method Register(spec: ToolSpec) returns (err: Option<Exc>)
      requires Valid()
      modifies this
      ensures Valid()
      ensures HasKey(old(tools), spec.name) ==>
        err == Some(Exc(ValueError, "Tool already registered: " + spec.name)) && tools == old(tools)
      ensures !HasKey(old(tools), spec.name) ==> err == None && tools == old(tools) + [(spec.name, spec)]
    {
      if HasKey(tools, spec.name) {
        return Some(Exc(ValueError, "Tool already registered: " + spec.name));
      }
      AppendFresh(tools, spec.name, spec);
      tools := tools + [(spec.name, spec)];
      err := None;
    }

    /** `get`: the spec registered under `name`, if any. */
    function Get(name: string): (r: Option<ToolSpec>)
      requires Valid()
      reads this
      ensures r.None? <==> !HasKey(tools, name)
      ensures r.Some? ==> r.value.name == name && exists i :: 0 <= i < |tools| && tools[i] == (name, r.value)
    {
      var r := Dicts.Get(tools, name);
      if r.Some? then GetSome(tools, name); r else r
    }

    /** `list`: every registered spec once, in registration order. */
    function List(): (specs: seq<ToolSpec>)
      requires Valid()
      reads this
      ensures |specs| == |tools|
      ensures forall i :: 0 <= i < |specs| ==> specs[i] == tools[i].1 && specs[i].name == tools[i].0
    {
      Dicts.Values(tools)
    }
  }

  /** Appending a fresh key keeps the catalog's invariant. */
  lemma {:induction false} AppendFresh(tools: Assoc<ToolSpec>, name: string, spec: ToolSpec)
    requires DistinctKeys(tools) && !HasKey(tools, name)
    ensures DistinctKeys(tools + [(name, spec)])
  {
    forall i | 0 <= i < |tools| ensures tools[i].0 != name {
      KeysAt(tools, i);
    }
  }
}
