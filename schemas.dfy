/**
  The records of the direct invocation interface (`schemas/base.py`):
  `{"tool", "input", "context"}` in, `{"ok", "output", "error"}` out, and the
  structured error detail. Each `New...` function is the record built with
  only its required fields, the others taking their declared defaults.
*/
module Schemas {
  import opened Wrappers
  import opened Dicts
  import opened Values

  datatype ToolInvocationRequest = ToolInvocationRequest(
    tool: string,
    input: Assoc<Value>,
    context: Option<Assoc<Value>>)

  /** `ToolInvocationRequest(tool=name)`: input defaults to {}, context to None. */
  function NewRequest(tool: string): (r: ToolInvocationRequest)
    ensures r.tool == tool && r.input == [] && r.context == None
  {
    ToolInvocationRequest(tool, [], None)
  }

  datatype ToolInvocationResponse = ToolInvocationResponse(
    ok: bool,
    output: Assoc<Value>,
    error: Option<string>)

  /** `ToolInvocationResponse(ok=ok)`: output defaults to {}, error to None. */
  function NewResponse(ok: bool): (r: ToolInvocationResponse)
    ensures r.ok == ok && r.output == [] && r.error == None
  {
    ToolInvocationResponse(ok, [], None)
  }

  datatype ErrorDetail = ErrorDetail(
    message: string,
    code: Option<string>,
    details: Option<Assoc<Value>>)

  /** `ErrorDetail(message=m)`: code and details default to None. */
  function NewErrorDetail(message: string): (r: ErrorDetail)
    ensures r.message == message && r.code == None && r.details == None
  {
    ErrorDetail(message, None, None)
  }
}
