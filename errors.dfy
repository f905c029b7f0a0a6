/**
  The exceptions the hub raises and catches (`utils/errors.py`, plus the
  built-in classes the code relies on), and the error payload record.
  An exception is its class and the text `str(exc)` gives; `except C` catches
  exactly the exceptions whose class `IsA` C.
*/
module Errors {
  import opened Wrappers
  import opened Dicts
  import opened Values
  import opened Schemas

  datatype ExcClass =
    | BaseException
    | Exception
    | AIHubError
    | ConfigurationError
    | ToolExecutionError
    | ValueError
    | ValidationError     // pydantic's, a ValueError
    | TypeError
    | KeyError
    | IndexError
    | AttributeError
    | RuntimeError
    | CancelledError      // asyncio's, a BaseException but not an Exception

  /** The direct base class of each class. */
  function Parent(c: ExcClass): Option<ExcClass> {
    match c
    case BaseException => None
    case Exception => Some(BaseException)
    case CancelledError => Some(BaseException)
    case AIHubError => Some(Exception)
    case ConfigurationError => Some(AIHubError)
    case ToolExecutionError => Some(AIHubError)
    case ValueError => Some(Exception)
    case ValidationError => Some(ValueError)
    case TypeError => Some(Exception)
    case KeyError => Some(Exception)
    case IndexError => Some(Exception)
    case AttributeError => Some(Exception)
    case RuntimeError => Some(Exception)
  }

  /** Distance from BaseException. */
  function Depth(c: ExcClass): nat {
    match c
    case BaseException => 0
    case Exception => 1
    case CancelledError => 1
    case AIHubError => 2
    case ValueError => 2
    case TypeError => 2
    case KeyError => 2
    case IndexError => 2
    case AttributeError => 2
    case RuntimeError => 2
    case ConfigurationError => 3
    case ToolExecutionError => 3
    case ValidationError => 3
  }

  /** `issubclass(c, ancestor)` */
  predicate IsA(c: ExcClass, ancestor: ExcClass)
    decreases Depth(c)
  {
    c == ancestor || (Parent(c).Some? && IsA(Parent(c).value, ancestor))
  }

  /** A raised exception: its class and `str(exc)`. */
  datatype Exc = Exc(cls: ExcClass, message: string)

  /**
    Both hub errors are AIHubErrors; neither is the other, and no built-in
    error is a ToolExecutionError, so `except ToolExecutionError` lets every
    other error through. CancelledError is not an Exception.
  */
  lemma Taxonomy()
    ensures IsA(ConfigurationError, AIHubError) && IsA(ToolExecutionError, AIHubError)
    ensures !IsA(ConfigurationError, ToolExecutionError) && !IsA(ToolExecutionError, ConfigurationError)
    ensures forall c :: IsA(c, ToolExecutionError) <==> c == ToolExecutionError
    ensures forall c :: IsA(c, Exception) <==> c != BaseException && c != CancelledError
  {
  }

  datatype ToolErrorPayload = ToolErrorPayload(
    message: string,
    code: Option<string>,
    details: Option<Assoc<Value>>)

  /** `ToolErrorPayload(message=m)`: code and details default to None. */
  function NewToolErrorPayload(message: string): (p: ToolErrorPayload)
    ensures p.message == message && p.code == None && p.details == None
  {
    ToolErrorPayload(message, None, None)
  }

  /** `to_error_detail` carries message, code and details over unchanged. */
  function ToErrorDetail(p: ToolErrorPayload): (d: ErrorDetail)
    ensures d.message == p.message && d.code == p.code && d.details == p.details
  {
    ErrorDetail(p.message, p.code, p.details)
  }
}
