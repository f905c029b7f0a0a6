/**
  Validation of one field of a pydantic model from a dict, in pydantic's lax
  mode: the coercions the tool configurations, tool inputs and tool outputs
  rely on. A field absent from the dict takes its default, or is an error
  when it has none; keys the model does not declare are ignored. Each error
  is the field's name and pydantic's reason.
*/
module Fields {
  import opened Wrappers
  import opened Dicts
  import opened Values
  import opened Errors
  import Text

  function Invalid<T>(key: string, reason: string): Result<T, string> {
    Err(key + ": " + reason)
  }

  /** A `str` value: only strings are accepted. */
  function AsStr(key: string, v: Value): (r: Result<string, string>)
    ensures r.Ok? <==> v.Str?
    ensures v.Str? ==> r.value == v.s
  {
    if v.Str? then Ok(v.s) else Invalid(key, "Input should be a valid string")
  }

  /** An `int` value: integers, booleans, floats without a fractional part and integer text. */
  function AsInt(key: string, v: Value): (r: Result<int, string>)
    ensures v.Int? ==> r == Ok(v.i)
    ensures v.Null? || v.List? || v.Dict? ==> r.Err?
    ensures v.Str? ==> (r.Ok? <==> Text.ParseInt(v.s).Some?)
  {
    match v
    case Int(i) => Ok(i)
    case Bool(b) => Ok(if b then 1 else 0)
    case Float(x) =>
      if x == x.Floor as real then Ok(x.Floor)
      else Invalid(key, "Input should be a valid integer, got a number with a fractional part")
    case Str(s) =>
      if Text.ParseInt(s).Some? then Ok(Text.ParseInt(s).value)
      else Invalid(key, "Input should be a valid integer, unable to parse string as an integer")
    case _ => Invalid(key, "Input should be a valid integer")
  }

  /** A `float` value: floats, integers, booleans and integer text. */
  function AsFloat(key: string, v: Value): (r: Result<real, string>)
    ensures v.Float? ==> r == Ok(v.r)
    ensures v.Int? ==> r == Ok(v.i as real)
    ensures v.Null? || v.List? || v.Dict? ==> r.Err?
  {
    match v
    case Float(x) => Ok(x)
    case Int(i) => Ok(i as real)
    case Bool(b) => Ok(if b then 1.0 else 0.0)
    case Str(s) =>
      if Text.ParseInt(s).Some? then Ok(Text.ParseInt(s).value as real)
      else Invalid(key, "Input should be a valid number, unable to parse string as a number")
    case _ => Invalid(key, "Input should be a valid number")
  }

  /** A `bool` value: booleans, the integers 0 and 1, and the usual words for yes and no. */
  function AsBool(key: string, v: Value): (r: Result<bool, string>)
    ensures v.Bool? ==> r == Ok(v.b)
    ensures v.Null? || v.List? || v.Dict? ==> r.Err?
  {
    match v
    case Bool(b) => Ok(b)
    case Int(i) =>
      if i == 0 || i == 1 then Ok(i == 1) else Invalid(key, "Input should be a valid boolean")
    case Str(s) =>
      var w := Text.Lower(s);
      if w in {"1", "on", "t", "true", "y", "yes"} then Ok(true)
      else if w in {"0", "off", "f", "false", "n", "no"} then Ok(false)
      else Invalid(key, "Input should be a valid boolean, unable to interpret input")
    case _ => Invalid(key, "Input should be a valid boolean")
  }

  /** A `List[str]` value. */
  function AsStrList(key: string, v: Value): (r: Result<seq<string>, string>)
    ensures r.Ok? <==> v.List? && forall i :: 0 <= i < |v.items| ==> v.items[i].Str?
    ensures r.Ok? ==> |r.value| == |v.items| && forall i :: 0 <= i < |v.items| ==> r.value[i] == v.items[i].s
  {
    if v.List? && forall i :: 0 <= i < |v.items| ==> v.items[i].Str? then
      Ok(seq(|v.items|, i requires 0 <= i < |v.items| => v.items[i].s))
    else Invalid(key, "Input should be a valid list of strings")
  }

  /** A `List[Dict[str, object]]` value: a list whose every element is a dict. */
  function AsDictList(key: string, v: Value): (r: Result<seq<Value>, string>)
    ensures r.Ok? <==> v.List? && forall i :: 0 <= i < |v.items| ==> v.items[i].Dict?
    ensures r.Ok? ==> r.value == v.items
  {
    if v.List? && forall i :: 0 <= i < |v.items| ==> v.items[i].Dict? then Ok(v.items)
    else Invalid(key, "Input should be a valid list of dictionaries")
  }

  /** A field of `data`, or its default when absent, or "Field required" when it has none. */
  function Field(data: Assoc<Value>, key: string, default: Option<Value>): (r: Result<Value, string>)
    ensures HasKey(data, key) ==> r == Ok(Get(data, key).value)
    ensures !HasKey(data, key) ==> (r.Ok? <==> default.Some?) && (r.Ok? ==> r.value == default.value)
  {
    match Get(data, key)
    case Some(v) => Ok(v)
    case None => if default.Some? then Ok(default.value) else Invalid(key, "Field required")
  }

  /** A `str` field. */
  function StrField(data: Assoc<Value>, key: string, default: Option<string>): (r: Result<string, string>)
    ensures !HasKey(data, key) ==> (r.Ok? <==> default.Some?) && (r.Ok? ==> r.value == default.value)
    ensures HasKey(data, key) ==> (r.Ok? <==> Get(data, key).value.Str?)
    ensures HasKey(data, key) && r.Ok? ==> r.value == Get(data, key).value.s
  {
    match Get(data, key)
    case Some(v) => AsStr(key, v)
    case None => if default.Some? then Ok(default.value) else Invalid(key, "Field required")
  }

  /** An `Optional[str]` field: None is accepted as None. */
  function OptStrField(data: Assoc<Value>, key: string, default: Option<string>): (r: Result<Option<string>, string>)
    ensures !HasKey(data, key) ==> r == Ok(default)
    ensures Get(data, key) == Some(Null) ==> r == Ok(None)
    ensures HasKey(data, key) && Get(data, key).value.Str? ==> r == Ok(Some(Get(data, key).value.s))
  {
    match Get(data, key)
    case None => Ok(default)
    case Some(v) =>
      if v.Null? then Ok(None)
      else var s :- AsStr(key, v); Ok(Some(s))
  }

  /** An `int` field. */
  function IntField(data: Assoc<Value>, key: string, default: int): (r: Result<int, string>)
    ensures !HasKey(data, key) ==> r == Ok(default)
    ensures HasKey(data, key) ==> r == AsInt(key, Get(data, key).value)
  {
    match Get(data, key)
    case None => Ok(default)
    case Some(v) => AsInt(key, v)
  }

  /** An `Optional[int]` field. */
  function OptIntField(data: Assoc<Value>, key: string, default: Option<int>): (r: Result<Option<int>, string>)
    ensures !HasKey(data, key) ==> r == Ok(default)
    ensures Get(data, key) == Some(Null) ==> r == Ok(None)
    ensures HasKey(data, key) && Get(data, key).value.Int? ==> r == Ok(Some(Get(data, key).value.i))
  {
    match Get(data, key)
    case None => Ok(default)
    case Some(v) =>
      if v.Null? then Ok(None)
      else var i :- AsInt(key, v); Ok(Some(i))
  }

  /** A `float` field. */
  function FloatField(data: Assoc<Value>, key: string, default: real): (r: Result<real, string>)
    ensures !HasKey(data, key) ==> r == Ok(default)
    ensures HasKey(data, key) ==> r == AsFloat(key, Get(data, key).value)
  {
    match Get(data, key)
    case None => Ok(default)
    case Some(v) => AsFloat(key, v)
  }

  /** An `Optional[List[str]]` field. */
  function OptStrListField(data: Assoc<Value>, key: string): (r: Result<Option<seq<string>>, string>)
    ensures !HasKey(data, key) || Get(data, key) == Some(Null) ==> r == Ok(None)
  {
    match Get(data, key)
    case None => Ok(None)
    case Some(v) =>
      if v.Null? then Ok(None)
      else var l :- AsStrList(key, v); Ok(Some(l))
  }

  /** A validation failure raised as pydantic's ValidationError. */
  function Validated<T>(r: Result<T, string>): (e: Result<T, Exc>)
    ensures r.Ok? ==> e == Ok(r.value)
    ensures r.Err? ==> e == Err(Exc(ValidationError, r.error))
  {
    match r
    case Ok(v) => Ok(v)
    case Err(m) => Err(Exc(ValidationError, m))
  }

  /** Integer text in a field validates to the integer it denotes. */
  lemma {:induction false} IntTextField(data: Assoc<Value>, key: string, i: int)
    requires Get(data, key) == Some(Str(Text.IntToString(i)))
    ensures IntField(data, key, 0) == Ok(i)
  {
    Text.ParseIntOfIntToString(i);
  }
}
