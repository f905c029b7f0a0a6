/**
  The Python built-in operations on values that the hub applies to data it
  does not control (parsed HTTP bodies, configuration), each with the
  exception it raises when the value has the wrong shape.
*/
module PyOps {
  import opened Wrappers
  import opened Dicts
  import opened Values
  import opened Errors
  import Text

  /** `iter(v)`: the elements a `for` loop over `v` visits. */
  function Iterate(v: Value): (r: Result<seq<Value>, Exc>)
    ensures v.List? ==> r == Ok(v.items)
    ensures r.Err? <==> !(v.List? || v.Dict? || v.Str?)
  {
    match v
    case List(items) => Ok(items)
    case Dict(entries) => Ok(seq(|entries|, i requires 0 <= i < |entries| => Str(Keys(entries)[i])))
    case Str(s) => Ok(seq(|s|, i requires 0 <= i < |s| => Str([s[i]])))
    case _ => Err(Exc(TypeError, "'" + TypeName(v) + "' object is not iterable"))
  }

  /** `key in v` for a string `key`: a key of a dict, a substring of a string, an element of a list. */
  function HasMember(v: Value, key: string): (r: Result<bool, Exc>)
    ensures v.Dict? ==> r == Ok(HasKey(v.entries, key))
  {
    match v
    case Dict(entries) => Ok(HasKey(entries, key))
    case Str(s) => Ok(Text.Contains(s, key))
    case List(items) => Ok(Str(key) in items)
    case _ => Err(Exc(TypeError, "argument of type '" + TypeName(v) + "' is not iterable"))
  }

  /** `v.get(key, default)`: only dicts have a `get` method. */
  function GetAttr(v: Value, key: string, default: Value): (r: Result<Value, Exc>)
    ensures r.Ok? <==> v.Dict?
    ensures v.Dict? ==> r.value == GetOr(v.entries, key, default)
  {
    match v
    case Dict(entries) => Ok(GetOr(entries, key, default))
    case _ => Err(Exc(AttributeError, "'" + TypeName(v) + "' object has no attribute 'get'"))
  }

  /** `v[0]`: the first element of a list or string; a dict has no key `0`, since its keys are strings. */
  function First(v: Value): (r: Result<Value, Exc>)
    ensures v.List? && v.items != [] ==> r == Ok(v.items[0])
    ensures v.Str? && v.s != "" ==> r == Ok(Str([v.s[0]]))
    ensures r.Ok? <==> (v.List? && v.items != []) || (v.Str? && v.s != "")
    ensures (v.List? || v.Str?) && r.Err? ==> r.error.cls == IndexError
    ensures v.Dict? ==> r == Err(Exc(KeyError, "0"))
  {
    match v
    case List(items) => if items != [] then Ok(items[0]) else Err(Exc(IndexError, "list index out of range"))
    case Str(s) => if s != "" then Ok(Str([s[0]])) else Err(Exc(IndexError, "string index out of range"))
    case Dict(_) => Err(Exc(KeyError, "0"))
    case _ => Err(Exc(TypeError, "'" + TypeName(v) + "' object is not subscriptable"))
  }

  /**
    `v[:n]`: strings and lists are cut to their first `n` elements; a dict
    looks the slice up as a key, which (from CPython 3.12 on) raises KeyError.
  */
  function SliceTo(v: Value, n: nat): (r: Result<Value, Exc>)
    ensures v.Str? ==> r == Ok(Str(v.s[..if |v.s| < n then |v.s| else n]))
    ensures v.List? ==> r == Ok(List(v.items[..if |v.items| < n then |v.items| else n]))
    ensures v.Dict? ==> r == Err(Exc(KeyError, "slice(None, " + Text.NatToString(n) + ", None)"))
    ensures r.Err? <==> !(v.Str? || v.List?)
  {
    match v
    case Str(s) => Ok(Str(s[..if |s| < n then |s| else n]))
    case List(items) => Ok(List(items[..if |items| < n then |items| else n]))
    case Dict(_) => Err(Exc(KeyError, "slice(None, " + Text.NatToString(n) + ", None)"))
    case _ => Err(Exc(TypeError, "'" + TypeName(v) + "' object is not subscriptable"))
  }

  /** One element of the sequence given to `dict(...)`, as a key/value pair. */
  function PairOf(item: Value, index: nat): Result<(string, Value), Exc> {
    var at := "dictionary update sequence element #" + Text.NatToString(index);
    match item
    case List(xs) =>
      if |xs| != 2 then Err(Exc(ValueError, at + " has length " + Text.NatToString(|xs|) + "; 2 is required"))
      else if xs[0].Str? then Ok((xs[0].s, xs[1]))
      else if xs[0].List? || xs[0].Dict? then Err(Exc(TypeError, "unhashable type: '" + TypeName(xs[0]) + "'"))
      else Err(Exc(TypeError, "non-string key"))
    case Str(s) =>
      if |s| != 2 then Err(Exc(ValueError, at + " has length " + Text.NatToString(|s|) + "; 2 is required"))
      else Ok(([s[0]], Str([s[1]])))
    case Dict(entries) =>
      if |entries| != 2 then Err(Exc(ValueError, at + " has length " + Text.NatToString(|entries|) + "; 2 is required"))
      else Ok((entries[0].0, Str(entries[1].0)))
    case _ => Err(Exc(TypeError, "cannot convert " + at + " to a sequence"))
  }

  /** Inserting the pairs of `items` (from index `index` on) into `acc`, left to right. */
  function PairsInto(acc: Assoc<Value>, items: seq<Value>, index: nat): (r: Result<Assoc<Value>, Exc>)
    decreases |items|
  {
    if items == [] then Ok(acc)
    else match PairOf(items[0], index)
      case Err(e) => Err(e)
      case Ok(p) => PairsInto(Put(acc, p.0, p.1), items[1..], index + 1)
  }

  /** `dict(v)`: a copy of a dict, or the dict built from a sequence of pairs. */
  function DictFrom(v: Value): (r: Result<Assoc<Value>, Exc>)
    ensures v.Dict? ==> r == Ok(v.entries)
    ensures v.Null? || v.Bool? || v.Int? || v.Float? ==> r.Err? && r.error.cls == TypeError
  {
    match v
    case Dict(entries) => Ok(entries)
    case List(items) => PairsInto([], items, 0)
    case Str(s) => PairsInto([], seq(|s|, i requires 0 <= i < |s| => Str([s[i]])), 0)
    case _ => Err(Exc(TypeError, "'" + TypeName(v) + "' object is not iterable"))
  }
}
