/**
  JSON-like values: what the hub's configuration maps, tool inputs and outputs
  and parsed HTTP bodies hold (`Dict[str, Any]` in the source).
*/
module Values {
  import opened Dicts
  import Text

  datatype Value =
    | Null
    | Bool(b: bool)
    | Int(i: int)
    | Float(r: real)
    | Str(s: string)
    | List(items: seq<Value>)
    | Dict(entries: Assoc<Value>)

  /** Python's `bool(v)`. */
  predicate Truthy(v: Value) {
    match v
    case Null => false
    case Bool(b) => b
    case Int(i) => i != 0
    case Float(r) => r != 0.0
    case Str(s) => s != ""
    case List(items) => items != []
    case Dict(entries) => entries != []
  }

  /** `type(v).__name__` */
  function TypeName(v: Value): string {
    match v
    case Null => "NoneType"
    case Bool(_) => "bool"
    case Int(_) => "int"
    case Float(_) => "float"
    case Str(_) => "str"
    case List(_) => "list"
    case Dict(_) => "dict"
  }

  /**
    `str(v)` as an f-string renders it. Exact for None, booleans, integers and
    strings; floats, lists and dicts get a placeholder text.
  */
  function PyStr(v: Value): string {
    match v
    case Null => "None"
    case Bool(b) => if b then "True" else "False"
    case Int(i) => Text.IntToString(i)
    case Str(s) => s
    case Float(_) => "<float>"
    case List(_) => "<list>"
    case Dict(_) => "<dict>"
  }

  function Sum(ns: seq<nat>): nat {
    if ns == [] then 0 else ns[0] + Sum(ns[1..])
  }

  /** A structural size, the measure for recursion into nested dicts. */
  function Size(v: Value): nat {
    match v
    case List(items) => 1 + Sum(seq(|items|, i requires 0 <= i < |items| => Size(items[i])))
    case Dict(entries) => 1 + EntriesSize(entries)
    case _ => 1
  }

  /** The size of a dict's items: one per key plus the size of each value. */
  function EntriesSize(entries: Assoc<Value>): nat
    decreases Dict(entries), 0
  {
    Sum(seq(|entries|, i requires 0 <= i < |entries| => 1 + Size(entries[i].1)))
  }

  lemma {:induction false} SumElement(ns: seq<nat>, i: nat)
    requires i < |ns|
    ensures ns[i] <= Sum(ns)
  {
    if i > 0 {
      assert ns[1..][i - 1] == ns[i];
      SumElement(ns[1..], i - 1);
    }
  }

  /** Every value held by a dict is smaller than the dict's items. */
  lemma EntryValueSmaller(entries: Assoc<Value>, i: nat)
    requires i < |entries|
    ensures Size(entries[i].1) < EntriesSize(entries)
  {
    var ns := seq(|entries|, j requires 0 <= j < |entries| => 1 + Size(entries[j].1));
    SumElement(ns, i);
  }

  /** Dropping the first item of a dict makes its items smaller. */
  lemma EntriesTailSmaller(entries: Assoc<Value>)
    requires entries != []
    ensures EntriesSize(entries) == 1 + Size(entries[0].1) + EntriesSize(entries[1..])
  {
    var ns := seq(|entries|, j requires 0 <= j < |entries| => 1 + Size(entries[j].1));
    var ms := seq(|entries| - 1, j requires 0 <= j < |entries| - 1 => 1 + Size(entries[1..][j].1));
    assert ns[1..] == ms;
  }
}
