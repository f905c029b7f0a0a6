/**
  Building the configuration map (`config/loaders.py`): the recursive merge
  of an override map into a base map, the parsing of `TOOL_*` keys into
  per-tool entries, and the coercion of environment strings.

  `merge_dicts` and `extract_tool_configs` update dicts in place; here each
  returns the new contents of the dict it updates.
*/
module Loaders {
  import opened Wrappers
  import opened Dicts
  import opened Values
  import opened Errors
  import Text

  /** The value a key ends with when `v` is merged over the base's `current` value for it. */
  function MergeValue(current: Option<Value>, v: Value): Value
    decreases Size(v), 0
  {
    if v.Dict? && current.Some? && current.value.Dict? then Dict(Merged(current.value.entries, v.entries)) else v
  }

  /** `merge_dicts(base, overrides)`: base after the override items are merged in, in order. */
  function Merged(base: Assoc<Value>, overrides: Assoc<Value>): Assoc<Value>
    decreases EntriesSize(overrides), 1
  {
    if overrides == [] then base
    else
      EntryValueSmaller(overrides, 0);
      EntriesTailSmaller(overrides);
      var (key, value) := overrides[0];
      Merged(Put(base, key, MergeValue(Get(base, key), value)), overrides[1..])
  }

  /**
    The in-place merge. Each override is a value still to be merged, so the
    result is the base with the remaining overrides merged in.
  */
  method MergeDicts(base: Assoc<Value>, overrides: Assoc<Value>) returns (merged: Assoc<Value>)
    ensures merged == Merged(base, overrides)
    decreases EntriesSize(overrides)
  {
    merged := base;
    var i := 0;
    while i < |overrides|
      invariant 0 <= i <= |overrides|
      invariant Merged(merged, overrides[i..]) == Merged(base, overrides)
    {
      var (key, value) := overrides[i];
      var current := Get(merged, key);
      assert overrides[i..][0] == overrides[i] && overrides[i..][1..] == overrides[i + 1..];
      if value.Dict? && current.Some? && current.value.Dict? {
        EntryValueSmaller(overrides, i);
        var inner := MergeDicts(current.value.entries, value.entries);
        merged := Put(merged, key, Dict(inner));
      } else {
        merged := Put(merged, key, value);
      }
      i := i + 1;
    }
  }

  /**
    What merging does to each key: a key the overrides do not hold keeps its
    base value, two dicts are merged recursively, and otherwise the override
    value replaces the base value.
  */
  lemma {:induction false} MergedGet(base: Assoc<Value>, overrides: Assoc<Value>, k: string)
    requires DistinctKeys(overrides)
    ensures Get(Merged(base, overrides), k) ==
      if HasKey(overrides, k) then Some(MergeValue(Get(base, k), Get(overrides, k).value)) else Get(base, k)
    decreases |overrides|
  {
    if overrides != [] {
      var (key, value) := overrides[0];
      var next := Put(base, key, MergeValue(Get(base, key), value));
      assert DistinctKeys(overrides[1..]);
      MergedGet(next, overrides[1..], k);
      forall j | 0 <= j < |overrides[1..]| ensures Keys(overrides[1..])[j] != key {
        KeysAt(overrides[1..], j);
      }
      assert !HasKey(overrides[1..], key);
    }
  }

  /** Merging keeps the keys of a dict distinct. */
  lemma {:induction false} MergedDistinct(base: Assoc<Value>, overrides: Assoc<Value>)
    requires DistinctKeys(base)
    ensures DistinctKeys(Merged(base, overrides))
    decreases |overrides|
  {
    if overrides != [] {
      var (key, value) := overrides[0];
      PutDistinct(base, key, MergeValue(Get(base, key), value));
      MergedDistinct(Put(base, key, MergeValue(Get(base, key), value)), overrides[1..]);
    }
  }

  /** `_coerce_bool`: booleans as they are, strings by their stripped lower-case text, anything else by truthiness. */
  function CoerceBool(v: Value): (b: bool)
    ensures v.Bool? ==> b == v.b
    ensures v.Str? ==> (b <==> Text.Lower(Text.Strip(v.s)) in {"1", "true", "yes", "on"})
    ensures !v.Bool? && !v.Str? ==> b == Truthy(v)
  {
    match v
    case Bool(b) => b
    case Str(s) => Text.Lower(Text.Strip(s)) in {"1", "true", "yes", "on"}
    case _ => Truthy(v)
  }

  /**
    `_coerce_value`: a string spelling true or false in any case becomes a
    boolean, one `int()` accepts an integer, one `float()` accepts a float
    (`parseFloat` stands for `float()`), and any other string stays a string.
    Non-strings pass through.
  */
  function CoerceValue(v: Value, parseFloat: string -> Option<real>): (r: Value)
    ensures !v.Str? ==> r == v
    ensures v.Str? && Text.Lower(v.s) in {"true", "false"} ==> r == Bool(Text.Lower(v.s) == "true")
    ensures v.Str? && Text.Lower(v.s) !in {"true", "false"} && Text.ParseInt(v.s).Some? ==>
      r == Int(Text.ParseInt(v.s).value)
    ensures r.Str? ==> r == v
  {
    match v
    case Str(s) =>
      var lowered := Text.Lower(s);
      if lowered == "true" || lowered == "false" then Bool(lowered == "true")
      else (
        match Text.ParseInt(s)
        case Some(i) => Int(i)
        case None => (
          match parseFloat(s)
          case Some(x) => Float(x)
          case None => v))
    case _ => v
  }

  /** The decimal text of any integer coerces back to that integer. */
  lemma {:induction false} CoerceIntText(i: int, parseFloat: string -> Option<real>)
    ensures CoerceValue(Str(Text.IntToString(i)), parseFloat) == Int(i)
  {
    Text.ParseIntOfIntToString(i);
    NotBoolWord(Text.IntToString(i));
  }

  /** Text ending in a digit does not spell true or false in any case. */
  lemma {:induction false} NotBoolWord(s: string)
    requires |s| > 0 && Text.IsDigit(s[|s| - 1])
    ensures Text.Lower(s) != "true" && Text.Lower(s) != "false"
  {
    assert Text.Lower(s)[|s| - 1] == s[|s| - 1];
  }

  /** A tool entry: the per-tool dict `extract_tool_configs` builds. */
  type ToolEntry = Assoc<Value>

  /** The entry a tool starts with: enabled, with an empty config. */
  const NewEntry: ToolEntry := [("enabled", Bool(true)), ("config", Dict([]))]

  /** `tools.setdefault(name, {"enabled": True, "config": {}})` without the insertion. */
  function Entry(tools: Assoc<ToolEntry>, name: string): ToolEntry {
    GetOr(tools, name, NewEntry)
  }

  /** `d[key] = value` where `d` is the value at a dict's "config": only a dict supports it. */
  function SetItem(d: Value, key: string, value: Value): (r: Result<Value, Exc>)
    ensures r.Ok? <==> d.Dict?
    ensures d.Dict? ==> r.value.Dict? && Get(r.value.entries, key) == Some(value)
  {
    match d
    case Dict(entries) => Ok(Dict(Put(entries, key, value)))
    case List(_) => Err(Exc(TypeError, "list indices must be integers or slices, not str"))
    case _ => Err(Exc(TypeError, "'" + TypeName(d) + "' object does not support item assignment"))
  }

  /**
    One item of the configuration, applied to the tools collected so far.
    What each kind of `TOOL_*` key does is stated by the three lemmas below.
  */
  function ExtractStep(tools: Assoc<ToolEntry>, key: string, value: Value): (r: Result<Assoc<ToolEntry>, Exc>)
    // Keys without the prefix contribute nothing.
    ensures !Text.StartsWith(key, "TOOL_") ==> r == Ok(tools)
  {
    if !Text.StartsWith(key, "TOOL_") then Ok(tools)
    else
      var remainder := key[5..];
      if Text.EndsWith(remainder, "_ENABLED") then
        var name := Text.Lower(key[5..|key| - 8]);
        Ok(Put(tools, name, Put(Entry(tools, name), "enabled", Bool(CoerceBool(value)))))
      else if Text.Contains(remainder, "_CONFIG__") then
        var (n, k) := Text.SplitFirst(remainder, "_CONFIG__");
        var name := Text.Lower(n);
        var entry := Entry(tools, name);
        match Get(entry, "config")
        case None => Err(Exc(KeyError, "'config'"))
        case Some(config) =>
          match SetItem(config, Text.Lower(k), value)
          case Err(e) => Err(e)
          case Ok(c) => Ok(Put(tools, name, Put(entry, "config", c)))
      else if value.Dict? then
        var name := Text.Lower(remainder);
        Ok(Put(tools, name, Merged(Entry(tools, name), value.entries)))
      else Ok(tools)
  }

  /** `TOOL_<N>_ENABLED` sets lower(N)'s enabled flag, creating the entry if needed, and touches no other tool. */
  lemma {:induction false} ExtractStepEnabled(tools: Assoc<ToolEntry>, key: string, value: Value)
    requires Text.StartsWith(key, "TOOL_") && Text.EndsWith(key[5..], "_ENABLED")
    ensures var name := Text.Lower(key[5..|key| - 8]);
      var r := ExtractStep(tools, key, value);
      && r.Ok?
      && Get(r.value, name) == Some(Put(Entry(tools, name), "enabled", Bool(CoerceBool(value))))
      && (forall t :: t != name ==> Get(r.value, t) == Get(tools, t))
  {
  }

  /**
    `TOOL_<N>_CONFIG__<K>` stores the value under lower(K) in lower(N)'s
    config; an entry without a config raises KeyError, and a config that is
    not a dict raises what item assignment raises.
  */
  lemma {:induction false} ExtractStepConfig(tools: Assoc<ToolEntry>, key: string, value: Value)
    requires Text.StartsWith(key, "TOOL_") && !Text.EndsWith(key[5..], "_ENABLED")
    requires Text.Contains(key[5..], "_CONFIG__")
    ensures var (n, k) := Text.SplitFirst(key[5..], "_CONFIG__");
      var name := Text.Lower(n);
      var r := ExtractStep(tools, key, value);
      && (Get(Entry(tools, name), "config").None? ==> r == Err(Exc(KeyError, "'config'")))
      && (Get(Entry(tools, name), "config").Some? ==>
           match SetItem(Get(Entry(tools, name), "config").value, Text.Lower(k), value)
           case Err(e) => r == Err(e)
           case Ok(c) => r.Ok? && Get(r.value, name) == Some(Put(Entry(tools, name), "config", c))
                         && (forall t :: t != name ==> Get(r.value, t) == Get(tools, t)))
  {
  }

  /** A dict-valued `TOOL_<N>` is merged into lower(N)'s entry; any other value is ignored. */
  lemma {:induction false} ExtractStepMerge(tools: Assoc<ToolEntry>, key: string, value: Value)
    requires Text.StartsWith(key, "TOOL_") && !Text.EndsWith(key[5..], "_ENABLED")
    requires !Text.Contains(key[5..], "_CONFIG__")
    ensures var name := Text.Lower(key[5..]);
      var r := ExtractStep(tools, key, value);
      && r.Ok?
      && (value.Dict? ==> Get(r.value, name) == Some(Merged(Entry(tools, name), value.entries))
                          && (forall t :: t != name ==> Get(r.value, t) == Get(tools, t)))
      && (!value.Dict? ==> r.value == tools)
  {
  }

  /** The tools collected from `items`, in order, starting from `tools`; the first error stops. */
  function ExtractFrom(tools: Assoc<ToolEntry>, items: Assoc<Value>): Result<Assoc<ToolEntry>, Exc>
    decreases |items|
  {
    if items == [] then Ok(tools)
    else match ExtractStep(tools, items[0].0, items[0].1)
      case Err(e) => Err(e)
      case Ok(next) => ExtractFrom(next, items[1..])
  }

  /** `extract_tool_configs`: the per-tool entries described by the `TOOL_*` keys of a configuration. */
  method ExtractToolConfigs(config: Assoc<Value>) returns (r: Result<Assoc<ToolEntry>, Exc>)
    ensures r == ExtractFrom([], config)
  {
    var tools: Assoc<ToolEntry> := [];
    var i := 0;
    while i < |config|
      invariant 0 <= i <= |config|
      invariant ExtractFrom(tools, config[i..]) == ExtractFrom([], config)
    {
      var (key, value) := config[i];
      assert config[i..][0] == config[i] && config[i..][1..] == config[i + 1..];
      var next := ApplyItem(tools, key, value);
      if next.Err? {
        return Err(next.error);
      }
      tools := next.value;
      i := i + 1;
    }
    r := Ok(tools);
  }

  /** One iteration of `extract_tool_configs`' loop: the entry updates one key calls for, or the error it raises. */
  method ApplyItem(tools: Assoc<ToolEntry>, key: string, value: Value) returns (r: Result<Assoc<ToolEntry>, Exc>)
    ensures r == ExtractStep(tools, key, value)
  {
    if !Text.StartsWith(key, "TOOL_") {
      return Ok(tools);
    }
    var remainder := key[5..];
    if Text.EndsWith(remainder, "_ENABLED") {
      assert remainder[..|remainder| - 8] == key[5..|key| - 8];
      var name := Text.Lower(remainder[..|remainder| - 8]);
      var entry := Entry(tools, name);
      entry := Put(entry, "enabled", Bool(CoerceBool(value)));
      r := Ok(Put(tools, name, entry));
    } else if Text.Contains(remainder, "_CONFIG__") {
      var (n, k) := Text.SplitFirst(remainder, "_CONFIG__");
      var name := Text.Lower(n);
      var entry := Entry(tools, name);
      var config := Get(entry, "config");
      if config.None? {
        return Err(Exc(KeyError, "'config'"));
      }
      var updated := SetItem(config.value, Text.Lower(k), value);
      if updated.Err? {
        return Err(updated.error);
      }
      r := Ok(Put(tools, name, Put(entry, "config", updated.value)));
    } else if value.Dict? {
      var name := Text.Lower(remainder);
      var entry := MergeDicts(Entry(tools, name), value.entries);
      r := Ok(Put(tools, name, entry));
    } else {
      r := Ok(tools);
    }
  }

  /** The items of a configuration whose keys carry the `TOOL_` prefix, in order. */
  function ToolItems(items: Assoc<Value>): (r: Assoc<Value>)
    ensures forall i :: 0 <= i < |r| ==> Text.StartsWith(r[i].0, "TOOL_")
    ensures |r| <= |items|
  {
    if items == [] then []
    else (if Text.StartsWith(items[0].0, "TOOL_") then [items[0]] else []) + ToolItems(items[1..])
  }

  /** Keys without the `TOOL_` prefix contribute nothing to the tools. */
  lemma {:induction false} OnlyToolKeysMatter(tools: Assoc<ToolEntry>, items: Assoc<Value>)
    ensures ExtractFrom(tools, items) == ExtractFrom(tools, ToolItems(items))
    decreases |items|
  {
    if items != [] {
      if !Text.StartsWith(items[0].0, "TOOL_") {
        OnlyToolKeysMatter(tools, items[1..]);
        assert ToolItems(items) == ToolItems(items[1..]);
      } else {
        var rest := ToolItems(items[1..]);
        assert ToolItems(items) == [items[0]] + rest;
        assert ([items[0]] + rest)[1..] == rest;
        match ExtractStep(tools, items[0].0, items[0].1)
        case Err(_) =>
        case Ok(next) => OnlyToolKeysMatter(next, items[1..]);
      }
    }
  }

  /** A tool named only by one config key ends up enabled, with that key in its config. */
  lemma {:induction false} ConfigKeyOnly(n: string, k: string, v: Value)
    requires !Text.Contains(n, "_CONFIG__") && (n == [] || n[|n| - 1] != '_')
    requires !Text.EndsWith(n + "_CONFIG__" + k, "_ENABLED")
    ensures var r := ExtractFrom([], [("TOOL_" + n + "_CONFIG__" + k, v)]);
      && r.Ok?
      && r.value == [(Text.Lower(n), [("enabled", Bool(true)), ("config", Dict([(Text.Lower(k), v)]))])]
  {
    var key := "TOOL_" + n + "_CONFIG__" + k;
    assert key[5..] == n + "_CONFIG__" + k;
    assert Text.StartsWith(key, "TOOL_");
    SplitAtFirstConfig(n, k);
    FirstConfigStep(key, n, k, v);
    ExtractOne([], key, v);
  }

  /** A configuration of one item is that item's step. */
  lemma {:induction false} ExtractOne(tools: Assoc<ToolEntry>, key: string, v: Value)
    ensures ExtractFrom(tools, [(key, v)]) == ExtractStep(tools, key, v)
  {
    var items := [(key, v)];
    assert items[1..] == [];
  }

  /** A config key whose remainder splits into `n` and `k`, applied to no tools. */
  lemma {:induction false} FirstConfigStep(key: string, n: string, k: string, v: Value)
    requires Text.StartsWith(key, "TOOL_") && !Text.EndsWith(key[5..], "_ENABLED")
    requires Text.Contains(key[5..], "_CONFIG__") && Text.SplitFirst(key[5..], "_CONFIG__") == (n, k)
    ensures ExtractStep([], key, v)
      == Ok([(Text.Lower(n), [("enabled", Bool(true)), ("config", Dict([(Text.Lower(k), v)]))])])
  {
    var name := Text.Lower(n);
    assert Entry([], name) == NewEntry;
    var c := Dict([(Text.Lower(k), v)]);
    assert SetItem(Dict([]), Text.Lower(k), v) == Ok(c);
    assert Put(NewEntry, "config", c) == [("enabled", Bool(true)), ("config", c)];
  }

  /**
    A tool name that does not contain "_CONFIG__" and does not end in "_" is
    exactly what `split("_CONFIG__", 1)` gives back from "<name>_CONFIG__<key>".
  */
  lemma {:induction false} SplitAtFirstConfig(n: string, k: string)
    requires !Text.Contains(n, "_CONFIG__") && (n == [] || n[|n| - 1] != '_')
    ensures Text.Contains(n + "_CONFIG__" + k, "_CONFIG__")
    ensures Text.SplitFirst(n + "_CONFIG__" + k, "_CONFIG__") == (n, k)
  {
    var s := n + "_CONFIG__" + k;
    assert s[|n|..|n| + 9] == "_CONFIG__";
    assert Text.OccursAt(s, "_CONFIG__", |n|);
    var p := Text.IndexOf(s, "_CONFIG__").value;
    // An occurrence inside the name would be an occurrence in the name.
    assert p + 9 <= |n| ==> n[p..p + 9] == s[p..p + 9];
    assert p + 9 <= |n| ==> Text.OccursAt(n, "_CONFIG__", p);
    // One overlapping the name's end would make the name end in "_".
    ShiftedOccurrence(s, p, |n|);
    OccursChar(s, "_CONFIG__", p, |n| - 1 - p);
    assert s[..|n|] == n && s[|n| + 9..] == k;
  }

  /** Two occurrences of "_CONFIG__" fewer than 9 apart are exactly 8 apart (they share one "_"). */
  lemma ShiftedOccurrence(s: string, i: nat, j: nat)
    ensures i < j < i + 9 && Text.OccursAt(s, "_CONFIG__", i) && Text.OccursAt(s, "_CONFIG__", j) ==> j == i + 8
  {
    if i < j < i + 9 && Text.OccursAt(s, "_CONFIG__", i) && Text.OccursAt(s, "_CONFIG__", j) {
      OccursChar(s, "_CONFIG__", i, j - i);
      OccursChar(s, "_CONFIG__", j, 0);
      OccursChar(s, "_CONFIG__", i, j + 1 - i);
      OccursChar(s, "_CONFIG__", j, 1);
    }
  }

  /** The characters of an occurrence are those of the text that occurs. */
  lemma OccursChar(s: string, t: string, i: int, m: int)
    ensures Text.OccursAt(s, t, i) && 0 <= m < |t| ==> s[i + m] == t[m]
  {
    if Text.OccursAt(s, t, i) && 0 <= m < |t| {
      assert s[i..i + |t|][m] == s[i + m];
    }
  }
}
