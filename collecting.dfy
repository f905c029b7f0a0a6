/**
  Collecting records from a list of items one item at a time, the shape of
  a loop that appends each item's record, skips the items that give none,
  and stops at the first item that raises.
*/
module Collecting {
  import opened Wrappers

  /** The records `shape` gives the items, in order, dropping the Nones; the first error stops. */
  function Collect<T, R, E>(shape: T -> Result<Option<R>, E>, items: seq<T>): (r: Result<seq<R>, E>)
    ensures r.Ok? ==> |r.value| <= |items|
  {
    if items == [] then Ok([])
    else
      var shaped :- shape(items[0]);
      var rest :- Collect(shape, items[1..]);
      Ok((if shaped.Some? then [shaped.value] else []) + rest)
  }

  /** `acc` followed by the records of `r`, or `r`'s error. */
  function After<R, E>(acc: seq<R>, r: Result<seq<R>, E>): Result<seq<R>, E> {
    if r.Ok? then Ok(acc + r.value) else r
  }

  /** The items `skip` does not hold of, in order. */
  function Kept<T>(skip: T -> bool, items: seq<T>): (r: seq<T>)
    ensures |r| <= |items|
    ensures forall x :: x in r ==> x in items && !skip(x)
  {
    if items == [] then []
    else (if skip(items[0]) then [] else [items[0]]) + Kept(skip, items[1..])
  }

  /**
    For a step that gives None exactly for the skipped items, the collected
    records are the records of the kept items, one each, in their order.
  */
  lemma {:induction false} CollectOrder<T, R, E>(shape: T -> Result<Option<R>, E>, skip: T -> bool, items: seq<T>)
    requires forall x :: shape(x) == Ok(None) <==> skip(x)
    requires Collect(shape, items).Ok?
    ensures var r := Collect(shape, items).value;
      && |r| == |Kept(skip, items)|
      && forall j :: 0 <= j < |r| ==> shape(Kept(skip, items)[j]) == Ok(Some(r[j]))
  {
    if items != [] {
      CollectOrder(shape, skip, items[1..]);
      var rest := Collect(shape, items[1..]).value;
      var kept := Kept(skip, items[1..]);
      if skip(items[0]) {
        assert Kept(skip, items) == kept;
      } else {
        assert Kept(skip, items) == [items[0]] + kept;
        var r := Collect(shape, items).value;
        assert r == [shape(items[0]).value.value] + rest;
        forall j | 0 < j < |r| ensures shape(Kept(skip, items)[j]) == Ok(Some(r[j])) {
          assert Kept(skip, items)[j] == kept[j - 1] && r[j] == rest[j - 1];
        }
      }
    }
  }

  /** One step of `Collect`: the first item's error, or its record (if any) before the rest's. */
  lemma {:induction false} CollectStep<T, R, E>(shape: T -> Result<Option<R>, E>, acc: seq<R>, items: seq<T>)
    requires items != []
    ensures shape(items[0]).Err? ==> Collect(shape, items) == Err(shape(items[0]).error)
    ensures shape(items[0]).Ok? ==>
      var shaped := shape(items[0]).value;
      After(acc, Collect(shape, items)) == After(acc + (if shaped.Some? then [shaped.value] else []), Collect(shape, items[1..]))
  {
    var first := shape(items[0]);
    var rest := Collect(shape, items[1..]);
    if first.Err? {
      assert Collect(shape, items) == Err(first.error);
    } else if rest.Err? {
      assert Collect(shape, items) == Err(rest.error);
    } else {
      var kept := if first.value.Some? then [first.value.value] else [];
      assert Collect(shape, items) == Ok(kept + rest.value);
      assert acc + (kept + rest.value) == acc + kept + rest.value;
    }
  }
}
