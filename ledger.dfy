/** The ingredient ledger: the entries the adjuster keeps, the checks an
    entry passes before it is added, and removal by position with the
    semantics of `Array.prototype.splice(idx, 1)`. */
module Ledger {
  import opened Wrappers
  import opened Text

  /** One recorded ingredient, `{ name, qty, unit }`. The unit is whatever the
      unit selector held; it is not checked. */
  datatype Ingredient = Ingredient(name: string, qty: real, unit: string)

  /** What every entry of the ledger satisfies: a non-empty trimmed name and
      a positive quantity. */
  predicate WellFormed(ing: Ingredient)
  {
    ing.name != [] && Trimmed(ing.name) && ing.qty > 0.0
  }

  predicate AllWellFormed(items: seq<Ingredient>)
  {
    forall i :: 0 <= i < |items| ==> WellFormed(items[i])
  }

  /** Why an add is refused: the name is blank, or the quantity is `NaN` or
      not greater than zero. */
  datatype AddError = EmptyName | InvalidQuantity

  /** The checks of the add handler, in its order: the name first, then the
      quantity. `qty` is the result of `parseFloat`, `None` for `NaN`. On
      success the entry carries the trimmed name. */
  function CheckAdd(rawName: string, qty: Option<real>, unit: string): (r: Result<Ingredient, AddError>)
    ensures r == Err(EmptyName) <==> AllWhitespace(rawName)
    ensures r == Err(InvalidQuantity) <==> !AllWhitespace(rawName) && (qty.None? || qty.value <= 0.0)
    ensures r.Ok? ==> qty.Some? && r.value == Ingredient(Trim(rawName), qty.value, unit)
    ensures r.Ok? ==> WellFormed(r.value)
  {
    var name := Trim(rawName);
    if name == [] then Err(EmptyName)
    else if qty.None? || qty.value <= 0.0 then Err(InvalidQuantity)
    else Ok(Ingredient(name, qty.value, unit))
  }

  /** The position `splice` starts at for a length `len` and a requested
      start `idx`: a negative start counts from the end (and stops at 0),
      a start past the end is the end. */
  function SpliceStart(len: nat, idx: int): (k: nat)
    ensures k <= len
  {
    if idx < 0 then (if len + idx < 0 then 0 else len + idx)
    else if idx < len then idx
    else len
  }

  /** The sequence after `splice(idx, 1)`: the element at the start
      position is taken out, if there is one. */
  function RemoveOne<T>(s: seq<T>, idx: int): (r: seq<T>)
    ensures |r| == if SpliceStart(|s|, idx) < |s| then |s| - 1 else |s|
    ensures multiset(r) <= multiset(s)
  {
    var k := SpliceStart(|s|, idx);
    if k < |s| then
      assert s == s[..k] + [s[k]] + s[k + 1..];
      s[..k] + s[k + 1..]
    else
      s
  }

  /** Removing at a valid position takes out exactly that element: one
      element fewer, the ones before it in place, the ones after it moved
      down by one, and no other element lost. */
  lemma RemoveAtPosition<T>(s: seq<T>, idx: int)
    requires 0 <= idx < |s|
    ensures var r := RemoveOne(s, idx);
      && |r| == |s| - 1
      && (forall j :: 0 <= j < idx ==> r[j] == s[j])
      && (forall j :: idx <= j < |r| ==> r[j] == s[j + 1])
      && multiset(r) + multiset{s[idx]} == multiset(s)
  {
    var r := RemoveOne(s, idx);
    assert s == s[..idx] + [s[idx]] + s[idx + 1..];
    calc {
      multiset(s);
      multiset(s[..idx]) + multiset([s[idx]]) + multiset(s[idx + 1..]);
      multiset(r) + multiset{s[idx]};
    }
  }

  /** A position at or past the end removes nothing. */
  lemma RemovePastEnd<T>(s: seq<T>, idx: int)
    requires idx >= |s|
    ensures RemoveOne(s, idx) == s
  {
  }

  /** A negative position counts from the end; every position at or below
      minus the length removes the first element. */
  lemma RemoveNegative<T>(s: seq<T>, idx: int)
    requires idx < 0
    ensures RemoveOne(s, idx) == RemoveOne(s, if |s| + idx < 0 then 0 else |s| + idx)
  {
  }

  /** Removal never introduces an element. */
  lemma RemoveKeepsElements<T>(s: seq<T>, idx: int)
    ensures forall x :: x in RemoveOne(s, idx) ==> x in s
  {
    var k := SpliceStart(|s|, idx);
    if k < |s| {
      forall x | x in RemoveOne(s, idx) ensures x in s {
        assert x in s[..k] || x in s[k + 1..];
      }
    }
  }

  /** Adding a checked entry and removing at any position both keep every
      entry of the ledger well formed. */
  lemma AddPreservesWellFormed(items: seq<Ingredient>, rawName: string, qty: Option<real>, unit: string)
    requires AllWellFormed(items)
    ensures var r := CheckAdd(rawName, qty, unit);
      AllWellFormed(if r.Ok? then items + [r.value] else items)
  {
  }

  lemma RemovePreservesWellFormed(items: seq<Ingredient>, idx: int)
    requires AllWellFormed(items)
    ensures AllWellFormed(RemoveOne(items, idx))
  {
    var r := RemoveOne(items, idx);
    RemoveKeepsElements(items, idx);
    forall i | 0 <= i < |r| ensures WellFormed(r[i]) {
      assert r[i] in items;
    }
  }
}
