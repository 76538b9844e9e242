/**
 * Name resolution against the catalog (`getListedUnits`,
 * `getListedTerritories`), the de-duplication of unit types
 * (`getUnitTypesFromUnitList`), and the "first failing element" scan that
 * `validate` runs over its list-valued fields.
 */
module Resolution {
  import opened Wrappers
  import opened Tokens
  import opened GameData

  /** The index of the first name the catalog does not know, or |names| if it knows them all. */
  function FirstUnknown(cat: Catalog, kind: EntityKind, names: seq<string>): (k: nat)
    ensures k <= |names|
    ensures forall j :: 0 <= j < k ==> Known(cat, kind, names[j])
    ensures k < |names| ==> !Known(cat, kind, names[k])
  {
    if names == [] then 0
    else if !Known(cat, kind, names[0]) then 0
    else 1 + FirstUnknown(cat, kind, names[1..])
  }

  /** The scan stops at `i` when every name before `i` is known and `i` is the end or an unknown name. */
  lemma FirstUnknownAt(cat: Catalog, kind: EntityKind, names: seq<string>, i: nat)
    requires i <= |names|
    requires forall j :: 0 <= j < i ==> Known(cat, kind, names[j])
    requires i == |names| || !Known(cat, kind, names[i])
    ensures FirstUnknown(cat, kind, names) == i
  {
  }

  /**
   * `getListedUnits` / `getListedTerritories`: every name must resolve; the
   * first one that does not raises, naming it. Entities are identified by
   * their names, so the resolved list is the list itself.
   */
  method ListedNames(cat: Catalog, kind: EntityKind, names: seq<string>) returns (r: Result<seq<string>, Error>)
    ensures r.Success? <==> forall j :: 0 <= j < |names| ==> Known(cat, kind, names[j])
    ensures r.Success? ==> r.value == names
    ensures r.Failure? ==> r.error == Unknown(kind, names[FirstUnknown(cat, kind, names)])
  {
    var resolved: seq<string> := [];
    var i := 0;
    while i < |names|
      invariant 0 <= i <= |names|
      invariant resolved == names[..i]
      invariant forall j :: 0 <= j < i ==> Known(cat, kind, names[j])
    {
      if !Known(cat, kind, names[i]) {
        FirstUnknownAt(cat, kind, names, i);
        return Failure(Unknown(kind, names[i]));
      }
      resolved := resolved + [names[i]];
      i := i + 1;
    }
    assert resolved == names;
    return Success(resolved);
  }

  /** The same as `ListedNames`, as a value. */
  function Listed(cat: Catalog, kind: EntityKind, names: seq<string>): (r: Option<Error>)
    ensures r.None? <==> forall j :: 0 <= j < |names| ==> Known(cat, kind, names[j])
    ensures r.Some? ==> r.value == Unknown(kind, names[FirstUnknown(cat, kind, names)])
  {
    var k := FirstUnknown(cat, kind, names);
    if k == |names| then None else Some(Unknown(kind, names[k]))
  }

  // ---------------------------------------------------------------------------
  // getUnitTypesFromUnitList
  // ---------------------------------------------------------------------------

  function TypesOf(units: seq<Unit>): (r: seq<string>)
    ensures |r| == |units|
    ensures forall i :: 0 <= i < |units| ==> r[i] == units[i].unitType
  {
    seq(|units|, i requires 0 <= i < |units| => units[i].unitType)
  }

  /** Keeps the first occurrence of every name, in order. */
  function Dedup(ts: seq<string>): (d: seq<string>)
    ensures forall a, b :: 0 <= a < b < |d| ==> d[a] != d[b]
    ensures forall x :: x in d <==> x in ts
  {
    if ts == [] then []
    else
      var d := Dedup(DropLast(ts));
      assert ts == DropLast(ts) + [Last(ts)];
      if Last(ts) in d then d else d + [Last(ts)]
  }

  /**
   * The order `Dedup` keeps is the order of first occurrence: wherever a
   * later name occurs, every earlier name has already occurred before it.
   */
  lemma {:induction false} DedupKeepsFirstOccurrenceOrder(ts: seq<string>)
    ensures forall a, b, i :: 0 <= a < b < |Dedup(ts)| && 0 <= i < |ts| && ts[i] == Dedup(ts)[b] ==> Dedup(ts)[a] in ts[..i]
  {
    if ts != [] {
      var init := DropLast(ts);
      var d := Dedup(init);
      DedupKeepsFirstOccurrenceOrder(init);
      var n := |ts| - 1;
      forall a, b, i | 0 <= a < b < |Dedup(ts)| && 0 <= i < |ts| && ts[i] == Dedup(ts)[b]
        ensures Dedup(ts)[a] in ts[..i]
      {
        assert Dedup(ts)[a] == d[a] && d[a] in init;
        if i < n {
          assert ts[..i] == init[..i];
          assert ts[i] == init[i];
        } else {
          assert ts[..i] == init;
        }
      }
    }
  }

  /** `getUnitTypesFromUnitList`: the distinct types of `units`, in order of first appearance. */
  method UnitTypesFromUnitList(units: seq<Unit>) returns (types: seq<string>)
    ensures types == Dedup(TypesOf(units))
    ensures forall a, b :: 0 <= a < b < |types| ==> types[a] != types[b]
    ensures forall i :: 0 <= i < |units| ==> units[i].unitType in types
    ensures forall t :: t in types ==> t in TypesOf(units)
  {
    types := [];
    var i := 0;
    while i < |units|
      invariant 0 <= i <= |units|
      invariant types == Dedup(TypesOf(units[..i]))
    {
      assert TypesOf(units[..i + 1]) == TypesOf(units[..i]) + [units[i].unitType];
      assert DropLast(TypesOf(units[..i + 1])) == TypesOf(units[..i]);
      if units[i].unitType !in types {
        types := types + [units[i].unitType];
      }
      i := i + 1;
    }
    assert units[..i] == units;
    forall j | 0 <= j < |units| ensures units[j].unitType in types {
      assert TypesOf(units)[j] == units[j].unitType;
    }
  }

  // ---------------------------------------------------------------------------
  // The first failing element of a list
  // ---------------------------------------------------------------------------

  /** The error of the first element that `check` rejects, if any. */
  function FirstFailure<T>(s: seq<T>, check: T -> Option<Error>): (r: Option<Error>)
    ensures r.None? <==> forall j :: 0 <= j < |s| ==> check(s[j]).None?
  {
    if s == [] then None
    else
      var p := FirstFailure(DropLast(s), check);
      assert forall j :: 0 <= j < |s| - 1 ==> DropLast(s)[j] == s[j];
      if p.Some? then p else check(Last(s))
  }

  /** When everything before index `i` passes and element `i` fails, the scan reports element `i`. */
  lemma {:induction false} FirstFailureAt<T>(s: seq<T>, check: T -> Option<Error>, i: nat)
    requires i < |s|
    requires forall j :: 0 <= j < i ==> check(s[j]).None?
    requires check(s[i]).Some?
    ensures FirstFailure(s, check) == check(s[i])
  {
    if i < |s| - 1 {
      FirstFailureAt(DropLast(s), check, i);
    } else {
      assert forall j :: 0 <= j < |DropLast(s)| ==> check(DropLast(s)[j]).None?;
    }
  }
}
