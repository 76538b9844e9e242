/**
 * The values stored in a unit attachment's record-valued fields, and the
 * pure part of each setter: what a token stream parses to, or which
 * exception it raises. The setters in `UnitAttachments` apply these
 * results to the object's fields.
 */
module AttachmentValues {
  import opened Wrappers
  import opened Tokens
  import opened GameData

  /** `getBool` with its exception. */
  function BoolToken(value: string): (r: Result<bool, Error>)
    ensures r.Success? <==> ParseBool(value).Some?
    ensures r.Success? ==> r.value == ParseBool(value).value
    ensures r.Failure? ==> r.error == NotABoolean(value)
  {
    match ParseBool(value)
    case Some(b) => Success(b)
    case None => Failure(NotABoolean(value))
  }

  /** `getInt` with its exception. */
  function IntToken(value: string): (r: Result<int, Error>)
    ensures r.Success? <==> ParseInt(value).Some?
    ensures r.Success? ==> r.value == ParseInt(value).value && IsInt32(r.value)
    ensures r.Failure? ==> r.error == NotAnInteger(value)
  {
    match ParseInt(value)
    case Some(n) => Success(n)
    case None => Failure(NotAnInteger(value))
  }

  // ---------------------------------------------------------------------------
  // stackingLimit
  // ---------------------------------------------------------------------------

  /** Whose units a stacking limit counts. */
  datatype Scope = Owned | Allied | Total

  function ScopeName(scope: Scope): string
  {
    match scope
    case Owned => "owned"
    case Allied => "allied"
    case Total => "total"
  }

  /** The most units of the type that may stand in one territory, and whose units count. */
  datatype StackingLimit = StackingLimit(max: int, scope: Scope)

  /**
   * The parsing part of `setStackingLimit`: exactly two fields, a count of
   * at least zero and one of the three scope names.
   */
  function StackingLimitOf(s: seq<string>): (r: Result<StackingLimit, Error>)
    ensures r.Success? <==>
      && |s| == 2
      && ParseInt(s[0]).Some? && ParseInt(s[0]).value >= 0
      && s[1] in {"owned", "allied", "total"}
    ensures r.Success? ==>
      && r.value.max == ParseInt(s[0]).value
      && 0 <= r.value.max <= MaxInt
      && ScopeName(r.value.scope) == s[1]
    ensures |s| == 2 && ParseInt(s[0]).Some? && ParseInt(s[0]).value >= 0 && r.Failure? ==> r.error == NotAllowed(s[1])
  {
    if |s| != 2 then Failure(FieldCount)
    else match IntToken(s[0])
      case Failure(e) => Failure(e)
      case Success(max) =>
        if max < 0 then Failure(OutOfRange)
        else if s[1] == "owned" then Success(StackingLimit(max, Owned))
        else if s[1] == "allied" then Success(StackingLimit(max, Allied))
        else if s[1] == "total" then Success(StackingLimit(max, Total))
        else Failure(NotAllowed(s[1]))
  }

  /** The token `setIsAAmovement` writes, Integer.MAX_VALUE + ":allied", parses back to that limit. */
  lemma AlliedUnlimitedToken()
    ensures StackingLimitOf(Split(IntToString(MaxInt) + ":allied")) == Success(StackingLimit(MaxInt, Allied))
  {
    AlliedToken(MaxInt);
  }

  /** Any non-negative 32-bit count written before ":allied" parses back to an allied limit of that count. */
  lemma AlliedToken(n: int)
    requires 0 <= n <= MaxInt
    ensures StackingLimitOf(Split(IntToString(n) + ":allied")) == Success(StackingLimit(n, Allied))
  {
    var count := IntToString(n);
    IntToStringColonFree(n);
    ParseIntRoundTrip(n);
    SplitAllied(count);
  }

  lemma SplitAllied(count: string)
    requires ColonFree(count)
    ensures Split(count + ":allied") == [count, "allied"]
  {
    assert Join([count, "allied"]) == count + ":allied";
    SplitJoin([count, "allied"]);
  }

  // ---------------------------------------------------------------------------
  // whenCombatDamaged
  // ---------------------------------------------------------------------------

  /** Damage constants naming the only two effects `validate` admits. */
  const UnitsMayNotLandOnCarrier: string := "unitsMayNotLandOnCarrier"
  const UnitsMayNotLeaveAlliedCarrier: string := "unitsMayNotLeaveAlliedCarrier"

  /** Between `fromDamage` and `toDamage` hits the unit gets `effect` (with an optional argument). */
  datatype DamageEffect = DamageEffect(fromDamage: int, toDamage: int, effect: string, argument: Option<string>)

  /** The parsing part of `setWhenCombatDamaged`. */
  function DamageRecord(s: seq<string>): (r: Result<DamageEffect, Error>)
    ensures r.Success? <==>
      && (|s| == 3 || |s| == 4)
      && ParseInt(s[0]).Some? && ParseInt(s[1]).Some?
      && 0 <= ParseInt(s[0]).value <= ParseInt(s[1]).value
    ensures r.Success? ==>
      && r.value.fromDamage == ParseInt(s[0]).value
      && r.value.toDamage == ParseInt(s[1]).value
      && r.value.effect == s[2]
      && r.value.argument == (if |s| == 4 then Some(s[3]) else None)
    ensures !(|s| == 3 || |s| == 4) ==> r == Failure(FieldCount)
  {
    if !(|s| == 3 || |s| == 4) then Failure(FieldCount)
    else match IntToken(s[0])
      case Failure(e) => Failure(e)
      case Success(low) =>
        match IntToken(s[1])
        case Failure(e) => Failure(e)
        case Success(high) =>
          if low < 0 || high < 0 || high < low then Failure(OutOfRange)
          else Success(DamageEffect(low, high, s[2], if |s| == 3 then None else Some(s[3])))
  }

  // ---------------------------------------------------------------------------
  // Keyed quantities: givesMovement, consumesUnits, createsUnitsList,
  // createsResourcesList, fuelCost
  // ---------------------------------------------------------------------------

  datatype KeyedField = GivesMovement | ConsumesUnits | CreatesUnitsList | CreatesResourcesList | FuelCost

  /** What the name in a keyed quantity must resolve to. */
  function KeyKind(f: KeyedField): EntityKind
  {
    if f == CreatesResourcesList || f == FuelCost then ResourceKind else UnitTypeKind
  }

  /** The counts each field admits: any for givesMovement, at least 0 for fuelCost, at least 1 otherwise. */
  predicate CountAllowed(f: KeyedField, n: int)
  {
    match f
    case GivesMovement => true
    case FuelCost => n >= 0
    case _ => n >= 1
  }

  /**
   * The parsing part of the five "count:name" adders. fuelCost demands two
   * fields; the others reject zero or more than two fields and then read the
   * second field, so a single field runs past the end of the array.
   */
  function KeyedQuantity(f: KeyedField, s: seq<string>, cat: Catalog): (r: Result<(string, int), Error>)
    ensures r.Success? <==>
      && |s| == 2
      && Known(cat, KeyKind(f), s[1])
      && ParseInt(s[0]).Some? && CountAllowed(f, ParseInt(s[0]).value)
    ensures r.Success? ==> r.value == (s[1], ParseInt(s[0]).value)
    ensures |s| == 1 ==> r == Failure(if f == FuelCost then FieldCount else IndexOutOfBounds(1))
    ensures (|s| == 0 || |s| > 2) ==> r == Failure(FieldCount)
    ensures |s| == 2 && !Known(cat, KeyKind(f), s[1]) ==> r == Failure(Unknown(KeyKind(f), s[1]))
  {
    if f == FuelCost && |s| != 2 then Failure(FieldCount)
    else if |s| <= 0 || |s| > 2 then Failure(FieldCount)
    else if |s| == 1 then Failure(IndexOutOfBounds(1))
    else if !Known(cat, KeyKind(f), s[1]) then Failure(Unknown(KeyKind(f), s[1]))
    else match IntToken(s[0])
      case Failure(e) => Failure(e)
      case Success(n) => if CountAllowed(f, n) then Success((s[1], n)) else Failure(OutOfRange)
  }

  // ---------------------------------------------------------------------------
  // whenCapturedChangesInto
  // ---------------------------------------------------------------------------

  /** What a captured unit becomes: whether it keeps its attributes (the raw token) and the units made. */
  datatype Conversion = Conversion(keepAttributes: string, units: map<string, int>)

  /**
   * The "unitType:howMany" pairs from index `i` on, added to `acc` (a repeated
   * type keeps its last count). An unknown type raises an error that names
   * the first type of the record, `s[3]`, whichever type was unknown.
   */
  function UnitsToMake(s: seq<string>, i: nat, acc: map<string, int>, cat: Catalog): (r: Result<map<string, int>, Error>)
    requires |s| % 2 == 1 && i % 2 == 1 && 3 <= i <= |s|
    ensures r.Failure? ==> |s| > 3 && (r.error == Unknown(UnitTypeKind, s[3]) || r.error.NotAnInteger?)
    decreases |s| - i
  {
    if i == |s| then Success(acc)
    else if s[i] !in cat.unitTypes then Failure(Unknown(UnitTypeKind, s[3]))
    else if ParseInt(s[i + 1]).None? then Failure(NotAnInteger(s[i + 1]))
    else UnitsToMake(s, i + 2, acc[s[i] := ParseInt(s[i + 1]).value], cat)
  }

  /** The pair at field `j` names a known unit type followed by an integer count. */
  predicate PairOk(s: seq<string>, j: nat, cat: Catalog)
  {
    j + 1 < |s| && s[j] in cat.unitTypes && ParseInt(s[j + 1]).Some?
  }

  /** The unit types named by the pairs from field `i` on. */
  function PairTypes(s: seq<string>, i: nat): set<string>
  {
    set j | i <= j < |s| && j % 2 == 1 :: s[j]
  }

  /** Field `j` is the type of a pair from field `i` on, and no later pair names the same type. */
  predicate LastPair(s: seq<string>, i: nat, j: int)
  {
    && i <= j && j + 1 < |s| && j % 2 == 1
    && forall k :: j < k < |s| && k % 2 == 1 ==> s[k] != s[j]
  }

  /**
   * The pairs are accepted exactly when every type is known and every count
   * is an integer. The map then holds exactly the named types besides
   * `acc`, each with the count of its last pair, and keeps what `acc` held
   * for the types no pair names.
   */
  lemma UnitsToMakeFacts(s: seq<string>, i: nat, acc: map<string, int>, cat: Catalog)
    requires |s| % 2 == 1 && i % 2 == 1 && 3 <= i <= |s|
    ensures var r := UnitsToMake(s, i, acc, cat);
      && (r.Success? <==> forall j :: i <= j < |s| && j % 2 == 1 ==> PairOk(s, j, cat))
      && (r.Success? ==> r.value.Keys == acc.Keys + PairTypes(s, i))
      && (r.Success? ==> r.value.Keys <= acc.Keys + cat.unitTypes)
      && (r.Success? ==> forall j :: LastPair(s, i, j) ==> s[j] in r.value && Some(r.value[s[j]]) == ParseInt(s[j + 1]))
  {
    UnitsToMakeAccepts(s, i, acc, cat);
    UnitsToMakeKeys(s, i, acc, cat);
    UnitsToMakeValues(s, i, acc, cat);
    var r := UnitsToMake(s, i, acc, cat);
    if r.Success? {
      forall x | x in r.value.Keys && x !in acc.Keys ensures x in cat.unitTypes {
        var j :| i <= j < |s| && j % 2 == 1 && s[j] == x;
        assert PairOk(s, j, cat);
      }
    }
  }

  lemma {:induction false} UnitsToMakeAccepts(s: seq<string>, i: nat, acc: map<string, int>, cat: Catalog)
    requires |s| % 2 == 1 && i % 2 == 1 && 3 <= i <= |s|
    ensures UnitsToMake(s, i, acc, cat).Success? <==> forall j :: i <= j < |s| && j % 2 == 1 ==> PairOk(s, j, cat)
    decreases |s| - i
  {
    if i < |s| {
      PairsFrom(s, i, cat);
      if PairOk(s, i, cat) {
        var acc' := acc[s[i] := ParseInt(s[i + 1]).value];
        UnitsToMakeStep(s, i, acc, cat);
        UnitsToMakeAccepts(s, i + 2, acc', cat);
      } else {
        UnitsToMakeStops(s, i, acc, cat);
      }
    }
  }

  /** A well-formed pair at field `i` puts its type and count into the map and moves on to the next pair. */
  lemma UnitsToMakeStep(s: seq<string>, i: nat, acc: map<string, int>, cat: Catalog)
    requires |s| % 2 == 1 && i % 2 == 1 && 3 <= i < |s| && PairOk(s, i, cat)
    ensures UnitsToMake(s, i, acc, cat) == UnitsToMake(s, i + 2, acc[s[i] := ParseInt(s[i + 1]).value], cat)
  {
  }

  /** A malformed pair at field `i` makes the loop raise. */
  lemma UnitsToMakeStops(s: seq<string>, i: nat, acc: map<string, int>, cat: Catalog)
    requires |s| % 2 == 1 && i % 2 == 1 && 3 <= i < |s| && !PairOk(s, i, cat)
    ensures UnitsToMake(s, i, acc, cat) ==
      Failure(if s[i] !in cat.unitTypes then Unknown(UnitTypeKind, s[3]) else NotAnInteger(s[i + 1]))
  {
  }

  /** Every pair from field `i` on is well formed exactly when the first is and every pair after it is. */
  lemma PairsFrom(s: seq<string>, i: nat, cat: Catalog)
    requires |s| % 2 == 1 && i % 2 == 1 && 3 <= i < |s|
    ensures (forall j :: i <= j < |s| && j % 2 == 1 ==> PairOk(s, j, cat))
        <==> PairOk(s, i, cat) && (forall j :: i + 2 <= j < |s| && j % 2 == 1 ==> PairOk(s, j, cat))
  {
    forall j | i <= j < |s| && j % 2 == 1
      ensures j == i || i + 2 <= j
    {
    }
  }

  /**
   * When the pairs before field `k` are well formed and the one at `k` is
   * not, the loop raises for that pair: the unknown-type error (naming
   * `s[3]`) or the count's integer error.
   */
  lemma {:induction false} UnitsToMakeFailsAt(s: seq<string>, i: nat, acc: map<string, int>, cat: Catalog, k: nat)
    requires |s| % 2 == 1 && i % 2 == 1 && 3 <= i <= k < |s| && k % 2 == 1
    requires forall j :: i <= j < k && j % 2 == 1 ==> PairOk(s, j, cat)
    requires !PairOk(s, k, cat)
    ensures UnitsToMake(s, i, acc, cat) ==
      Failure(if s[k] !in cat.unitTypes then Unknown(UnitTypeKind, s[3]) else NotAnInteger(s[k + 1]))
    decreases |s| - i
  {
    if i < k {
      assert PairOk(s, i, cat);
      var acc' := acc[s[i] := ParseInt(s[i + 1]).value];
      UnitsToMakeStep(s, i, acc, cat);
      UnitsToMakeFailsAt(s, i + 2, acc', cat, k);
    } else {
      UnitsToMakeStops(s, i, acc, cat);
    }
  }

  lemma {:induction false} UnitsToMakeKeys(s: seq<string>, i: nat, acc: map<string, int>, cat: Catalog)
    requires |s| % 2 == 1 && i % 2 == 1 && 3 <= i <= |s|
    ensures var r := UnitsToMake(s, i, acc, cat);
      r.Success? ==> r.value.Keys == acc.Keys + PairTypes(s, i)
    decreases |s| - i
  {
    if i < |s| && PairOk(s, i, cat) {
      var acc' := acc[s[i] := ParseInt(s[i + 1]).value];
      UnitsToMakeStep(s, i, acc, cat);
      UnitsToMakeKeys(s, i + 2, acc', cat);
      TypesFrom(s, i);
    } else if i < |s| {
      UnitsToMakeStops(s, i, acc, cat);
    }
  }

  /** A type of `acc` that no pair names keeps its count. */
  lemma {:induction false} UnitsToMakeKeeps(s: seq<string>, i: nat, acc: map<string, int>, cat: Catalog)
    requires |s| % 2 == 1 && i % 2 == 1 && 3 <= i <= |s|
    ensures var r := UnitsToMake(s, i, acc, cat);
      r.Success? ==> forall t :: t in acc && t !in PairTypes(s, i) ==> t in r.value && r.value[t] == acc[t]
    decreases |s| - i
  {
    if i < |s| && PairOk(s, i, cat) {
      var acc' := acc[s[i] := ParseInt(s[i + 1]).value];
      UnitsToMakeStep(s, i, acc, cat);
      UnitsToMakeKeeps(s, i + 2, acc', cat);
      var r := UnitsToMake(s, i + 2, acc', cat);
      if r.Success? {
        KeptThroughPair(s, i, acc, acc', r.value);
      }
    } else if i < |s| {
      UnitsToMakeStops(s, i, acc, cat);
    }
  }

  /** Each named type holds the count of its last pair. */
  lemma {:induction false} UnitsToMakeValues(s: seq<string>, i: nat, acc: map<string, int>, cat: Catalog)
    requires |s| % 2 == 1 && i % 2 == 1 && 3 <= i <= |s|
    ensures var r := UnitsToMake(s, i, acc, cat);
      r.Success? ==> forall j :: LastPair(s, i, j) ==> s[j] in r.value && Some(r.value[s[j]]) == ParseInt(s[j + 1])
    decreases |s| - i
  {
    if i < |s| && PairOk(s, i, cat) {
      var acc' := acc[s[i] := ParseInt(s[i + 1]).value];
      UnitsToMakeStep(s, i, acc, cat);
      UnitsToMakeValues(s, i + 2, acc', cat);
      UnitsToMakeKeeps(s, i + 2, acc', cat);
      var r := UnitsToMake(s, i + 2, acc', cat);
      if r.Success? {
        LastPairsThroughPair(s, i, acc', r.value);
      }
    } else if i < |s| {
      UnitsToMakeStops(s, i, acc, cat);
    }
  }

  /** A type no pair from `i` on names keeps its count through the pair at `i`. */
  lemma KeptThroughPair(s: seq<string>, i: nat, acc: map<string, int>, acc': map<string, int>, m: map<string, int>)
    requires |s| % 2 == 1 && i % 2 == 1 && 3 <= i < |s|
    requires ParseInt(s[i + 1]).Some? && acc' == acc[s[i] := ParseInt(s[i + 1]).value]
    requires forall t :: t in acc' && t !in PairTypes(s, i + 2) ==> t in m && m[t] == acc'[t]
    ensures forall t :: t in acc && t !in PairTypes(s, i) ==> t in m && m[t] == acc[t]
  {
    TypesFrom(s, i);
  }

  /** The last pair naming each type, seen from `i + 2`, still decides its count seen from `i`. */
  lemma LastPairsThroughPair(s: seq<string>, i: nat, acc': map<string, int>, m: map<string, int>)
    requires |s| % 2 == 1 && i % 2 == 1 && 3 <= i < |s|
    requires ParseInt(s[i + 1]).Some? && s[i] in acc' && acc'[s[i]] == ParseInt(s[i + 1]).value
    requires forall t :: t in acc' && t !in PairTypes(s, i + 2) ==> t in m && m[t] == acc'[t]
    requires forall j :: LastPair(s, i + 2, j) ==> s[j] in m && Some(m[s[j]]) == ParseInt(s[j + 1])
    ensures forall j :: LastPair(s, i, j) ==> s[j] in m && Some(m[s[j]]) == ParseInt(s[j + 1])
  {
    forall j | LastPair(s, i, j) ensures s[j] in m && Some(m[s[j]]) == ParseInt(s[j + 1]) {
      if j == i {
        LastPairFirst(s, i);
      } else {
        LastPairLater(s, i, j);
      }
    }
  }

  lemma LastPairFirst(s: seq<string>, i: nat)
    requires |s| % 2 == 1 && i % 2 == 1 && 3 <= i < |s|
    requires LastPair(s, i, i)
    ensures s[i] !in PairTypes(s, i + 2)
  {
  }

  lemma LastPairLater(s: seq<string>, i: nat, j: int)
    requires LastPair(s, i, j) && j != i && i % 2 == 1
    ensures LastPair(s, i + 2, j)
  {
  }

  /** The type fields from `i` on are the one at `i` and those from `i + 2` on. */
  lemma TypesFrom(s: seq<string>, i: nat)
    requires |s| % 2 == 1 && i % 2 == 1 && 3 <= i < |s|
    ensures PairTypes(s, i) == {s[i]} + PairTypes(s, i + 2)
  {
    assert forall j :: i <= j < |s| && j % 2 == 1 ==> j == i || i + 2 <= j;
  }

  /** A player name of a capture record: a known player or "any". */
  predicate CapturePlayer(cat: Catalog, name: string) { name in cat.players || name == "any" }

  /** The fields before the pairs are well formed: the field count, both players and the flag. */
  predicate CaptureHeaderOk(s: seq<string>, cat: Catalog)
  {
    && |s| >= 5 && |s| % 2 == 1
    && CapturePlayer(cat, s[0]) && CapturePlayer(cat, s[1])
    && ParseBool(s[2]).Some?
  }

  /**
   * The parsing part of `setWhenCapturedChangesInto`:
   * playerFrom:playerTo:keepAttributes:(unitType:howMany)+, keyed by
   * "playerFrom:playerTo". It is accepted exactly when the header is well
   * formed and every pair names a known type and an integer count; the
   * checks run field count, first player, second player, flag, pairs.
   */
  function CaptureRecord(s: seq<string>, cat: Catalog): (r: Result<(string, Conversion), Error>)
    ensures r.Success? <==> CaptureHeaderOk(s, cat) && forall j :: 3 <= j < |s| && j % 2 == 1 ==> PairOk(s, j, cat)
    ensures r.Success? ==>
      && r.value.0 == s[0] + ":" + s[1]
      && r.value.1.keepAttributes == s[2]
      && r.value.1.units.Keys == PairTypes(s, 3)
      && r.value.1.units.Keys <= cat.unitTypes
      && forall j :: LastPair(s, 3, j) ==> Some(r.value.1.units[s[j]]) == ParseInt(s[j + 1])
    ensures (|s| < 5 || |s| % 2 == 0) ==> r == Failure(FieldCount)
    ensures |s| >= 5 && |s| % 2 == 1 && !CapturePlayer(cat, s[0]) ==> r == Failure(Unknown(PlayerKind, s[0]))
    ensures |s| >= 5 && |s| % 2 == 1 && CapturePlayer(cat, s[0]) && !CapturePlayer(cat, s[1]) ==>
      r == Failure(Unknown(PlayerKind, s[1]))
    ensures |s| >= 5 && |s| % 2 == 1 && CapturePlayer(cat, s[0]) && CapturePlayer(cat, s[1]) && ParseBool(s[2]).None? ==>
      r == Failure(NotABoolean(s[2]))
    ensures CaptureHeaderOk(s, cat) && r.Failure? ==> r.error == Unknown(UnitTypeKind, s[3]) || r.error.NotAnInteger?
  {
    if |s| < 5 || (|s| - 1) % 2 != 0 then Failure(FieldCount)
    else if !CapturePlayer(cat, s[0]) then Failure(Unknown(PlayerKind, s[0]))
    else if !CapturePlayer(cat, s[1]) then Failure(Unknown(PlayerKind, s[1]))
    else match BoolToken(s[2])
      case Failure(e) => Failure(e)
      case Success(_) =>
        UnitsToMakeFacts(s, 3, map[], cat);
        match UnitsToMake(s, 3, map[], cat)
        case Failure(e) => Failure(e)
        case Success(units) => Success((s[0] + ":" + s[1], Conversion(s[2], units)))
  }

  /**
   * With a well-formed header, the first malformed pair decides the error:
   * an unknown type reports the record's first type field, a bad count
   * reports that count.
   */
  lemma CaptureRecordPairError(s: seq<string>, cat: Catalog, k: nat)
    requires CaptureHeaderOk(s, cat)
    requires 3 <= k < |s| && k % 2 == 1
    requires forall j :: 3 <= j < k && j % 2 == 1 ==> PairOk(s, j, cat)
    requires !PairOk(s, k, cat)
    ensures CaptureRecord(s, cat) ==
      Failure(if s[k] !in cat.unitTypes then Unknown(UnitTypeKind, s[3]) else NotAnInteger(s[k + 1]))
  {
    UnitsToMakeFailsAt(s, 3, map[], cat, k);
  }

  /** The index of the entry with key `k`, or |entries| if there is none. */
  function KeyIndex<V>(entries: seq<(string, V)>, k: string): (i: nat)
    ensures i <= |entries|
    ensures i < |entries| ==> entries[i].0 == k
    ensures forall j :: 0 <= j < i ==> entries[j].0 != k
  {
    if entries == [] then 0
    else if entries[0].0 == k then 0
    else 1 + KeyIndex(entries[1..], k)
  }

  predicate UniqueKeys<V>(entries: seq<(string, V)>)
  {
    forall a, b :: 0 <= a < b < |entries| ==> entries[a].0 != entries[b].0
  }

  /**
   * `LinkedHashMap.put`: a key already present keeps its place and takes the
   * new value; a new key goes at the end.
   */
  function LinkedPut<V>(entries: seq<(string, V)>, k: string, v: V): (r: seq<(string, V)>)
    ensures KeyIndex(entries, k) < |entries| ==> r == entries[KeyIndex(entries, k) := (k, v)]
    ensures KeyIndex(entries, k) == |entries| ==> r == entries + [(k, v)]
  {
    var i := KeyIndex(entries, k);
    if i < |entries| then entries[i := (k, v)] else entries + [(k, v)]
  }

  /**
   * Putting keeps keys unique, makes `k` map to `v`, and leaves every other
   * key where it was with its old value.
   */
  lemma LinkedPutFacts<V>(entries: seq<(string, V)>, k: string, v: V)
    requires UniqueKeys(entries)
    ensures UniqueKeys(LinkedPut(entries, k, v))
    ensures var r := LinkedPut(entries, k, v); KeyIndex(r, k) < |r| && r[KeyIndex(r, k)] == (k, v)
    ensures forall j :: 0 <= j < |entries| && entries[j].0 != k ==> LinkedPut(entries, k, v)[j] == entries[j]
    ensures |LinkedPut(entries, k, v)| == |entries| + (if KeyIndex(entries, k) < |entries| then 0 else 1)
  {
    var r := LinkedPut(entries, k, v);
    var i := KeyIndex(entries, k);
    if i < |entries| {
      assert r[i].0 == k;
    } else {
      assert r[|entries|].0 == k;
      assert forall j :: 0 <= j < |entries| ==> r[j] == entries[j];
    }
  }

  // ---------------------------------------------------------------------------
  // destroyedWhenCapturedBy / destroyedWhenCapturedFrom
  // ---------------------------------------------------------------------------

  /** Whether the unit dies when captured BY the player or captured FROM the player. */
  datatype CaptureMode = By | From

  datatype DestroyedRule = DestroyedRule(mode: CaptureMode, player: string)

  /**
   * The prefix handling of `setDestroyedWhenCapturedBy`: a leading "BY:" or
   * "FROM:" selects the mode and is cut off, unless a player carries that
   * very name; without a prefix the mode is BY.
   */
  function CaptureModeOf(value: string, cat: Catalog): (r: (CaptureMode, string))
    ensures StartsWith(value, "BY:") && "BY" !in cat.players ==> r == (By, value[3..])
    ensures !(StartsWith(value, "BY:") && "BY" !in cat.players) && StartsWith(value, "FROM:") && "FROM" !in cat.players ==>
      r == (From, value[5..])
    ensures !(StartsWith(value, "BY:") && "BY" !in cat.players) && !(StartsWith(value, "FROM:") && "FROM" !in cat.players) ==>
      r == (By, value)
  {
    if StartsWith(value, "BY:") && "BY" !in cat.players then (By, value[3..])
    else if StartsWith(value, "FROM:") && "FROM" !in cat.players then (From, value[5..])
    else (By, value)
  }

  /**
   * A "BY:" or "FROM:" prefix, when no player is called BY or FROM, selects
   * its mode and leaves exactly the text after it; a value without a prefix
   * is read whole in BY mode.
   */
  lemma CaptureModePrefixes(rest: string, cat: Catalog)
    ensures "BY" !in cat.players ==> CaptureModeOf("BY:" + rest, cat) == (By, rest)
    ensures "FROM" !in cat.players ==> CaptureModeOf("FROM:" + rest, cat) == (From, rest)
    ensures !StartsWith(rest, "BY:") && !StartsWith(rest, "FROM:") ==> CaptureModeOf(rest, cat) == (By, rest)
  {
    assert ("BY:" + rest)[..3] == "BY:" && ("BY:" + rest)[3..] == rest;
    assert ("FROM:" + rest)[..5] == "FROM:" && ("FROM:" + rest)[5..] == rest;
    assert ("FROM:" + rest)[0] != 'B';
  }

  /** `setDestroyedWhenCapturedFrom` puts "FROM:" in front of a value that has neither prefix. */
  function FromPrefixed(value: string): string
  {
    if StartsWith(value, "BY:") || StartsWith(value, "FROM:") then value
    else "FROM:" + value
  }

  /**
   * What the "FROM:" default means: an unprefixed value is read whole in
   * FROM mode (unless a player is called FROM, when the prefix stays part of
   * the names), and a prefixed one is read as `setDestroyedWhenCapturedBy`
   * reads it.
   */
  lemma FromPrefixedMode(value: string, cat: Catalog)
    ensures !StartsWith(value, "BY:") && !StartsWith(value, "FROM:") && "FROM" !in cat.players ==>
      CaptureModeOf(FromPrefixed(value), cat) == (From, value)
    ensures !StartsWith(value, "BY:") && !StartsWith(value, "FROM:") && "FROM" in cat.players ==>
      CaptureModeOf(FromPrefixed(value), cat) == (By, "FROM:" + value)
    ensures StartsWith(value, "BY:") || StartsWith(value, "FROM:") ==>
      CaptureModeOf(FromPrefixed(value), cat) == CaptureModeOf(value, cat)
  {
    CaptureModePrefixes(value, cat);
    var prefixed := "FROM:" + value;
    assert prefixed[0] != 'B' && prefixed[..5] == "FROM:";
  }

  /** One record per player name, all with the same mode. */
  function DestroyedRules(mode: CaptureMode, names: seq<string>): (r: seq<DestroyedRule>)
    ensures |r| == |names|
    ensures forall i :: 0 <= i < |names| ==> r[i] == DestroyedRule(mode, names[i])
  {
    seq(|names|, i requires 0 <= i < |names| => DestroyedRule(mode, names[i]))
  }

  // ---------------------------------------------------------------------------
  // special
  // ---------------------------------------------------------------------------

  /** The only options `setSpecial` admits. */
  const SpecialOptions: set<string> := {"none", "canOnlyPlaceInOriginalTerritories"}

  /** The index of the first name outside `allowed`, or |names| if there is none. */
  function FirstOutside(names: seq<string>, allowed: set<string>): (k: nat)
    ensures k <= |names|
    ensures forall j :: 0 <= j < k ==> names[j] in allowed
    ensures k < |names| ==> names[k] !in allowed
  {
    if names == [] then 0
    else if names[0] !in allowed then 0
    else 1 + FirstOutside(names[1..], allowed)
  }
  /** The scan stops at `i` when every option before `i` is allowed and `i` is the end or a disallowed option. */
  lemma FirstOutsideAt(names: seq<string>, allowed: set<string>, i: nat)
    requires i <= |names|
    requires forall j :: 0 <= j < i ==> names[j] in allowed
    requires i == |names| || names[i] !in allowed
    ensures FirstOutside(names, allowed) == i
  {
  }


  // ---------------------------------------------------------------------------
  // canBeGivenByTerritoryTo
  // ---------------------------------------------------------------------------

  predicate IsBooleanWord(name: string)
  {
    EqualsIgnoreCase(name, "true") || EqualsIgnoreCase(name, "false")
  }

  /** A name the loop of `setCanBeGivenByTerritoryTo` gets past: a player, or "true"/"false" in any case. */
  predicate Givable(name: string, players: set<string>)
  {
    name in players || IsBooleanWord(name)
  }

  /** The index of the first name the loop cannot get past, or |names| if there is none. */
  function FirstUngivable(names: seq<string>, players: set<string>): (k: nat)
    ensures k <= |names|
    ensures forall j :: 0 <= j < k ==> Givable(names[j], players)
    ensures k < |names| ==> !Givable(names[k], players)
  {
    if names == [] then 0
    else if !Givable(names[0], players) then 0
    else 1 + FirstUngivable(names[1..], players)
  }

  /**
   * The list that a run of players and boolean words leaves, read from its
   * end: the players after the last boolean word, or `acc` followed by all
   * of them when there is no boolean word.
   */
  function Kept(acc: seq<string>, names: seq<string>, players: set<string>): seq<string>
    requires forall j :: 0 <= j < |names| ==> Givable(names[j], players)
  {
    if names == [] then acc
    else if Last(names) in players then Kept(acc, DropLast(names), players) + [Last(names)]
    else []
  }

  /** Reading the first name of a run moves it into the starting list, or empties that list for a boolean word. */
  lemma {:induction false} KeptCons(acc: seq<string>, x: string, t: seq<string>, players: set<string>)
    requires Givable(x, players)
    requires forall j :: 0 <= j < |t| ==> Givable(t[j], players)
    ensures Kept(acc, [x] + t, players) == Kept(if x in players then acc + [x] else [], t, players)
  {
    var u := [x] + t;
    if t == [] {
      assert DropLast(u) == [];
    } else {
      assert DropLast(u) == [x] + DropLast(t);
      assert Last(u) == Last(t);
      KeptCons(acc, x, DropLast(t), players);
    }
  }

  /**
   * The loop of `setCanBeGivenByTerritoryTo` from list `acc` over the
   * remaining `names`: a player is appended, "true" or "false" (any case)
   * empties the list, anything else raises naming it and leaves the list as
   * the names before it have built it.
   */
  function GivenTo(acc: seq<string>, names: seq<string>, players: set<string>): (r: (seq<string>, Outcome<Error>))
    ensures forall x :: x in r.0 ==> x in acc || x in players
    ensures r.1.Pass? <==> forall j :: 0 <= j < |names| ==> names[j] in players || IsBooleanWord(names[j])
    ensures (forall j :: 0 <= j < |names| ==> names[j] in players) ==> r == (acc + names, Pass)
    decreases |names|
  {
    if names == [] then
      assert acc + names == acc;
      (acc, Pass)
    else
      var rest := names[1..];
      assert forall j :: 1 <= j < |names| ==> names[j] == rest[j - 1];
      if names[0] in players then
        assert acc + names == (acc + [names[0]]) + rest;
        GivenTo(acc + [names[0]], rest, players)
      else if IsBooleanWord(names[0]) then GivenTo([], rest, players)
      else (acc, Fail(Unknown(PlayerKind, names[0])))
  }

  /**
   * The loop stops at the first name it cannot get past and raises naming
   * it; the list it leaves is what the names before that one build.
   */
  lemma {:induction false} GivenToScan(acc: seq<string>, names: seq<string>, players: set<string>)
    ensures var r := GivenTo(acc, names, players); var k := FirstUngivable(names, players);
      && r.1 == (if k == |names| then Pass else Fail(Unknown(PlayerKind, names[k])))
      && r.0 == Kept(acc, names[..k], players)
    decreases |names|
  {
    if names != [] && Givable(names[0], players) {
      var rest := names[1..];
      var k := FirstUngivable(rest, players);
      assert names[..k + 1] == [names[0]] + rest[..k];
      KeptCons(acc, names[0], rest[..k], players);
      GivenToScan(if names[0] in players then acc + [names[0]] else [], rest, players);
    }
  }

  // ---------------------------------------------------------------------------
  // canInvadeOnlyFrom
  // ---------------------------------------------------------------------------

  /**
   * The parsing part of `setCanInvadeOnlyFrom`: a first field of "none" or
   * "all" (any case) stands for the whole list; an empty split has no first
   * field to look at.
   */
  function InvasionList(s: seq<string>): (r: Result<seq<string>, Error>)
    ensures r.Success? <==> |s| >= 1
    ensures r.Success? ==> |r.value| >= 1
    ensures |s| >= 1 && Lower(s[0]) == "none" ==> r == Success(["none"])
    ensures |s| >= 1 && Lower(s[0]) == "all" ==> r == Success(["all"])
    ensures |s| >= 1 && Lower(s[0]) != "none" && Lower(s[0]) != "all" ==> r == Success(s)
  {
    if |s| == 0 then Failure(IndexOutOfBounds(0))
    else if Lower(s[0]) == "none" then Success(["none"])
    else if Lower(s[0]) == "all" then Success(["all"])
    else Success(s)
  }

  /**
   * The answer of `canInvadeFrom` for a known transport type: an unset or
   * empty list, or one whose first entry is "" or "all", allows every
   * transport; otherwise the transport must be listed.
   */
  function InvadeAllowed(list: Option<seq<string>>, transport: string): (b: bool)
    ensures list.None? ==> b
    ensures list.Some? && (|list.value| == 0 || list.value[0] == "" || list.value[0] == "all") ==> b
    ensures list.Some? && |list.value| >= 1 && list.value[0] != "" && list.value[0] != "all" ==> (b <==> transport in list.value)
  {
    list.None? || |list.value| == 0 || list.value[0] == "" || list.value[0] == "all" || transport in list.value
  }

  /**
   * A list set from "none" (any case) admits no transport but one whose type
   * is literally called "none"; one set from "all" admits every transport.
   */
  lemma InvasionSentinels(value: string, transport: string)
    requires |Split(value)| >= 1
    ensures Lower(Split(value)[0]) == "none" ==> (InvadeAllowed(Some(InvasionList(Split(value)).value), transport) <==> transport == "none")
    ensures Lower(Split(value)[0]) == "all" ==> InvadeAllowed(Some(InvasionList(Split(value)).value), transport)
  {
  }

  // ---------------------------------------------------------------------------
  // unitPlacementOnlyAllowedIn
  // ---------------------------------------------------------------------------

  /** The territories, in map order, that are not among `allowed`. */
  function Complement(territories: seq<string>, allowed: seq<string>): (r: seq<string>)
    ensures forall x :: x in r <==> x in territories && x !in allowed
    ensures |r| <= |territories|
  {
    if territories == [] then []
    else
      var rest := Complement(DropLast(territories), allowed);
      assert territories == DropLast(territories) + [Last(territories)];
      if Last(territories) in allowed then rest else rest + [Last(territories)]
  }

  /**
   * When no territory name is empty or holds a colon, the restriction list
   * that `setUnitPlacementOnlyAllowedIn` stores is exactly the complement
   * (or [""] when every territory is allowed).
   */
  lemma {:induction false} RestrictionsAreComplement(territories: seq<string>, allowed: seq<string>)
    requires forall i :: 0 <= i < |territories| ==> territories[i] != "" && ColonFree(territories[i])
    ensures var c := Complement(territories, allowed);
      Split(Join(c)) == if c == [] then [""] else c
  {
    var c := Complement(territories, allowed);
    if c != [] {
      forall i | 0 <= i < |c| ensures c[i] != "" && ColonFree(c[i]) {
        assert c[i] in territories;
      }
      SplitJoin(c);
    }
  }
}
