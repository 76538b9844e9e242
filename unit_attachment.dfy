/**
 * The unit attachment: the property record of one unit type. Map loading
 * fills it through string setters, `validate` checks it once, and play
 * queries it through the derivations.
 *
 * Every Java field becomes a field with the same default. A setter returns
 * `Fail(e)` where the Java method throws, and changes exactly what the Java
 * method has changed by then. The catalog of names, the querying player and
 * the rule configuration are parameters.
 */
module UnitAttachments {
  import opened Wrappers
  import opened Tokens
  import opened GameData
  import opened Resolution
  import opened AttachmentValues

  function Min(a: int, b: int): int { if a <= b then a else b }

  /** Whether the constructionType field means "no construction type". */
  predicate NoConstructionType(t: string) { t == "none" || t == "" }

  // ---------------------------------------------------------------------------
  // The per-element checks of `validate` over its list-valued fields
  // ---------------------------------------------------------------------------

  /** A required unit combination must name known unit types only. */
  function ComboCheck(cat: Catalog): (r: seq<string> -> Option<Error>)
    ensures forall combo :: r(combo).None? <==> forall u :: u in combo ==> u in cat.unitTypes
  {
    combo => Listed(cat, UnitTypeKind, combo)
  }

  /** A transport a unit may invade from must be a known unit type with an attachment. */
  function TransportCheck(cat: Catalog): (r: string -> Option<Error>)
    ensures forall t :: r(t).None? <==> t in cat.unitTypes && t in cat.attached
    ensures forall t :: t !in cat.unitTypes ==> r(t) == Some(Unknown(UnitTypeKind, t))
  {
    t => if t !in cat.unitTypes then Some(Unknown(UnitTypeKind, t))
         else if t !in cat.attached then Some(NoAttachments(t))
         else None
  }

  /** "ability:unitType", where the only ability so far is canBlitz. */
  function AbilityCheck(cat: Catalog): (r: string -> Option<Error>)
    ensures forall e :: r(e).None? <==> |Split(e)| == 2 && Split(e)[1] in cat.unitTypes && Split(e)[0] == "canBlitz"
    ensures forall e :: |Split(e)| != 2 ==> r(e) == Some(Invalid(ReceivesAbilityParts))
  {
    e => var s := Split(e);
         if |s| != 2 then Some(Invalid(ReceivesAbilityParts))
         else if s[1] !in cat.unitTypes then Some(Unknown(UnitTypeKind, s[1]))
         else if s[0] != "canBlitz" then Some(Invalid(ReceivesAbilityTag))
         else None
  }

  /** A combat-damage effect must be one of the two named constants. */
  function EffectCheck(d: DamageEffect): (r: Option<Error>)
    ensures r.None? <==> d.effect in {UnitsMayNotLandOnCarrier, UnitsMayNotLeaveAlliedCarrier}
    ensures r.Some? ==> r.value.Invalid?
  {
    if d.effect == UnitsMayNotLandOnCarrier || d.effect == UnitsMayNotLeaveAlliedCarrier then None
    else Some(Invalid(CombatDamagedEffect))
  }

  /** The canInvadeOnlyFrom rule of `validate`: skipped for "all" and "none". */
  function InvasionViolation(cat: Catalog, list: Option<seq<string>>): (r: Option<Error>)
    ensures r.None? <==> (list.None? || (|list.value| >= 1 &&
      (list.value[0] == "all" || list.value[0] == "none" ||
       forall t :: t in list.value ==> t in cat.unitTypes && t in cat.attached)))
  {
    if list.None? then None
    else if |list.value| == 0 then Some(IndexOutOfBounds(0))
    else if list.value[0] == "all" || list.value[0] == "none" then None
    else FirstFailure(list.value, TransportCheck(cat))
  }

  /**
   * The parsing part of `setWhenCapturedChangesInto`: the field count, both
   * players, the keepAttributes flag, then the unitType:howMany pairs.
   */
  method ParseCaptureRecord(s: seq<string>, cat: Catalog) returns (r: Result<(string, Conversion), Error>)
    ensures r == CaptureRecord(s, cat)
  {
    if |s| < 5 || (|s| - 1) % 2 != 0 {
      return Failure(FieldCount);
    }
    if !CapturePlayer(cat, s[0]) {
      return Failure(Unknown(PlayerKind, s[0]));
    }
    if !CapturePlayer(cat, s[1]) {
      return Failure(Unknown(PlayerKind, s[1]));
    }
    var keep := BoolToken(s[2]);
    if keep.Failure? {
      return Failure(keep.error);
    }
    var units := ParseUnitPairs(s, cat);
    if units.Failure? {
      return Failure(units.error);
    }
    return Success((s[0] + ":" + s[1], Conversion(s[2], units.value)));
  }

  /** The loop over the unitType:howMany pairs of `setWhenCapturedChangesInto`, from field 3 on. */
  method ParseUnitPairs(s: seq<string>, cat: Catalog) returns (r: Result<map<string, int>, Error>)
    requires |s| >= 5 && |s| % 2 == 1
    ensures r == UnitsToMake(s, 3, map[], cat)
  {
    var units: map<string, int> := map[];
    var i := 3;
    while i < |s|
      invariant 3 <= i <= |s| && i % 2 == 1
      invariant UnitsToMake(s, 3, map[], cat) == UnitsToMake(s, i, units, cat)
      decreases |s| - i
    {
      if s[i] !in cat.unitTypes {
        return Failure(Unknown(UnitTypeKind, s[3]));
      }
      var howMany := IntToken(s[i + 1]);
      if howMany.Failure? {
        return Failure(howMany.error);
      }
      assert UnitsToMake(s, i, units, cat) == UnitsToMake(s, i + 2, units[s[i] := howMany.value], cat);
      units := units[s[i] := howMany.value];
      i := i + 2;
    }
    return Success(units);
  }

  /**
   * The loop of `setSpecial`: the options it adds before the first one
   * outside the allowed two, which raises.
   */
  method CollectSpecial(names: seq<string>) returns (added: set<string>, r: Outcome<Error>)
    ensures var k := FirstOutside(names, SpecialOptions);
      && added == (set j | 0 <= j < k :: names[j])
      && r == (if k == |names| then Pass else Fail(NotAllowed(names[k])))
    ensures added <= SpecialOptions
  {
    added := {};
    var i := 0;
    while i < |names|
      invariant 0 <= i <= |names|
      invariant added == (set j | 0 <= j < i :: names[j])
      invariant forall j :: 0 <= j < i ==> names[j] in SpecialOptions
    {
      if !(names[i] == "none" || names[i] == "canOnlyPlaceInOriginalTerritories") {
        FirstOutsideAt(names, SpecialOptions, i);
        return added, Fail(NotAllowed(names[i]));
      }
      added := added + {names[i]};
      assert (set j | 0 <= j < i + 1 :: names[j]) == (set j | 0 <= j < i :: names[j]) + {names[i]};
      i := i + 1;
    }
    FirstOutsideAt(names, SpecialOptions, i);
    return added, Pass;
  }

  /** The inner loop of `setUnitPlacementOnlyAllowedIn`: whether any allowed name matches the territory. */
  method AnyMatches(allowed: seq<string>, item: string) returns (matched: bool)
    ensures matched <==> item in allowed
  {
    matched := false;
    var j := 0;
    while j < |allowed|
      invariant 0 <= j <= |allowed|
      invariant matched <==> item in allowed[..j]
    {
      if allowed[j] == item {
        matched := true;
      }
      assert allowed[..j + 1] == allowed[..j] + [allowed[j]];
      j := j + 1;
    }
    assert allowed[..j] == allowed;
  }

  /** The text the loop of `setUnitPlacementOnlyAllowedIn` has built for the names `c`: ":" before each name. */
  function Prefixed(c: seq<string>): string
  {
    if c == [] then "" else ":" + Join(c)
  }

  /** Adding one territory at the end extends the complement by it, unless it is allowed. */
  lemma ComplementSnoc(territories: seq<string>, allowed: seq<string>, i: nat)
    requires i < |territories|
    ensures Complement(territories[..i + 1], allowed) ==
      if territories[i] in allowed then Complement(territories[..i], allowed)
      else Complement(territories[..i], allowed) + [territories[i]]
  {
    assert DropLast(territories[..i + 1]) == territories[..i];
  }

  /** Writing out one more name appends ":" and the name. */
  lemma PrefixedSnoc(c: seq<string>, x: string)
    ensures Prefixed(c + [x]) == Prefixed(c) + ":" + x
  {
    if c != [] {
      assert DropLast(c + [x]) == c;
    }
  }

  /**
   * The outer loop of `setUnitPlacementOnlyAllowedIn`: a ":" and the name of
   * every territory that no allowed name matches, in map order, then the
   * first ":" removed.
   */
  method RestrictedList(territories: seq<string>, allowed: seq<string>) returns (restricted: string)
    ensures restricted == Join(Complement(territories, allowed))
  {
    restricted := "";
    var i := 0;
    while i < |territories|
      invariant 0 <= i <= |territories|
      invariant restricted == Prefixed(Complement(territories[..i], allowed))
    {
      var item := territories[i];
      var matched := AnyMatches(allowed, item);
      ComplementSnoc(territories, allowed, i);
      if !matched {
        PrefixedSnoc(Complement(territories[..i], allowed), item);
        restricted := restricted + ":" + item;
      }
      i := i + 1;
    }
    assert territories[..i] == territories;
    if restricted != "" {
      restricted := restricted[1..];
    }
  }

  class UnitAttachment {
    /** The unit type this attachment belongs to, once attached. */
    var attachedTo: Option<string>

    // movement
    var isAir: bool
    var isSea: bool
    var movement: int
    var canBlitz: bool
    var isKamikaze: bool
    var canInvadeOnlyFrom: Option<seq<string>>
    var fuelCost: map<string, int>
    var canNotMoveDuringCombatMove: bool
    var stackingLimit: Option<StackingLimit>

    // combat
    var attack: int
    var defense: int
    var isInfrastructure: bool
    var canBombard: bool
    var bombard: int
    var isSub: bool
    var isDestroyer: bool
    var isArtillery: bool
    var isArtillerySupportable: bool
    var unitSupportCount: int
    var isMarine: bool
    var isSuicide: bool

    // transportation
    var isCombatTransport: bool
    var transportCapacity: int
    var transportCost: int
    var carrierCapacity: int
    var carrierCost: int
    var isAirTransport: bool
    var isAirTransportable: bool
    var isInfantry: bool
    var isLandTransport: bool

    // anti-aircraft
    var isAA: bool
    var isAAforCombatOnly: bool
    var isAAforBombingThisUnitOnly: bool
    var isRocket: bool
    var attackAA: int
    var attackAAmaxDieSides: int

    // strategic bombing
    var isStrategicBomber: bool
    var bombingMaxDieSides: int
    var bombingBonus: int
    var canIntercept: bool
    var canEscort: bool
    var airDefense: int
    var airAttack: int

    // production
    var isFactory: bool
    var canProduceUnits: bool
    var canProduceXUnits: int
    var createsUnitsList: map<string, int>
    var createsResourcesList: map<string, int>

    // damage
    var isTwoHit: bool
    var canBeDamaged: bool
    var maxDamage: int
    var maxOperationalDamage: int
    var canDieFromReachingMaxDamage: bool

    // placement
    var isConstruction: bool
    var constructionType: string
    var constructionsPerTerrPerTypePerTurn: int
    var maxConstructionsPerTypePerTerr: int
    var canOnlyBePlacedInTerritoryValuedAtX: int
    var requiresUnits: seq<seq<string>>
    var consumesUnits: map<string, int>
    var unitPlacementRestrictions: Option<seq<string>>
    var maxBuiltPerPlayer: int

    // scrambling
    var canScramble: bool
    var isAirBase: bool
    var maxScrambleDistance: int
    var maxScrambleCount: int

    // special abilities
    var blockade: int
    var repairsUnits: Option<seq<string>>
    var givesMovement: map<string, int>
    var destroyedWhenCapturedBy: seq<DestroyedRule>
    /** A LinkedHashMap keyed by "playerFrom:playerTo": entries in insertion order, keys unique. */
    var whenCapturedChangesInto: seq<(string, Conversion)>
    var canBeCapturedOnEnteringBy: seq<string>
    var canBeGivenByTerritoryTo: seq<string>
    var whenCombatDamaged: seq<DamageEffect>
    var receivesAbilityWhenWith: seq<string>
    var special: set<string>

    /**
     * What the setters guarantee about the record-valued fields: an invasion
     * list is never empty, a stacking limit is a non-negative 32-bit count,
     * damage ranges are ordered, the counted maps hold only admitted counts,
     * capture keys are unique and special options come from the allowed two.
     */
    ghost predicate Valid()
      reads this`canInvadeOnlyFrom, this`stackingLimit, this`whenCombatDamaged,
            this`consumesUnits, this`createsUnitsList, this`createsResourcesList,
            this`fuelCost, this`whenCapturedChangesInto, this`special
    {
      && (canInvadeOnlyFrom.Some? ==> |canInvadeOnlyFrom.value| >= 1)
      && (stackingLimit.Some? ==> 0 <= stackingLimit.value.max <= MaxInt)
      && (forall d :: d in whenCombatDamaged ==> 0 <= d.fromDamage <= d.toDamage)
      && (forall k :: k in consumesUnits ==> consumesUnits[k] >= 1)
      && (forall k :: k in createsUnitsList ==> createsUnitsList[k] >= 1)
      && (forall k :: k in createsResourcesList ==> createsResourcesList[k] >= 1)
      && (forall k :: k in fuelCost ==> fuelCost[k] >= 0)
      && UniqueKeys(whenCapturedChangesInto)
      && special <= SpecialOptions
    }

    /** The defaults of a freshly created attachment. */
    ghost predicate HasDefaults()
      reads this
    {
      && !isAir && !isSea && movement == 0 && !canBlitz && !isKamikaze
      && canInvadeOnlyFrom == None && fuelCost == map[] && !canNotMoveDuringCombatMove && stackingLimit == None
      && attack == 0 && defense == 0 && !isInfrastructure && !canBombard && bombard == -1
      && !isSub && !isDestroyer && !isArtillery && !isArtillerySupportable && unitSupportCount == -1
      && !isMarine && !isSuicide
      && !isCombatTransport && transportCapacity == -1 && transportCost == -1
      && carrierCapacity == -1 && carrierCost == -1
      && !isAirTransport && !isAirTransportable && !isInfantry && !isLandTransport
      && !isAA && !isAAforCombatOnly && !isAAforBombingThisUnitOnly && !isRocket
      && attackAA == 1 && attackAAmaxDieSides == -1
      && !isStrategicBomber && bombingMaxDieSides == -1 && bombingBonus == -1
      && !canIntercept && !canEscort && airDefense == 0 && airAttack == 0
      && !isFactory && !canProduceUnits && canProduceXUnits == -1
      && createsUnitsList == map[] && createsResourcesList == map[]
      && !isTwoHit && !canBeDamaged && maxDamage == -1 && maxOperationalDamage == -1
      && !canDieFromReachingMaxDamage
      && !isConstruction && constructionType == "none"
      && constructionsPerTerrPerTypePerTurn == -1 && maxConstructionsPerTypePerTerr == -1
      && canOnlyBePlacedInTerritoryValuedAtX == -1
      && requiresUnits == [] && consumesUnits == map[] && unitPlacementRestrictions == None
      && maxBuiltPerPlayer == -1
      && !canScramble && !isAirBase && maxScrambleDistance == -1 && maxScrambleCount == -1
      && blockade == 0 && repairsUnits == None && givesMovement == map[]
      && destroyedWhenCapturedBy == [] && whenCapturedChangesInto == []
      && canBeCapturedOnEnteringBy == [] && canBeGivenByTerritoryTo == []
      && whenCombatDamaged == [] && receivesAbilityWhenWith == [] && special == {}
    }

    /** A new attachment with every field at its default, attached to `attachedTo` if given. */
    constructor (attachedTo: Option<string>)
      ensures this.attachedTo == attachedTo
      ensures HasDefaults()
      ensures Valid()
    {
      this.attachedTo := attachedTo;
      isAir, isSea, movement, canBlitz, isKamikaze := false, false, 0, false, false;
      canInvadeOnlyFrom, fuelCost, canNotMoveDuringCombatMove, stackingLimit := None, map[], false, None;
      attack, defense, isInfrastructure, canBombard, bombard := 0, 0, false, false, -1;
      isSub, isDestroyer, isArtillery, isArtillerySupportable, unitSupportCount := false, false, false, false, -1;
      isMarine, isSuicide := false, false;
      isCombatTransport, transportCapacity, transportCost, carrierCapacity, carrierCost := false, -1, -1, -1, -1;
      isAirTransport, isAirTransportable, isInfantry, isLandTransport := false, false, false, false;
      isAA, isAAforCombatOnly, isAAforBombingThisUnitOnly, isRocket := false, false, false, false;
      attackAA, attackAAmaxDieSides := 1, -1;
      isStrategicBomber, bombingMaxDieSides, bombingBonus := false, -1, -1;
      canIntercept, canEscort, airDefense, airAttack := false, false, 0, 0;
      isFactory, canProduceUnits, canProduceXUnits := false, false, -1;
      createsUnitsList, createsResourcesList := map[], map[];
      isTwoHit, canBeDamaged, maxDamage, maxOperationalDamage := false, false, -1, -1;
      canDieFromReachingMaxDamage := false;
      isConstruction, constructionType := false, "none";
      constructionsPerTerrPerTypePerTurn, maxConstructionsPerTypePerTerr := -1, -1;
      canOnlyBePlacedInTerritoryValuedAtX := -1;
      requiresUnits, consumesUnits, unitPlacementRestrictions, maxBuiltPerPlayer := [], map[], None, -1;
      canScramble, isAirBase, maxScrambleDistance, maxScrambleCount := false, false, -1, -1;
      blockade, repairsUnits, givesMovement := 0, None, map[];
      destroyedWhenCapturedBy, whenCapturedChangesInto := [], [];
      canBeCapturedOnEnteringBy, canBeGivenByTerritoryTo := [], [];
      whenCombatDamaged, receivesAbilityWhenWith, special := [], [], {};
    }

    // -------------------------------------------------------------------------
    // Set-style setters: one token, one field
    // -------------------------------------------------------------------------

    /** Kept so that old maps still load; the token is ignored. */
    method SetIsParatroop(value: string) returns (r: Outcome<Error>)
      ensures r == Pass
    {
      return Pass;
    }

    /** Kept so that old maps still load; the token is ignored. */
    method SetIsMechanized(value: string) returns (r: Outcome<Error>)
      ensures r == Pass
    {
      return Pass;
    }

    /** The construction type is stored as given, without parsing. */
    method SetConstructionType(value: string)
      modifies this`constructionType
      ensures constructionType == value
    {
      constructionType := value;
    }

    method SetCanIntercept(value: string) returns (r: Outcome<Error>)
      modifies this`canIntercept
      ensures r == StatusOf(BoolToken(value))
      ensures canIntercept == BoolToken(value).GetOr(old(canIntercept))
    {
      var b := BoolToken(value);
      if b.Failure? { return Fail(b.error); }
      canIntercept := b.value;
      return Pass;
    }

    method SetCanEscort(value: string) returns (r: Outcome<Error>)
      modifies this`canEscort
      ensures r == StatusOf(BoolToken(value))
      ensures canEscort == BoolToken(value).GetOr(old(canEscort))
    {
      var b := BoolToken(value);
      if b.Failure? { return Fail(b.error); }
      canEscort := b.value;
      return Pass;
    }

    method SetIsAirTransport(value: string) returns (r: Outcome<Error>)
      modifies this`isAirTransport
      ensures r == StatusOf(BoolToken(value))
      ensures isAirTransport == BoolToken(value).GetOr(old(isAirTransport))
    {
      var b := BoolToken(value);
      if b.Failure? { return Fail(b.error); }
      isAirTransport := b.value;
      return Pass;
    }

    method SetIsAirTransportable(value: string) returns (r: Outcome<Error>)
      modifies this`isAirTransportable
      ensures r == StatusOf(BoolToken(value))
      ensures isAirTransportable == BoolToken(value).GetOr(old(isAirTransportable))
    {
      var b := BoolToken(value);
      if b.Failure? { return Fail(b.error); }
      isAirTransportable := b.value;
      return Pass;
    }

    method SetCanBlitz(value: string) returns (r: Outcome<Error>)
      modifies this`canBlitz
      ensures r == StatusOf(BoolToken(value))
      ensures canBlitz == BoolToken(value).GetOr(old(canBlitz))
    {
      var b := BoolToken(value);
      if b.Failure? { return Fail(b.error); }
      canBlitz := b.value;
      return Pass;
    }

    method SetIsSub(value: string) returns (r: Outcome<Error>)
      modifies this`isSub
      ensures r == StatusOf(BoolToken(value))
      ensures isSub == BoolToken(value).GetOr(old(isSub))
    {
      var b := BoolToken(value);
      if b.Failure? { return Fail(b.error); }
      isSub := b.value;
      return Pass;
    }

    method SetIsCombatTransport(value: string) returns (r: Outcome<Error>)
      modifies this`isCombatTransport
      ensures r == StatusOf(BoolToken(value))
      ensures isCombatTransport == BoolToken(value).GetOr(old(isCombatTransport))
    {
      var b := BoolToken(value);
      if b.Failure? { return Fail(b.error); }
      isCombatTransport := b.value;
      return Pass;
    }

    method SetIsStrategicBomber(value: string) returns (r: Outcome<Error>)
      modifies this`isStrategicBomber
      ensures r == StatusOf(BoolToken(value))
      ensures isStrategicBomber == BoolToken(value).GetOr(old(isStrategicBomber))
    {
      var b := BoolToken(value);
      if b.Failure? { return Fail(b.error); }
      isStrategicBomber := b.value;
      return Pass;
    }

    method SetIsDestroyer(value: string) returns (r: Outcome<Error>)
      modifies this`isDestroyer
      ensures r == StatusOf(BoolToken(value))
      ensures isDestroyer == BoolToken(value).GetOr(old(isDestroyer))
    {
      var b := BoolToken(value);
      if b.Failure? { return Fail(b.error); }
      isDestroyer := b.value;
      return Pass;
    }

    method SetCanBombard(value: string) returns (r: Outcome<Error>)
      modifies this`canBombard
      ensures r == StatusOf(BoolToken(value))
      ensures canBombard == BoolToken(value).GetOr(old(canBombard))
    {
      var b := BoolToken(value);
      if b.Failure? { return Fail(b.error); }
      canBombard := b.value;
      return Pass;
    }

    method SetIsAir(value: string) returns (r: Outcome<Error>)
      modifies this`isAir
      ensures r == StatusOf(BoolToken(value))
      ensures isAir == BoolToken(value).GetOr(old(isAir))
    {
      var b := BoolToken(value);
      if b.Failure? { return Fail(b.error); }
      isAir := b.value;
      return Pass;
    }

    method SetIsSea(value: string) returns (r: Outcome<Error>)
      modifies this`isSea
      ensures r == StatusOf(BoolToken(value))
      ensures isSea == BoolToken(value).GetOr(old(isSea))
    {
      var b := BoolToken(value);
      if b.Failure? { return Fail(b.error); }
      isSea := b.value;
      return Pass;
    }

    method SetIsFactory(value: string) returns (r: Outcome<Error>)
      modifies this`isFactory
      ensures r == StatusOf(BoolToken(value))
      ensures isFactory == BoolToken(value).GetOr(old(isFactory))
    {
      var b := BoolToken(value);
      if b.Failure? { return Fail(b.error); }
      isFactory := b.value;
      return Pass;
    }

    method SetCanProduceUnits(value: string) returns (r: Outcome<Error>)
      modifies this`canProduceUnits
      ensures r == StatusOf(BoolToken(value))
      ensures canProduceUnits == BoolToken(value).GetOr(old(canProduceUnits))
    {
      var b := BoolToken(value);
      if b.Failure? { return Fail(b.error); }
      canProduceUnits := b.value;
      return Pass;
    }

    method SetIsConstruction(value: string) returns (r: Outcome<Error>)
      modifies this`isConstruction
      ensures r == StatusOf(BoolToken(value))
      ensures isConstruction == BoolToken(value).GetOr(old(isConstruction))
    {
      var b := BoolToken(value);
      if b.Failure? { return Fail(b.error); }
      isConstruction := b.value;
      return Pass;
    }

    method SetIsMarine(value: string) returns (r: Outcome<Error>)
      modifies this`isMarine
      ensures r == StatusOf(BoolToken(value))
      ensures isMarine == BoolToken(value).GetOr(old(isMarine))
    {
      var b := BoolToken(value);
      if b.Failure? { return Fail(b.error); }
      isMarine := b.value;
      return Pass;
    }

    method SetIsInfantry(value: string) returns (r: Outcome<Error>)
      modifies this`isInfantry
      ensures r == StatusOf(BoolToken(value))
      ensures isInfantry == BoolToken(value).GetOr(old(isInfantry))
    {
      var b := BoolToken(value);
      if b.Failure? { return Fail(b.error); }
      isInfantry := b.value;
      return Pass;
    }

    method SetIsLandTransport(value: string) returns (r: Outcome<Error>)
      modifies this`isLandTransport
      ensures r == StatusOf(BoolToken(value))
      ensures isLandTransport == BoolToken(value).GetOr(old(isLandTransport))
    {
      var b := BoolToken(value);
      if b.Failure? { return Fail(b.error); }
      isLandTransport := b.value;
      return Pass;
    }

    method SetIsTwoHit(value: string) returns (r: Outcome<Error>)
      modifies this`isTwoHit
      ensures r == StatusOf(BoolToken(value))
      ensures isTwoHit == BoolToken(value).GetOr(old(isTwoHit))
    {
      var b := BoolToken(value);
      if b.Failure? { return Fail(b.error); }
      isTwoHit := b.value;
      return Pass;
    }

    method SetArtillery(value: string) returns (r: Outcome<Error>)
      modifies this`isArtillery
      ensures r == StatusOf(BoolToken(value))
      ensures isArtillery == BoolToken(value).GetOr(old(isArtillery))
    {
      var b := BoolToken(value);
      if b.Failure? { return Fail(b.error); }
      isArtillery := b.value;
      return Pass;
    }

    method SetArtillerySupportable(value: string) returns (r: Outcome<Error>)
      modifies this`isArtillerySupportable
      ensures r == StatusOf(BoolToken(value))
      ensures isArtillerySupportable == BoolToken(value).GetOr(old(isArtillerySupportable))
    {
      var b := BoolToken(value);
      if b.Failure? { return Fail(b.error); }
      isArtillerySupportable := b.value;
      return Pass;
    }

    method SetCanScramble(value: string) returns (r: Outcome<Error>)
      modifies this`canScramble
      ensures r == StatusOf(BoolToken(value))
      ensures canScramble == BoolToken(value).GetOr(old(canScramble))
    {
      var b := BoolToken(value);
      if b.Failure? { return Fail(b.error); }
      canScramble := b.value;
      return Pass;
    }

    method SetIsAirBase(value: string) returns (r: Outcome<Error>)
      modifies this`isAirBase
      ensures r == StatusOf(BoolToken(value))
      ensures isAirBase == BoolToken(value).GetOr(old(isAirBase))
    {
      var b := BoolToken(value);
      if b.Failure? { return Fail(b.error); }
      isAirBase := b.value;
      return Pass;
    }

    method SetIsInfrastructure(value: string) returns (r: Outcome<Error>)
      modifies this`isInfrastructure
      ensures r == StatusOf(BoolToken(value))
      ensures isInfrastructure == BoolToken(value).GetOr(old(isInfrastructure))
    {
      var b := BoolToken(value);
      if b.Failure? { return Fail(b.error); }
      isInfrastructure := b.value;
      return Pass;
    }

    method SetCanBeDamaged(value: string) returns (r: Outcome<Error>)
      modifies this`canBeDamaged
      ensures r == StatusOf(BoolToken(value))
      ensures canBeDamaged == BoolToken(value).GetOr(old(canBeDamaged))
    {
      var b := BoolToken(value);
      if b.Failure? { return Fail(b.error); }
      canBeDamaged := b.value;
      return Pass;
    }

    method SetCanDieFromReachingMaxDamage(value: string) returns (r: Outcome<Error>)
      modifies this`canDieFromReachingMaxDamage
      ensures r == StatusOf(BoolToken(value))
      ensures canDieFromReachingMaxDamage == BoolToken(value).GetOr(old(canDieFromReachingMaxDamage))
    {
      var b := BoolToken(value);
      if b.Failure? { return Fail(b.error); }
      canDieFromReachingMaxDamage := b.value;
      return Pass;
    }

    method SetIsSuicide(value: string) returns (r: Outcome<Error>)
      modifies this`isSuicide
      ensures r == StatusOf(BoolToken(value))
      ensures isSuicide == BoolToken(value).GetOr(old(isSuicide))
    {
      var b := BoolToken(value);
      if b.Failure? { return Fail(b.error); }
      isSuicide := b.value;
      return Pass;
    }

    method SetIsKamikaze(value: string) returns (r: Outcome<Error>)
      modifies this`isKamikaze
      ensures r == StatusOf(BoolToken(value))
      ensures isKamikaze == BoolToken(value).GetOr(old(isKamikaze))
    {
      var b := BoolToken(value);
      if b.Failure? { return Fail(b.error); }
      isKamikaze := b.value;
      return Pass;
    }

    method SetIsAAforCombatOnly(value: string) returns (r: Outcome<Error>)
      modifies this`isAAforCombatOnly
      ensures r == StatusOf(BoolToken(value))
      ensures isAAforCombatOnly == BoolToken(value).GetOr(old(isAAforCombatOnly))
    {
      var b := BoolToken(value);
      if b.Failure? { return Fail(b.error); }
      isAAforCombatOnly := b.value;
      return Pass;
    }

    method SetIsAAforBombingThisUnitOnly(value: string) returns (r: Outcome<Error>)
      modifies this`isAAforBombingThisUnitOnly
      ensures r == StatusOf(BoolToken(value))
      ensures isAAforBombingThisUnitOnly == BoolToken(value).GetOr(old(isAAforBombingThisUnitOnly))
    {
      var b := BoolToken(value);
      if b.Failure? { return Fail(b.error); }
      isAAforBombingThisUnitOnly := b.value;
      return Pass;
    }

    method SetIsRocket(value: string) returns (r: Outcome<Error>)
      modifies this`isRocket
      ensures r == StatusOf(BoolToken(value))
      ensures isRocket == BoolToken(value).GetOr(old(isRocket))
    {
      var b := BoolToken(value);
      if b.Failure? { return Fail(b.error); }
      isRocket := b.value;
      return Pass;
    }

    method SetCanNotMoveDuringCombatMove(value: string) returns (r: Outcome<Error>)
      modifies this`canNotMoveDuringCombatMove
      ensures r == StatusOf(BoolToken(value))
      ensures canNotMoveDuringCombatMove == BoolToken(value).GetOr(old(canNotMoveDuringCombatMove))
    {
      var b := BoolToken(value);
      if b.Failure? { return Fail(b.error); }
      canNotMoveDuringCombatMove := b.value;
      return Pass;
    }

    method SetAirDefense(value: string) returns (r: Outcome<Error>)
      modifies this`airDefense
      ensures r == StatusOf(IntToken(value))
      ensures airDefense == IntToken(value).GetOr(old(airDefense))
    {
      var n := IntToken(value);
      if n.Failure? { return Fail(n.error); }
      airDefense := n.value;
      return Pass;
    }

    method SetAirAttack(value: string) returns (r: Outcome<Error>)
      modifies this`airAttack
      ensures r == StatusOf(IntToken(value))
      ensures airAttack == IntToken(value).GetOr(old(airAttack))
    {
      var n := IntToken(value);
      if n.Failure? { return Fail(n.error); }
      airAttack := n.value;
      return Pass;
    }

    method SetCanProduceXUnits(value: string) returns (r: Outcome<Error>)
      modifies this`canProduceXUnits
      ensures r == StatusOf(IntToken(value))
      ensures canProduceXUnits == IntToken(value).GetOr(old(canProduceXUnits))
    {
      var n := IntToken(value);
      if n.Failure? { return Fail(n.error); }
      canProduceXUnits := n.value;
      return Pass;
    }

    method SetCanOnlyBePlacedInTerritoryValuedAtX(value: string) returns (r: Outcome<Error>)
      modifies this`canOnlyBePlacedInTerritoryValuedAtX
      ensures r == StatusOf(IntToken(value))
      ensures canOnlyBePlacedInTerritoryValuedAtX == IntToken(value).GetOr(old(canOnlyBePlacedInTerritoryValuedAtX))
    {
      var n := IntToken(value);
      if n.Failure? { return Fail(n.error); }
      canOnlyBePlacedInTerritoryValuedAtX := n.value;
      return Pass;
    }

    method SetConstructionsPerTerrPerTypePerTurn(value: string) returns (r: Outcome<Error>)
      modifies this`constructionsPerTerrPerTypePerTurn
      ensures r == StatusOf(IntToken(value))
      ensures constructionsPerTerrPerTypePerTurn == IntToken(value).GetOr(old(constructionsPerTerrPerTypePerTurn))
    {
      var n := IntToken(value);
      if n.Failure? { return Fail(n.error); }
      constructionsPerTerrPerTypePerTurn := n.value;
      return Pass;
    }

    method SetMaxConstructionsPerTypePerTerr(value: string) returns (r: Outcome<Error>)
      modifies this`maxConstructionsPerTypePerTerr
      ensures r == StatusOf(IntToken(value))
      ensures maxConstructionsPerTypePerTerr == IntToken(value).GetOr(old(maxConstructionsPerTypePerTerr))
    {
      var n := IntToken(value);
      if n.Failure? { return Fail(n.error); }
      maxConstructionsPerTypePerTerr := n.value;
      return Pass;
    }

    method SetTransportCapacity(value: string) returns (r: Outcome<Error>)
      modifies this`transportCapacity
      ensures r == StatusOf(IntToken(value))
      ensures transportCapacity == IntToken(value).GetOr(old(transportCapacity))
    {
      var n := IntToken(value);
      if n.Failure? { return Fail(n.error); }
      transportCapacity := n.value;
      return Pass;
    }

    method SetTransportCost(value: string) returns (r: Outcome<Error>)
      modifies this`transportCost
      ensures r == StatusOf(IntToken(value))
      ensures transportCost == IntToken(value).GetOr(old(transportCost))
    {
      var n := IntToken(value);
      if n.Failure? { return Fail(n.error); }
      transportCost := n.value;
      return Pass;
    }

    method SetMaxBuiltPerPlayer(value: string) returns (r: Outcome<Error>)
      modifies this`maxBuiltPerPlayer
      ensures r == StatusOf(IntToken(value))
      ensures maxBuiltPerPlayer == IntToken(value).GetOr(old(maxBuiltPerPlayer))
    {
      var n := IntToken(value);
      if n.Failure? { return Fail(n.error); }
      maxBuiltPerPlayer := n.value;
      return Pass;
    }

    method SetCarrierCapacity(value: string) returns (r: Outcome<Error>)
      modifies this`carrierCapacity
      ensures r == StatusOf(IntToken(value))
      ensures carrierCapacity == IntToken(value).GetOr(old(carrierCapacity))
    {
      var n := IntToken(value);
      if n.Failure? { return Fail(n.error); }
      carrierCapacity := n.value;
      return Pass;
    }

    method SetCarrierCost(value: string) returns (r: Outcome<Error>)
      modifies this`carrierCost
      ensures r == StatusOf(IntToken(value))
      ensures carrierCost == IntToken(value).GetOr(old(carrierCost))
    {
      var n := IntToken(value);
      if n.Failure? { return Fail(n.error); }
      carrierCost := n.value;
      return Pass;
    }

    method SetUnitSupportCount(value: string) returns (r: Outcome<Error>)
      modifies this`unitSupportCount
      ensures r == StatusOf(IntToken(value))
      ensures unitSupportCount == IntToken(value).GetOr(old(unitSupportCount))
    {
      var n := IntToken(value);
      if n.Failure? { return Fail(n.error); }
      unitSupportCount := n.value;
      return Pass;
    }

    method SetMovement(value: string) returns (r: Outcome<Error>)
      modifies this`movement
      ensures r == StatusOf(IntToken(value))
      ensures movement == IntToken(value).GetOr(old(movement))
    {
      var n := IntToken(value);
      if n.Failure? { return Fail(n.error); }
      movement := n.value;
      return Pass;
    }

    method SetAttack(value: string) returns (r: Outcome<Error>)
      modifies this`attack
      ensures r == StatusOf(IntToken(value))
      ensures attack == IntToken(value).GetOr(old(attack))
    {
      var n := IntToken(value);
      if n.Failure? { return Fail(n.error); }
      attack := n.value;
      return Pass;
    }

    method SetBombard(value: string) returns (r: Outcome<Error>)
      modifies this`bombard
      ensures r == StatusOf(IntToken(value))
      ensures bombard == IntToken(value).GetOr(old(bombard))
    {
      var n := IntToken(value);
      if n.Failure? { return Fail(n.error); }
      bombard := n.value;
      return Pass;
    }

    method SetDefense(value: string) returns (r: Outcome<Error>)
      modifies this`defense
      ensures r == StatusOf(IntToken(value))
      ensures defense == IntToken(value).GetOr(old(defense))
    {
      var n := IntToken(value);
      if n.Failure? { return Fail(n.error); }
      defense := n.value;
      return Pass;
    }

    method SetMaxScrambleCount(value: string) returns (r: Outcome<Error>)
      modifies this`maxScrambleCount
      ensures r == StatusOf(IntToken(value))
      ensures maxScrambleCount == IntToken(value).GetOr(old(maxScrambleCount))
    {
      var n := IntToken(value);
      if n.Failure? { return Fail(n.error); }
      maxScrambleCount := n.value;
      return Pass;
    }

    method SetMaxScrambleDistance(value: string) returns (r: Outcome<Error>)
      modifies this`maxScrambleDistance
      ensures r == StatusOf(IntToken(value))
      ensures maxScrambleDistance == IntToken(value).GetOr(old(maxScrambleDistance))
    {
      var n := IntToken(value);
      if n.Failure? { return Fail(n.error); }
      maxScrambleDistance := n.value;
      return Pass;
    }

    method SetMaxOperationalDamage(value: string) returns (r: Outcome<Error>)
      modifies this`maxOperationalDamage
      ensures r == StatusOf(IntToken(value))
      ensures maxOperationalDamage == IntToken(value).GetOr(old(maxOperationalDamage))
    {
      var n := IntToken(value);
      if n.Failure? { return Fail(n.error); }
      maxOperationalDamage := n.value;
      return Pass;
    }

    method SetMaxDamage(value: string) returns (r: Outcome<Error>)
      modifies this`maxDamage
      ensures r == StatusOf(IntToken(value))
      ensures maxDamage == IntToken(value).GetOr(old(maxDamage))
    {
      var n := IntToken(value);
      if n.Failure? { return Fail(n.error); }
      maxDamage := n.value;
      return Pass;
    }

    method SetBlockade(value: string) returns (r: Outcome<Error>)
      modifies this`blockade
      ensures r == StatusOf(IntToken(value))
      ensures blockade == IntToken(value).GetOr(old(blockade))
    {
      var n := IntToken(value);
      if n.Failure? { return Fail(n.error); }
      blockade := n.value;
      return Pass;
    }

    method SetBombingBonus(value: string) returns (r: Outcome<Error>)
      modifies this`bombingBonus
      ensures r == StatusOf(IntToken(value))
      ensures bombingBonus == IntToken(value).GetOr(old(bombingBonus))
    {
      var n := IntToken(value);
      if n.Failure? { return Fail(n.error); }
      bombingBonus := n.value;
      return Pass;
    }

    method SetBombingMaxDieSides(value: string) returns (r: Outcome<Error>)
      modifies this`bombingMaxDieSides
      ensures r == StatusOf(IntToken(value))
      ensures bombingMaxDieSides == IntToken(value).GetOr(old(bombingMaxDieSides))
    {
      var n := IntToken(value);
      if n.Failure? { return Fail(n.error); }
      bombingMaxDieSides := n.value;
      return Pass;
    }

    method SetAttackAA(value: string) returns (r: Outcome<Error>)
      modifies this`attackAA
      ensures r == StatusOf(IntToken(value))
      ensures attackAA == IntToken(value).GetOr(old(attackAA))
    {
      var n := IntToken(value);
      if n.Failure? { return Fail(n.error); }
      attackAA := n.value;
      return Pass;
    }

    method SetAttackAAmaxDieSides(value: string) returns (r: Outcome<Error>)
      modifies this`attackAAmaxDieSides
      ensures r == StatusOf(IntToken(value))
      ensures attackAAmaxDieSides == IntToken(value).GetOr(old(attackAAmaxDieSides))
    {
      var n := IntToken(value);
      if n.Failure? { return Fail(n.error); }
      attackAAmaxDieSides := n.value;
      return Pass;
    }

    // -------------------------------------------------------------------------
    // Player lists
    // -------------------------------------------------------------------------

    /**
     * Appends each player named in the value; "true" or "false" (any case)
     * empties the list; an unknown name raises, keeping what the loop has
     * done up to then.
     */
    method SetCanBeGivenByTerritoryTo(value: string, cat: Catalog) returns (r: Outcome<Error>)
      modifies this`canBeGivenByTerritoryTo
      ensures (canBeGivenByTerritoryTo, r) == GivenTo(old(canBeGivenByTerritoryTo), Split(value), cat.players)
      ensures var names := Split(value); var k := FirstUngivable(names, cat.players);
        && r == (if k == |names| then Pass else Fail(Unknown(PlayerKind, names[k])))
        && canBeGivenByTerritoryTo == Kept(old(canBeGivenByTerritoryTo), names[..k], cat.players)
    {
      var names := Split(value);
      var i := 0;
      while i < |names|
        invariant 0 <= i <= |names|
        invariant GivenTo(old(canBeGivenByTerritoryTo), names, cat.players) == GivenTo(canBeGivenByTerritoryTo, names[i..], cat.players)
      {
        assert names[i..][0] == names[i] && names[i..][1..] == names[i + 1..];
        var name := names[i];
        if name in cat.players {
          canBeGivenByTerritoryTo := canBeGivenByTerritoryTo + [name];
        } else if IsBooleanWord(name) {
          canBeGivenByTerritoryTo := [];
        } else {
          GivenToScan(old(canBeGivenByTerritoryTo), names, cat.players);
          return Fail(Unknown(PlayerKind, name));
        }
        i := i + 1;
      }
      assert names[i..] == [];
      GivenToScan(old(canBeGivenByTerritoryTo), names, cat.players);
      return Pass;
    }

    method ClearCanBeGivenByTerritoryTo()
      modifies this`canBeGivenByTerritoryTo
      ensures canBeGivenByTerritoryTo == []
    {
      canBeGivenByTerritoryTo := [];
    }

    /**
     * Appends each player named in the value, in order; the first unknown
     * name raises, after the names before it have been appended.
     */
    method SetCanBeCapturedOnEnteringBy(value: string, cat: Catalog) returns (r: Outcome<Error>)
      modifies this`canBeCapturedOnEnteringBy
      ensures var names := Split(value); var k := FirstUnknown(cat, PlayerKind, names);
        && canBeCapturedOnEnteringBy == old(canBeCapturedOnEnteringBy) + names[..k]
        && r == (if k == |names| then Pass else Fail(Unknown(PlayerKind, names[k])))
    {
      var names := Split(value);
      var i := 0;
      while i < |names|
        invariant 0 <= i <= |names|
        invariant canBeCapturedOnEnteringBy == old(canBeCapturedOnEnteringBy) + names[..i]
        invariant forall j :: 0 <= j < i ==> names[j] in cat.players
      {
        if names[i] !in cat.players {
          FirstUnknownAt(cat, PlayerKind, names, i);
          return Fail(Unknown(PlayerKind, names[i]));
        }
        canBeCapturedOnEnteringBy := canBeCapturedOnEnteringBy + [names[i]];
        assert names[..i + 1] == names[..i] + [names[i]];
        i := i + 1;
      }
      FirstUnknownAt(cat, PlayerKind, names, i);
      assert names[..i] == names;
      return Pass;
    }

    method ClearCanBeCapturedOnEnteringBy()
      modifies this`canBeCapturedOnEnteringBy
      ensures canBeCapturedOnEnteringBy == []
    {
      canBeCapturedOnEnteringBy := [];
    }

    /**
     * Appends one (mode, player) record per player named after the optional
     * "BY:"/"FROM:" prefix; the first unknown name raises after the records
     * before it have been appended.
     */
    method SetDestroyedWhenCapturedBy(value: string, cat: Catalog) returns (r: Outcome<Error>)
      modifies this`destroyedWhenCapturedBy
      ensures var (mode, rest) := CaptureModeOf(value, cat);
        var names := Split(rest); var k := FirstUnknown(cat, PlayerKind, names);
        && destroyedWhenCapturedBy == old(destroyedWhenCapturedBy) + DestroyedRules(mode, names[..k])
        && r == (if k == |names| then Pass else Fail(Unknown(PlayerKind, names[k])))
    {
      var (mode, rest) := CaptureModeOf(value, cat);
      var names := Split(rest);
      var i := 0;
      while i < |names|
        invariant 0 <= i <= |names|
        invariant destroyedWhenCapturedBy == old(destroyedWhenCapturedBy) + DestroyedRules(mode, names[..i])
        invariant forall j :: 0 <= j < i ==> names[j] in cat.players
      {
        if names[i] !in cat.players {
          FirstUnknownAt(cat, PlayerKind, names, i);
          return Fail(Unknown(PlayerKind, names[i]));
        }
        destroyedWhenCapturedBy := destroyedWhenCapturedBy + [DestroyedRule(mode, names[i])];
        assert DestroyedRules(mode, names[..i + 1]) == DestroyedRules(mode, names[..i]) + [DestroyedRule(mode, names[i])];
        i := i + 1;
      }
      FirstUnknownAt(cat, PlayerKind, names, i);
      assert names[..i] == names;
      return Pass;
    }

    /** The same as `SetDestroyedWhenCapturedBy`, with FROM as the mode when the value names none. */
    method SetDestroyedWhenCapturedFrom(value: string, cat: Catalog) returns (r: Outcome<Error>)
      modifies this`destroyedWhenCapturedBy
      ensures var (mode, rest) := CaptureModeOf(FromPrefixed(value), cat);
        var names := Split(rest); var k := FirstUnknown(cat, PlayerKind, names);
        && destroyedWhenCapturedBy == old(destroyedWhenCapturedBy) + DestroyedRules(mode, names[..k])
        && r == (if k == |names| then Pass else Fail(Unknown(PlayerKind, names[k])))
      ensures !StartsWith(value, "BY:") && !StartsWith(value, "FROM:") && "FROM" !in cat.players ==>
        var names := Split(value); var k := FirstUnknown(cat, PlayerKind, names);
        && destroyedWhenCapturedBy == old(destroyedWhenCapturedBy) + DestroyedRules(From, names[..k])
        && r == (if k == |names| then Pass else Fail(Unknown(PlayerKind, names[k])))
    {
      FromPrefixedMode(value, cat);
      r := SetDestroyedWhenCapturedBy(FromPrefixed(value), cat);
    }

    method ClearDestroyedWhenCapturedBy()
      modifies this`destroyedWhenCapturedBy
      ensures destroyedWhenCapturedBy == []
    {
      destroyedWhenCapturedBy := [];
    }

    // -------------------------------------------------------------------------
    // Record adders
    // -------------------------------------------------------------------------

    /**
     * Puts the conversion of playerFrom:playerTo:keepAttributes:(unitType:howMany)+
     * under the key "playerFrom:playerTo", replacing an entry with that key in
     * its place; a malformed value raises and changes nothing.
     */
    method SetWhenCapturedChangesInto(value: string, cat: Catalog) returns (r: Outcome<Error>)
      modifies this`whenCapturedChangesInto
      requires Valid()
      ensures Valid()
      ensures r == StatusOf(CaptureRecord(Split(value), cat))
      ensures var rec := CaptureRecord(Split(value), cat);
        whenCapturedChangesInto ==
          if rec.Success? then LinkedPut(old(whenCapturedChangesInto), rec.value.0, rec.value.1)
          else old(whenCapturedChangesInto)
    {
      var rec := ParseCaptureRecord(Split(value), cat);
      if rec.Failure? {
        return Fail(rec.error);
      }
      LinkedPutFacts(whenCapturedChangesInto, rec.value.0, rec.value.1);
      whenCapturedChangesInto := LinkedPut(whenCapturedChangesInto, rec.value.0, rec.value.1);
      return Pass;
    }

    method ClearWhenCapturedChangesInto()
      modifies this`whenCapturedChangesInto
      requires Valid()
      ensures Valid()
      ensures whenCapturedChangesInto == []
    {
      whenCapturedChangesInto := [];
    }

    /**
     * Adds each option to the set; an option other than "none" or
     * "canOnlyPlaceInOriginalTerritories" raises after the options before it
     * have been added.
     */
    method SetSpecial(value: string) returns (r: Outcome<Error>)
      modifies this`special
      requires Valid()
      ensures Valid()
      ensures var names := Split(value); var k := FirstOutside(names, SpecialOptions);
        && special == old(special) + (set j | 0 <= j < k :: names[j])
        && r == (if k == |names| then Pass else Fail(NotAllowed(names[k])))
    {
      var added;
      added, r := CollectSpecial(Split(value));
      special := special + added;
    }

    method ClearSpecial()
      modifies this`special
      requires Valid()
      ensures Valid()
      ensures special == {}
    {
      special := {};
    }

    /** Appends the colon-separated unit combination. */
    method SetRequiresUnits(value: string)
      modifies this`requiresUnits
      ensures requiresUnits == old(requiresUnits) + [Split(value)]
    {
      requiresUnits := requiresUnits + [Split(value)];
    }

    method ClearRequiresUnits()
      modifies this`requiresUnits
      ensures requiresUnits == []
    {
      requiresUnits := [];
    }

    /** Appends one damage record from:to:effect[:argument]; a malformed value raises and changes nothing. */
    method SetWhenCombatDamaged(value: string) returns (r: Outcome<Error>)
      modifies this`whenCombatDamaged
      requires Valid()
      ensures Valid()
      ensures r == StatusOf(DamageRecord(Split(value)))
      ensures var rec := DamageRecord(Split(value));
        whenCombatDamaged == if rec.Success? then old(whenCombatDamaged) + [rec.value] else old(whenCombatDamaged)
    {
      var rec := DamageRecord(Split(value));
      if rec.Failure? {
        return Fail(rec.error);
      }
      whenCombatDamaged := whenCombatDamaged + [rec.value];
      return Pass;
    }

    method ClearWhenCombatDamaged()
      modifies this`whenCombatDamaged
      requires Valid()
      ensures Valid()
      ensures whenCombatDamaged == []
    {
      whenCombatDamaged := [];
    }

    /** Appends the "ability:unitType" entry unparsed; `validate` checks it. */
    method SetReceivesAbilityWhenWith(value: string)
      modifies this`receivesAbilityWhenWith
      ensures receivesAbilityWhenWith == old(receivesAbilityWhenWith) + [value]
    {
      receivesAbilityWhenWith := receivesAbilityWhenWith + [value];
    }

    method ClearReceivesAbilityWhenWith()
      modifies this`receivesAbilityWhenWith
      ensures receivesAbilityWhenWith == []
    {
      receivesAbilityWhenWith := [];
    }

    /** Puts "count:name" into givesMovement, replacing an earlier count for the name; a malformed value raises and changes nothing. */
    method SetGivesMovement(value: string, cat: Catalog) returns (r: Outcome<Error>)
      modifies this`givesMovement
      ensures r == StatusOf(KeyedQuantity(GivesMovement, Split(value), cat))
      ensures var q := KeyedQuantity(GivesMovement, Split(value), cat);
        givesMovement == if q.Success? then old(givesMovement)[q.value.0 := q.value.1] else old(givesMovement)
    {
      var q := KeyedQuantity(GivesMovement, Split(value), cat);
      if q.Failure? {
        return Fail(q.error);
      }
      givesMovement := givesMovement[q.value.0 := q.value.1];
      return Pass;
    }

    method ClearGivesMovement()
      modifies this`givesMovement
      ensures givesMovement == map[]
    {
      givesMovement := map[];
    }

    /** Puts "count:name" into consumesUnits, replacing an earlier count for the name; a malformed value raises and changes nothing. */
    method SetConsumesUnits(value: string, cat: Catalog) returns (r: Outcome<Error>)
      modifies this`consumesUnits
      requires Valid()
      ensures Valid()
      ensures r == StatusOf(KeyedQuantity(ConsumesUnits, Split(value), cat))
      ensures var q := KeyedQuantity(ConsumesUnits, Split(value), cat);
        consumesUnits == if q.Success? then old(consumesUnits)[q.value.0 := q.value.1] else old(consumesUnits)
    {
      var q := KeyedQuantity(ConsumesUnits, Split(value), cat);
      if q.Failure? {
        return Fail(q.error);
      }
      consumesUnits := consumesUnits[q.value.0 := q.value.1];
      return Pass;
    }

    method ClearConsumesUnits()
      modifies this`consumesUnits
      requires Valid()
      ensures Valid()
      ensures consumesUnits == map[]
    {
      consumesUnits := map[];
    }

    /** Puts "count:name" into createsUnitsList, replacing an earlier count for the name; a malformed value raises and changes nothing. */
    method SetCreatesUnitsList(value: string, cat: Catalog) returns (r: Outcome<Error>)
      modifies this`createsUnitsList
      requires Valid()
      ensures Valid()
      ensures r == StatusOf(KeyedQuantity(CreatesUnitsList, Split(value), cat))
      ensures var q := KeyedQuantity(CreatesUnitsList, Split(value), cat);
        createsUnitsList == if q.Success? then old(createsUnitsList)[q.value.0 := q.value.1] else old(createsUnitsList)
    {
      var q := KeyedQuantity(CreatesUnitsList, Split(value), cat);
      if q.Failure? {
        return Fail(q.error);
      }
      createsUnitsList := createsUnitsList[q.value.0 := q.value.1];
      return Pass;
    }

    method ClearCreatesUnitsList()
      modifies this`createsUnitsList
      requires Valid()
      ensures Valid()
      ensures createsUnitsList == map[]
    {
      createsUnitsList := map[];
    }

    /** Puts "count:name" into createsResourcesList, replacing an earlier count for the name; a malformed value raises and changes nothing. */
    method SetCreatesResourcesList(value: string, cat: Catalog) returns (r: Outcome<Error>)
      modifies this`createsResourcesList
      requires Valid()
      ensures Valid()
      ensures r == StatusOf(KeyedQuantity(CreatesResourcesList, Split(value), cat))
      ensures var q := KeyedQuantity(CreatesResourcesList, Split(value), cat);
        createsResourcesList == if q.Success? then old(createsResourcesList)[q.value.0 := q.value.1] else old(createsResourcesList)
    {
      var q := KeyedQuantity(CreatesResourcesList, Split(value), cat);
      if q.Failure? {
        return Fail(q.error);
      }
      createsResourcesList := createsResourcesList[q.value.0 := q.value.1];
      return Pass;
    }

    method ClearCreatesResourcesList()
      modifies this`createsResourcesList
      requires Valid()
      ensures Valid()
      ensures createsResourcesList == map[]
    {
      createsResourcesList := map[];
    }

    /** Puts "count:name" into fuelCost, replacing an earlier count for the name; a malformed value raises and changes nothing. */
    method SetFuelCost(value: string, cat: Catalog) returns (r: Outcome<Error>)
      modifies this`fuelCost
      requires Valid()
      ensures Valid()
      ensures r == StatusOf(KeyedQuantity(FuelCost, Split(value), cat))
      ensures var q := KeyedQuantity(FuelCost, Split(value), cat);
        fuelCost == if q.Success? then old(fuelCost)[q.value.0 := q.value.1] else old(fuelCost)
    {
      var q := KeyedQuantity(FuelCost, Split(value), cat);
      if q.Failure? {
        return Fail(q.error);
      }
      fuelCost := fuelCost[q.value.0 := q.value.1];
      return Pass;
    }

    method ClearFuelCost()
      modifies this`fuelCost
      requires Valid()
      ensures Valid()
      ensures fuelCost == map[]
    {
      fuelCost := map[];
    }

    // -------------------------------------------------------------------------
    // Territory and unit lists
    // -------------------------------------------------------------------------

    /** Stores the split value as the territories the unit may not be placed in. */
    method SetUnitPlacementRestrictions(value: string)
      modifies this`unitPlacementRestrictions
      ensures unitPlacementRestrictions == Some(Split(value))
    {
      unitPlacementRestrictions := Some(Split(value));
    }

    /**
     * Resolves the allowed territories, then stores every other territory of
     * the map, in map order, as the placement restrictions (written out with
     * colons and split again). An unknown territory raises and changes nothing.
     */
    method SetUnitPlacementOnlyAllowedIn(value: string, cat: Catalog) returns (r: Outcome<Error>)
      modifies this`unitPlacementRestrictions
      ensures var allowed := Split(value);
        && (r.Pass? <==> Listed(cat, TerritoryKind, allowed).None?)
        && (r.Fail? ==> Some(r.error) == Listed(cat, TerritoryKind, allowed))
        && unitPlacementRestrictions ==
             if r.Pass? then Some(Split(Join(Complement(cat.territories, allowed))))
             else old(unitPlacementRestrictions)
    {
      var allowed := Split(value);
      var listed := ListedNames(cat, TerritoryKind, allowed);
      if listed.Failure? {
        return Fail(listed.error);
      }
      var restricted := RestrictedList(cat.territories, allowed);
      unitPlacementRestrictions := Some(Split(restricted));
      return Pass;
    }

    /** Stores the split value as the unit types this unit can repair. */
    method SetRepairsUnits(value: string)
      modifies this`repairsUnits
      ensures repairsUnits == Some(Split(value))
    {
      repairsUnits := Some(Split(value));
    }

    // -------------------------------------------------------------------------
    // canInvadeOnlyFrom
    // -------------------------------------------------------------------------

    /**
     * Stores the transports this unit may invade from; a first field "none"
     * or "all" (any case) stands for the whole list. A value that splits into
     * nothing raises and changes nothing.
     */
    method SetCanInvadeOnlyFrom(value: string) returns (r: Outcome<Error>)
      modifies this`canInvadeOnlyFrom
      requires Valid()
      ensures Valid()
      ensures r == StatusOf(InvasionList(Split(value)))
      ensures var l := InvasionList(Split(value));
        canInvadeOnlyFrom == if l.Success? then Some(l.value) else old(canInvadeOnlyFrom)
    {
      var l := InvasionList(Split(value));
      if l.Failure? {
        return Fail(l.error);
      }
      canInvadeOnlyFrom := Some(l.value);
      return Pass;
    }

    /**
     * Whether the unit may invade from a transport of the given type. An
     * unknown type raises; no restriction, or one starting with "" or "all",
     * allows every transport; otherwise the type must be listed.
     */
    function CanInvadeFrom(transport: string, cat: Catalog): (r: Result<bool, Error>)
      reads this`canInvadeOnlyFrom
      ensures r.Failure? <==> transport !in cat.unitTypes
      ensures r.Failure? ==> r.error == Unknown(UnitTypeKind, transport)
      ensures r.Success? && canInvadeOnlyFrom.None? ==> r.value
      ensures r.Success? && canInvadeOnlyFrom.Some? ==>
        (|canInvadeOnlyFrom.value| == 0 || canInvadeOnlyFrom.value[0] == "" || canInvadeOnlyFrom.value[0] == "all") ==> r.value
      ensures r.Success? && canInvadeOnlyFrom.Some? && |canInvadeOnlyFrom.value| >= 1
        && canInvadeOnlyFrom.value[0] != "" && canInvadeOnlyFrom.value[0] != "all"
        ==> (r.value <==> transport in canInvadeOnlyFrom.value)
    {
      if transport !in cat.unitTypes then Failure(Unknown(UnitTypeKind, transport))
      else Success(InvadeAllowed(canInvadeOnlyFrom, transport))
    }

    // -------------------------------------------------------------------------
    // Stacking limit and anti-aircraft flags
    // -------------------------------------------------------------------------

    /**
     * `setStackingLimit`, where None stands for a null value. A null value
     * clears the limit and then raises (on the unattached check, or on
     * splitting null). Otherwise an unattached attachment raises, and an
     * attached one stores "max:scope" when it parses, else raises with the
     * old limit kept.
     */
    method SetStackingLimit(value: Option<string>) returns (r: Outcome<Error>)
      modifies this`stackingLimit
      requires Valid()
      ensures Valid()
      ensures value.None? ==> stackingLimit == None && r == Fail(if attachedTo.None? then NotAttached else NullValue)
      ensures value.Some? && attachedTo.None? ==> stackingLimit == old(stackingLimit) && r == Fail(NotAttached)
      ensures value.Some? && attachedTo.Some? ==>
        var l := StackingLimitOf(Split(value.value));
        && r == StatusOf(l)
        && stackingLimit == if l.Success? then Some(l.value) else old(stackingLimit)
    {
      if value.None? {
        stackingLimit := None;
      }
      if attachedTo.None? {
        return Fail(NotAttached);
      }
      if value.None? {
        return Fail(NullValue);
      }
      var l := StackingLimitOf(Split(value.value));
      if l.Failure? {
        return Fail(l.error);
      }
      stackingLimit := Some(l.value);
      return Pass;
    }

    /**
     * `setIsAAmovement`: sets canNotMoveDuringCombatMove; "true" then sets the
     * limit to (Integer.MAX_VALUE, allied), while "false" clears it and so ends
     * in the exception of `setStackingLimit(null)`.
     */
    method SetIsAAmovement(value: string) returns (r: Outcome<Error>)
      modifies this`canNotMoveDuringCombatMove, this`stackingLimit
      requires Valid()
      ensures Valid()
      ensures ParseBool(value).None? ==>
        && r == Fail(NotABoolean(value))
        && canNotMoveDuringCombatMove == old(canNotMoveDuringCombatMove)
        && stackingLimit == old(stackingLimit)
      ensures ParseBool(value).Some? ==> canNotMoveDuringCombatMove == ParseBool(value).value
      ensures ParseBool(value) == Some(true) && attachedTo.Some? ==>
        r == Pass && stackingLimit == Some(StackingLimit(MaxInt, Allied))
      ensures ParseBool(value) == Some(true) && attachedTo.None? ==>
        r == Fail(NotAttached) && stackingLimit == old(stackingLimit)
      ensures ParseBool(value) == Some(false) ==>
        stackingLimit == None && r == Fail(if attachedTo.None? then NotAttached else NullValue)
    {
      r := SetCanNotMoveDuringCombatMove(value);
      if r.Fail? {
        return;
      }
      if canNotMoveDuringCombatMove {
        AlliedUnlimitedToken();
        r := SetStackingLimit(Some(IntToString(MaxInt) + ":allied"));
      } else {
        r := SetStackingLimit(None);
      }
    }

    /** `setIsAA`: sets isAA, then does what `setIsAAmovement` does with the same token. */
    method SetIsAA(value: string) returns (r: Outcome<Error>)
      modifies this`isAA, this`canNotMoveDuringCombatMove, this`stackingLimit
      requires Valid()
      ensures Valid()
      ensures ParseBool(value).None? ==>
        && r == Fail(NotABoolean(value))
        && isAA == old(isAA)
        && canNotMoveDuringCombatMove == old(canNotMoveDuringCombatMove)
        && stackingLimit == old(stackingLimit)
      ensures ParseBool(value).Some? ==>
        isAA == ParseBool(value).value && canNotMoveDuringCombatMove == ParseBool(value).value
      ensures ParseBool(value) == Some(true) && attachedTo.Some? ==>
        r == Pass && stackingLimit == Some(StackingLimit(MaxInt, Allied))
      ensures ParseBool(value) == Some(true) && attachedTo.None? ==>
        r == Fail(NotAttached) && stackingLimit == old(stackingLimit)
      ensures ParseBool(value) == Some(false) ==>
        stackingLimit == None && r == Fail(if attachedTo.None? then NotAttached else NullValue)
    {
      var b := BoolToken(value);
      if b.Failure? {
        return Fail(b.error);
      }
      isAA := b.value;
      r := SetIsAAmovement(value);
    }

    // -------------------------------------------------------------------------
    // Derived values for a player under the game's rules
    // -------------------------------------------------------------------------

    /** Whether the jet-fighter technology can lift this unit's values. */
    predicate JetEligible()
      reads this`isAir, this`isStrategicBomber
    {
      isAir && !isStrategicBomber
    }

    /**
     * `getAttack`: the super-sub +1 for subs, the jet +1 for non-bomber air
     * under the WW2V3 tech model, the AI bonus; each applies only while the
     * running value is positive; capped at the dice sides.
     */
    function Attack(player: Player, cfg: RuleConfig): (r: int)
      reads this`attack, this`isSub, this`isAir, this`isStrategicBomber
      ensures r <= cfg.diceSides
      ensures attack <= 0 ==> r == Min(attack, cfg.diceSides)
      ensures attack > 0 && !player.isAI ==> Min(attack, cfg.diceSides) <= r <= Min(attack + 2, cfg.diceSides)
      ensures attack > 0 && player.isAI && cfg.aiBonusAttack >= 0 ==> Min(attack, cfg.diceSides) <= r
      ensures attack > 0 ==> r == Min(attack
        + (if isSub && player.tech.superSubs then 1 else 0)
        + (if JetEligible() && player.tech.jetFighter && cfg.ww2v3TechModel then 1 else 0)
        + (if player.isAI then cfg.aiBonusAttack else 0), cfg.diceSides)
    {
      var a0 := attack;
      var a1 := if a0 > 0 && isSub && player.tech.superSubs then a0 + 1 else a0;
      var a2 := if a1 > 0 && JetEligible() && player.tech.jetFighter && cfg.ww2v3TechModel then a1 + 1 else a1;
      var a3 := if a2 > 0 && player.isAI then a2 + cfg.aiBonusAttack else a2;
      Min(a3, cfg.diceSides)
    }

    /**
     * `getDefense`: the jet +1 for non-bomber air outside the WW2V3 tech
     * model, the super-sub defense bonus when it is positive, the AI bonus;
     * each applies only while the running value is positive; capped at the
     * dice sides.
     */
    function Defense(player: Player, cfg: RuleConfig): (r: int)
      reads this`defense, this`isSub, this`isAir, this`isStrategicBomber
      ensures r <= cfg.diceSides
      ensures defense <= 0 ==> r == Min(defense, cfg.diceSides)
      ensures defense > 0 && !player.isAI ==>
        Min(defense, cfg.diceSides) <= r <= Min(defense + 1 + (if cfg.superSubDefenseBonus > 0 then cfg.superSubDefenseBonus else 0), cfg.diceSides)
      ensures defense > 0 && player.isAI && cfg.aiBonusDefense >= 0 ==> Min(defense, cfg.diceSides) <= r
      ensures defense > 0 ==> r == Min(defense
        + (if JetEligible() && player.tech.jetFighter && !cfg.ww2v3TechModel then 1 else 0)
        + (if isSub && player.tech.superSubs && cfg.superSubDefenseBonus > 0 then cfg.superSubDefenseBonus else 0)
        + (if player.isAI then cfg.aiBonusDefense else 0), cfg.diceSides)
    {
      var d0 := defense;
      var d1 := if d0 > 0 && JetEligible() && player.tech.jetFighter && !cfg.ww2v3TechModel then d0 + 1 else d0;
      var d2 := if d1 > 0 && isSub && player.tech.superSubs && cfg.superSubDefenseBonus > 0 then d1 + cfg.superSubDefenseBonus else d1;
      var d3 := if d2 > 0 && player.isAI then d2 + cfg.aiBonusDefense else d2;
      Min(d3, cfg.diceSides)
    }

    /** `getAirAttack`: the jet +1 for positive non-bomber air values, capped at the dice sides. */
    function AirAttack(player: Player, cfg: RuleConfig): (r: int)
      reads this`airAttack, this`isAir, this`isStrategicBomber
      ensures r <= cfg.diceSides
      ensures Min(airAttack, cfg.diceSides) <= r <= Min(airAttack + 1, cfg.diceSides)
      ensures airAttack > 0 && JetEligible() && player.tech.jetFighter ==> r == Min(airAttack + 1, cfg.diceSides)
      ensures !(airAttack > 0 && JetEligible() && player.tech.jetFighter) ==> r == Min(airAttack, cfg.diceSides)
    {
      var v := if airAttack > 0 && JetEligible() && player.tech.jetFighter then airAttack + 1 else airAttack;
      Min(v, cfg.diceSides)
    }

    /** `getAirDefense`: the jet +1 for positive non-bomber air values, capped at the dice sides. */
    function AirDefense(player: Player, cfg: RuleConfig): (r: int)
      reads this`airDefense, this`isAir, this`isStrategicBomber
      ensures r <= cfg.diceSides
      ensures Min(airDefense, cfg.diceSides) <= r <= Min(airDefense + 1, cfg.diceSides)
      ensures airDefense > 0 && JetEligible() && player.tech.jetFighter ==> r == Min(airDefense + 1, cfg.diceSides)
      ensures !(airDefense > 0 && JetEligible() && player.tech.jetFighter) ==> r == Min(airDefense, cfg.diceSides)
    {
      var v := if airDefense > 0 && JetEligible() && player.tech.jetFighter then airDefense + 1 else airDefense;
      Min(v, cfg.diceSides)
    }

    /** `getMovement`: long-range air adds 2 to air units and nothing else changes it. */
    function Movement(player: Player): (r: int)
      reads this`movement, this`isAir
      ensures r >= movement
      ensures isAir && player.tech.longRangeAir ==> r == movement + 2
      ensures !(isAir && player.tech.longRangeAir) ==> r == movement
    {
      if isAir && player.tech.longRangeAir then movement + 2 else movement
    }

    /**
     * `getAttackRolls`: no rolls without attack, the configured heavy-bomber
     * rolls for a strategic bomber with heavy bombers, else one.
     */
    function AttackRolls(player: Player, cfg: RuleConfig): (r: int)
      reads this`attack, this`isSub, this`isAir, this`isStrategicBomber
      ensures r == 0 <==> Attack(player, cfg) == 0 || (isStrategicBomber && player.tech.heavyBomber && cfg.heavyBomberDiceRolls == 0)
      ensures Attack(player, cfg) != 0 && !(isStrategicBomber && player.tech.heavyBomber) ==> r == 1
      ensures Attack(player, cfg) != 0 && isStrategicBomber && player.tech.heavyBomber ==> r == cfg.heavyBomberDiceRolls
    {
      if Attack(player, cfg) == 0 then 0
      else if isStrategicBomber && player.tech.heavyBomber then cfg.heavyBomberDiceRolls
      else 1
    }

    /** `getDefenseRolls`: as `AttackRolls` for defense, and the heavy-bomber rolls also need the LHTR option. */
    function DefenseRolls(player: Player, cfg: RuleConfig): (r: int)
      reads this`defense, this`isSub, this`isAir, this`isStrategicBomber
      ensures r == 0 <==> (Defense(player, cfg) == 0 ||
        (isStrategicBomber && player.tech.heavyBomber && cfg.lhtrHeavyBombers && cfg.heavyBomberDiceRolls == 0))
      ensures Defense(player, cfg) != 0 && !(isStrategicBomber && player.tech.heavyBomber && cfg.lhtrHeavyBombers) ==> r == 1
      ensures Defense(player, cfg) != 0 && isStrategicBomber && player.tech.heavyBomber && cfg.lhtrHeavyBombers ==> r == cfg.heavyBomberDiceRolls
    {
      if Defense(player, cfg) == 0 then 0
      else if isStrategicBomber && player.tech.heavyBomber && cfg.lhtrHeavyBombers then cfg.heavyBomberDiceRolls
      else 1
    }

    /** `getBombard`: the bombard value when it is positive, otherwise the raw attack. */
    function Bombard(): (r: int)
      reads this`bombard, this`attack
      ensures bombard > 0 ==> r == bombard && r > 0
      ensures bombard <= 0 ==> r == attack
    {
      if bombard > 0 then bombard else attack
    }

    /** `getUnitSupportCount`: the support count when it is positive, otherwise 1. */
    function UnitSupportCount(): (r: int)
      reads this`unitSupportCount
      ensures r >= 1
      ensures unitSupportCount > 0 ==> r == unitSupportCount
      ensures unitSupportCount <= 0 ==> r == 1
    {
      if unitSupportCount > 0 then unitSupportCount else 1
    }

    /** `getCanBombard`: the flag, or a destroyer of a player with destroyer bombard. */
    function CanBombardFor(player: Player): (r: bool)
      reads this`canBombard, this`isDestroyer
      ensures r <==> canBombard || (isDestroyer && player.tech.destroyerBombard)
      ensures !canBombard && !isDestroyer ==> !r
    {
      canBombard || (isDestroyer && player.tech.destroyerBombard)
    }

    // -------------------------------------------------------------------------
    // validate
    // -------------------------------------------------------------------------

    /** Properties an air unit may not have. */
    predicate AirForbidden()
      reads this
    {
      isSea || isFactory || isSub || isAA || isAAforCombatOnly || isAAforBombingThisUnitOnly || transportCost != -1
      || carrierCapacity != -1 || canBlitz || canBombard || isMarine || isInfantry || isLandTransport
      || isAirTransportable || isCombatTransport
    }

    /** Properties a sea unit may not have. */
    predicate SeaForbidden()
      reads this
    {
      canIntercept || canEscort || canBlitz || isAA || isAAforCombatOnly || isAAforBombingThisUnitOnly || isAir
      || isFactory || isStrategicBomber || carrierCost != -1 || transportCost != -1 || isMarine || isInfantry
      || isLandTransport || isAirTransportable || isAirTransport || isKamikaze
    }

    /** Properties a land unit may not have. */
    predicate LandForbidden()
      reads this
    {
      canIntercept || canEscort || canBombard || isStrategicBomber || isSub || carrierCapacity != -1 || bombard != -1
      || transportCapacity != -1 || isAirTransport || isCombatTransport || isKamikaze
    }

    predicate AAValuesOk()
      reads this
    {
      attackAA >= 0 && -1 <= attackAAmaxDieSides <= 200
    }

    predicate BombingValuesOk()
      reads this
    {
      && !((bombingBonus >= 0 || bombingMaxDieSides >= 0) && !(isStrategicBomber || isAA))
      && bombingBonus >= -1 && bombingMaxDieSides >= -1
      && bombingBonus <= 10000 && bombingMaxDieSides <= 200
    }

    /** A sea transport under restricted transport casualties may not fight unless it is a combat transport. */
    predicate RestrictedTransportOk(cfg: RuleConfig)
      reads this
    {
      !(isSea && transportCapacity != -1 && cfg.transportCasualtiesRestricted && (attack > 0 || defense > 0) && !isCombatTransport)
    }

    /** A construction names its type and both of its limits. */
    predicate ConstructionComplete()
      reads this
    {
      isConstruction ==> !(NoConstructionType(constructionType) || constructionsPerTerrPerTypePerTurn < 0 || maxConstructionsPerTypePerTerr < 0)
    }

    /** Construction values are set only on a construction. */
    predicate ConstructionFlagged()
      reads this
    {
      !isConstruction ==> NoConstructionType(constructionType) && constructionsPerTerrPerTypePerTurn < 0 && maxConstructionsPerTypePerTerr < 0
    }

    predicate DamageValuesOk()
      reads this
    {
      !((canBeDamaged && maxDamage < 1) || (!canBeDamaged && !isFactory && maxDamage >= 0)
        || (canDieFromReachingMaxDamage && !(maxDamage >= 0 || isFactory)) || (canBeDamaged && isFactory))
    }

    /** The forbidden-property rule for the unit's kind: air, else sea, else land. */
    predicate KindRuleBroken()
      reads this
    {
      if isAir then AirForbidden() else if isSea then SeaForbidden() else LandForbidden()
    }

    /** The rule for the unit's kind, named as `validate` reports it. */
    function KindRule(): Rule
      reads this`isAir, this`isSea
    {
      if isAir then AirProperties else if isSea then SeaProperties else LandProperties
    }

    predicate CarrierClash()
      reads this
    {
      carrierCapacity != -1 && carrierCost != -1
    }

    predicate TransportClash()
      reads this
    {
      transportCost != -1 && transportCapacity != -1
    }

    predicate CombatTransportWithoutCapacity()
      reads this
    {
      isCombatTransport && transportCapacity < 1
    }

    /** The first broken rule among those on the scalar fields, in the order `validate` checks them. */
    function FieldViolation(cfg: RuleConfig): (r: Option<Error>)
      reads this
      ensures r.None? <==> FieldsConform(cfg)
      ensures r.Some? ==> r.value.Invalid?
    {
      if KindRuleBroken() then Some(Invalid(KindRule()))
      else if !AAValuesOk() then Some(Invalid(AAValues))
      else if CarrierClash() then Some(Invalid(CarrierCostAndCapacity))
      else if TransportClash() then Some(Invalid(TransportCostAndCapacity))
      else if !BombingValuesOk() then Some(Invalid(BombingValues))
      else if maxBuiltPerPlayer < -1 then Some(Invalid(MaxBuiltPerPlayer))
      else if CombatTransportWithoutCapacity() then Some(Invalid(CombatTransportCapacity))
      else if !RestrictedTransportOk(cfg) then Some(Invalid(RestrictedTransportStrength))
      else if !ConstructionComplete() then Some(Invalid(ConstructionIncomplete))
      else if !ConstructionFlagged() then Some(Invalid(ConstructionNotFlagged))
      else if constructionsPerTerrPerTypePerTurn > maxConstructionsPerTypePerTerr then Some(Invalid(ConstructionPerTurnAboveMax))
      else None
    }

    /** The rules of `validate` on the scalar fields, all at once. */
    predicate FieldsConform(cfg: RuleConfig)
      reads this
    {
      && (isAir ==> !AirForbidden())
      && (!isAir && isSea ==> !SeaForbidden())
      && (!isAir && !isSea ==> !LandForbidden())
      && AAValuesOk()
      && (carrierCapacity == -1 || carrierCost == -1)
      && (transportCost == -1 || transportCapacity == -1)
      && BombingValuesOk()
      && maxBuiltPerPlayer >= -1
      && (isCombatTransport ==> transportCapacity >= 1)
      && RestrictedTransportOk(cfg)
      && ConstructionComplete()
      && ConstructionFlagged()
      && constructionsPerTerrPerTypePerTurn <= maxConstructionsPerTypePerTerr
    }

    /** An unknown name in an optional list, as `getListedUnits`/`getListedTerritories` report it. */
    function OptionalListed(cat: Catalog, kind: EntityKind, list: Option<seq<string>>): (r: Option<Error>)
      ensures r.None? <==> (list.Some? ==> forall j :: 0 <= j < |list.value| ==> Known(cat, kind, list.value[j]))
      ensures list.Some? ==> r == Listed(cat, kind, list.value)
    {
      if list.None? then None else Listed(cat, kind, list.value)
    }

    /** The rule `validate` raises for: the first one broken, in the order the checks run. */
    function Violation(cat: Catalog, cfg: RuleConfig): (r: Option<Error>)
      reads this
      ensures r.None? <==> Conforms(cat, cfg)
      ensures !FieldsConform(cfg) ==> r == FieldViolation(cfg)
    {
      if FieldViolation(cfg).Some? then FieldViolation(cfg) else ListViolation(cat)
    }

    /** The first broken rule among those on the list-valued fields, in the order `validate` checks them. */
    function ListViolation(cat: Catalog): (r: Option<Error>)
      reads this
      ensures r.None? <==> ListsConform(cat)
    {
      var restrictions := OptionalListed(cat, TerritoryKind, unitPlacementRestrictions);
      var repairs := OptionalListed(cat, UnitTypeKind, repairsUnits);
      var combos := FirstFailure(requiresUnits, ComboCheck(cat));
      var invasion := InvasionViolation(cat, canInvadeOnlyFrom);
      var abilities := FirstFailure(receivesAbilityWhenWith, AbilityCheck(cat));
      if restrictions.Some? then restrictions
      else if repairs.Some? then repairs
      else if combos.Some? then combos
      else if !DamageValuesOk() then Some(Invalid(DamageValues))
      else if invasion.Some? then invasion
      else if abilities.Some? then abilities
      else FirstFailure(whenCombatDamaged, EffectCheck)
    }

    /** Every rule of `validate` at once, stated over the elements of the lists. */
    predicate Conforms(cat: Catalog, cfg: RuleConfig)
      reads this
    {
      FieldsConform(cfg) && ListsConform(cat)
    }

    /** The rules of `validate` on the list-valued fields, stated over their elements. */
    predicate ListsConform(cat: Catalog)
      reads this
    {
      && (unitPlacementRestrictions.Some? ==> forall t :: t in unitPlacementRestrictions.value ==> t in cat.territories)
      && (repairsUnits.Some? ==> forall u :: u in repairsUnits.value ==> u in cat.unitTypes)
      && (forall combo, u :: combo in requiresUnits && u in combo ==> u in cat.unitTypes)
      && DamageValuesOk()
      && (canInvadeOnlyFrom.Some? ==>
           && |canInvadeOnlyFrom.value| >= 1
           && (|| canInvadeOnlyFrom.value[0] == "all"
               || canInvadeOnlyFrom.value[0] == "none"
               || forall t :: t in canInvadeOnlyFrom.value ==> t in cat.unitTypes && t in cat.attached))
      && (forall e :: e in receivesAbilityWhenWith ==>
           |Split(e)| == 2 && Split(e)[1] in cat.unitTypes && Split(e)[0] == "canBlitz")
      && (forall d :: d in whenCombatDamaged ==>
           d.effect == UnitsMayNotLandOnCarrier || d.effect == UnitsMayNotLeaveAlliedCarrier)
    }

    /**
     * `validate`: raises for the first broken rule, in the order the checks
     * run, and passes when every rule holds.
     */
    method Validate(cat: Catalog, cfg: RuleConfig) returns (r: Outcome<Error>)
      ensures r.Pass? <==> Violation(cat, cfg).None?
      ensures r.Fail? ==> Violation(cat, cfg) == Some(r.error)
    {
      r := CheckFields(cfg);
      if r.Fail? { return; }
      r := CheckLists(cat);
    }

    /** The checks of `validate` on the list-valued fields, in the order they run. */
    method CheckLists(cat: Catalog) returns (r: Outcome<Error>)
      ensures r.Pass? <==> ListViolation(cat).None?
      ensures r.Fail? ==> ListViolation(cat) == Some(r.error)
    {
      r := NamesListed(cat);
      if r.Fail? { return; }
      r := RequiredCombosListed(cat);
      if r.Fail? { return; }
      if !DamageValuesOk() { return Fail(Invalid(DamageValues)); }
      r := TransportsListed(cat);
      if r.Fail? { return; }
      r := AbilitiesWellFormed(cat);
      if r.Fail? { return; }
      r := DamageEffectsKnown();
    }

    /** The checks of `validate` on the scalar fields, in the order they run. */
    method CheckFields(cfg: RuleConfig) returns (r: Outcome<Error>)
      ensures r.Pass? <==> FieldViolation(cfg).None?
      ensures r.Fail? ==> FieldViolation(cfg) == Some(r.error)
    {
      if isAir {
        if AirForbidden() { return Fail(Invalid(AirProperties)); }
      } else if isSea {
        if SeaForbidden() { return Fail(Invalid(SeaProperties)); }
      } else if LandForbidden() {
        return Fail(Invalid(LandProperties));
      }
      if !AAValuesOk() { return Fail(Invalid(AAValues)); }
      if carrierCapacity != -1 && carrierCost != -1 { return Fail(Invalid(CarrierCostAndCapacity)); }
      if transportCost != -1 && transportCapacity != -1 { return Fail(Invalid(TransportCostAndCapacity)); }
      if !BombingValuesOk() { return Fail(Invalid(BombingValues)); }
      if maxBuiltPerPlayer < -1 { return Fail(Invalid(MaxBuiltPerPlayer)); }
      if isCombatTransport && transportCapacity < 1 { return Fail(Invalid(CombatTransportCapacity)); }
      if !RestrictedTransportOk(cfg) { return Fail(Invalid(RestrictedTransportStrength)); }
      if !ConstructionComplete() { return Fail(Invalid(ConstructionIncomplete)); }
      if !ConstructionFlagged() { return Fail(Invalid(ConstructionNotFlagged)); }
      if constructionsPerTerrPerTypePerTurn > maxConstructionsPerTypePerTerr {
        return Fail(Invalid(ConstructionPerTurnAboveMax));
      }
      return Pass;
    }

    /** The first two list checks of `validate`: placement territories, then repairable unit types. */
    method NamesListed(cat: Catalog) returns (r: Outcome<Error>)
      ensures var restrictions := OptionalListed(cat, TerritoryKind, unitPlacementRestrictions);
        var repairs := OptionalListed(cat, UnitTypeKind, repairsUnits);
        && (r.Pass? <==> restrictions.None? && repairs.None?)
        && (r.Fail? ==> r.error == if restrictions.Some? then restrictions.value else repairs.value)
    {
      if unitPlacementRestrictions.Some? {
        var listed := ListedNames(cat, TerritoryKind, unitPlacementRestrictions.value);
        if listed.Failure? { return Fail(listed.error); }
      }
      if repairsUnits.Some? {
        var listed := ListedNames(cat, UnitTypeKind, repairsUnits.value);
        if listed.Failure? { return Fail(listed.error); }
      }
      return Pass;
    }

    /** The loop of `validate` over the required unit combinations. */
    method RequiredCombosListed(cat: Catalog) returns (r: Outcome<Error>)
      ensures r.Pass? <==> FirstFailure(requiresUnits, ComboCheck(cat)).None?
      ensures r.Fail? ==> FirstFailure(requiresUnits, ComboCheck(cat)) == Some(r.error)
    {
      var i := 0;
      while i < |requiresUnits|
        invariant 0 <= i <= |requiresUnits|
        invariant forall j :: 0 <= j < i ==> ComboCheck(cat)(requiresUnits[j]).None?
      {
        var listed := ListedNames(cat, UnitTypeKind, requiresUnits[i]);
        if listed.Failure? {
          FirstFailureAt(requiresUnits, ComboCheck(cat), i);
          return Fail(listed.error);
        }
        i := i + 1;
      }
      return Pass;
    }

    /** The loop of `validate` over the transports a unit may invade from. */
    method TransportsListed(cat: Catalog) returns (r: Outcome<Error>)
      ensures r.Pass? <==> InvasionViolation(cat, canInvadeOnlyFrom).None?
      ensures r.Fail? ==> InvasionViolation(cat, canInvadeOnlyFrom) == Some(r.error)
    {
      if canInvadeOnlyFrom.None? {
        return Pass;
      }
      var list := canInvadeOnlyFrom.value;
      if |list| == 0 {
        return Fail(IndexOutOfBounds(0));
      }
      if list[0] == "all" || list[0] == "none" {
        return Pass;
      }
      var i := 0;
      while i < |list|
        invariant 0 <= i <= |list|
        invariant forall j :: 0 <= j < i ==> TransportCheck(cat)(list[j]).None?
      {
        var transport := list[i];
        if transport !in cat.unitTypes {
          FirstFailureAt(list, TransportCheck(cat), i);
          return Fail(Unknown(UnitTypeKind, transport));
        }
        if transport !in cat.attached {
          FirstFailureAt(list, TransportCheck(cat), i);
          return Fail(NoAttachments(transport));
        }
        i := i + 1;
      }
      return Pass;
    }

    /** The loop of `validate` over the "ability:unitType" entries. */
    method AbilitiesWellFormed(cat: Catalog) returns (r: Outcome<Error>)
      ensures r.Pass? <==> FirstFailure(receivesAbilityWhenWith, AbilityCheck(cat)).None?
      ensures r.Fail? ==> FirstFailure(receivesAbilityWhenWith, AbilityCheck(cat)) == Some(r.error)
    {
      var i := 0;
      while i < |receivesAbilityWhenWith|
        invariant 0 <= i <= |receivesAbilityWhenWith|
        invariant forall j :: 0 <= j < i ==> AbilityCheck(cat)(receivesAbilityWhenWith[j]).None?
      {
        var s := Split(receivesAbilityWhenWith[i]);
        if |s| != 2 {
          FirstFailureAt(receivesAbilityWhenWith, AbilityCheck(cat), i);
          return Fail(Invalid(ReceivesAbilityParts));
        }
        if s[1] !in cat.unitTypes {
          FirstFailureAt(receivesAbilityWhenWith, AbilityCheck(cat), i);
          return Fail(Unknown(UnitTypeKind, s[1]));
        }
        if s[0] != "canBlitz" {
          FirstFailureAt(receivesAbilityWhenWith, AbilityCheck(cat), i);
          return Fail(Invalid(ReceivesAbilityTag));
        }
        i := i + 1;
      }
      return Pass;
    }

    /** The loop of `validate` over the combat-damage effects. */
    method DamageEffectsKnown() returns (r: Outcome<Error>)
      ensures r.Pass? <==> FirstFailure(whenCombatDamaged, EffectCheck).None?
      ensures r.Fail? ==> FirstFailure(whenCombatDamaged, EffectCheck) == Some(r.error)
    {
      var i := 0;
      while i < |whenCombatDamaged|
        invariant 0 <= i <= |whenCombatDamaged|
        invariant forall j :: 0 <= j < i ==> EffectCheck(whenCombatDamaged[j]).None?
      {
        var effect := whenCombatDamaged[i].effect;
        if effect == UnitsMayNotLandOnCarrier || effect == UnitsMayNotLeaveAlliedCarrier {
          i := i + 1;
        } else {
          FirstFailureAt(whenCombatDamaged, EffectCheck, i);
          return Fail(Invalid(CombatDamagedEffect));
        }
      }
      return Pass;
    }
  }
}
