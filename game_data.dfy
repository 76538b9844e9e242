/**
 * What the attachment reaches through `getData()`, `TechTracker`,
 * `TechAttachment` and `Properties`, passed in explicitly: the catalog of
 * named entities, the querying player with its technologies, and the game's
 * rule configuration. Also the exceptions the attachment raises.
 */
module GameData {

  /**
   * Names the game defines. `territories` keeps the map's order, which
   * `setUnitPlacementOnlyAllowedIn` writes out; `attached` holds the unit
   * types that carry at least one attachment.
   */
  datatype Catalog = Catalog(
    players: set<string>,
    unitTypes: set<string>,
    resources: set<string>,
    territories: seq<string>,
    attached: set<string>)

  /** The technologies of a player that the derivations look at. */
  datatype TechFlags = TechFlags(
    superSubs: bool,
    jetFighter: bool,
    longRangeAir: bool,
    heavyBomber: bool,
    destroyerBombard: bool)

  datatype Player = Player(name: string, isAI: bool, tech: TechFlags)

  /** The game options the attachment reads. */
  datatype RuleConfig = RuleConfig(
    diceSides: int,
    ww2v3TechModel: bool,
    aiBonusAttack: int,
    aiBonusDefense: int,
    superSubDefenseBonus: int,
    heavyBomberDiceRolls: int,
    lhtrHeavyBombers: bool,
    ww2v2: bool,
    ww2v3: bool,
    multipleAAPerTerritory: bool,
    transportCasualtiesRestricted: bool)

  /** A unit standing in a territory: its type and its owner. */
  datatype Unit = Unit(unitType: string, owner: string)

  datatype EntityKind = PlayerKind | UnitTypeKind | ResourceKind | TerritoryKind

  /** The consistency rules of `validate`, in the order it checks them. */
  datatype Rule =
    | AirProperties
    | SeaProperties
    | LandProperties
    | AAValues
    | CarrierCostAndCapacity
    | TransportCostAndCapacity
    | BombingValues
    | MaxBuiltPerPlayer
    | CombatTransportCapacity
    | RestrictedTransportStrength
    | ConstructionIncomplete
    | ConstructionNotFlagged
    | ConstructionPerTurnAboveMax
    | DamageValues
    | ReceivesAbilityParts
    | ReceivesAbilityTag
    | CombatDamagedEffect

  /**
   * The exceptions. `NotABoolean` and `NotAnInteger` are the
   * IllegalArgumentException of `getBool`/`getInt`; `IndexOutOfBounds` and
   * `NullValue` are the runtime exceptions that a few setters run into;
   * the rest are the IllegalStateException and GameParseException the
   * attachment throws itself.
   */
  datatype Error =
    | NotABoolean(token: string)
    | NotAnInteger(token: string)
    | Unknown(kind: EntityKind, name: string)
    | NotAllowed(option: string)
    | FieldCount
    | OutOfRange
    | IndexOutOfBounds(index: int)
    | NullValue
    | NotAttached
    | NoAttachments(unitType: string)
    | Invalid(rule: Rule)

  /** Whether `name` names an entity of `kind` in the catalog. */
  predicate Known(cat: Catalog, kind: EntityKind, name: string)
  {
    match kind
    case PlayerKind => name in cat.players
    case UnitTypeKind => name in cat.unitTypes
    case ResourceKind => name in cat.resources
    case TerritoryKind => name in cat.territories
  }
}
