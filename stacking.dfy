/**
 * `getMaximumNumberOfThisUnitTypeToReachStackingLimit`: how many more units
 * of a type a player may bring into a territory before the type's stacking
 * limit is reached. The territory's occupants are given as a sequence of
 * units, and the alliance relation as a predicate on (owner, other owner).
 */
module Stacking {
  import opened Tokens
  import opened GameData
  import opened AttachmentValues
  import opened UnitAttachments

  /** Whether a unit counts against the limit of `unitType` for `owner` under `scope`. */
  predicate Counted(u: Unit, unitType: string, owner: string, scope: Scope, allied: (string, string) -> bool)
  {
    u.unitType == unitType &&
    match scope
    case Owned => u.owner == owner
    case Allied => allied(owner, u.owner)
    case Total => true
  }

  /** The number of occupants that count against the limit. */
  function CountStacked(units: seq<Unit>, unitType: string, owner: string, scope: Scope, allied: (string, string) -> bool): (n: nat)
    ensures n <= |units|
  {
    if units == [] then 0
    else CountStacked(DropLast(units), unitType, owner, scope, allied) + (if Counted(Last(units), unitType, owner, scope, allied) then 1 else 0)
  }

  /** Whether the unit type is flagged as anti-aircraft in any of the three ways. */
  predicate AAFlagged(ua: UnitAttachment)
    reads ua`isAAforBombingThisUnitOnly, ua`isAAforCombatOnly, ua`isAA
  {
    ua.isAAforBombingThisUnitOnly || ua.isAAforCombatOnly || ua.isAA
  }

  /** Whether the rules allow more than one anti-aircraft gun per territory. */
  predicate ManyAAAllowed(cfg: RuleConfig)
  {
    cfg.ww2v2 || cfg.ww2v3 || cfg.multipleAAPerTerritory
  }

  /** Whether an unlimited limit of an anti-aircraft type falls back to one per territory. */
  predicate CollapsesToOne(ua: UnitAttachment, cfg: RuleConfig)
    reads ua`stackingLimit, ua`isAAforBombingThisUnitOnly, ua`isAAforCombatOnly, ua`isAA
  {
    ua.stackingLimit.Some? && ua.stackingLimit.value.max == MaxInt && AAFlagged(ua) && !ManyAAAllowed(cfg)
  }

  /**
   * The limit in force: the stored count, except that an unlimited
   * (Integer.MAX_VALUE) limit on an anti-aircraft type is 1 unless WW2V2,
   * WW2V3 or multiple AA per territory is on.
   */
  function EffectiveMax(ua: UnitAttachment, cfg: RuleConfig): (m: int)
    requires ua.stackingLimit.Some?
    reads ua`stackingLimit, ua`isAAforBombingThisUnitOnly, ua`isAAforCombatOnly, ua`isAA
    ensures CollapsesToOne(ua, cfg) ==> m == 1
    ensures !CollapsesToOne(ua, cfg) ==> m == ua.stackingLimit.value.max
  {
    if CollapsesToOne(ua, cfg) then 1 else ua.stackingLimit.value.max
  }

  /**
   * The resolver: Integer.MAX_VALUE without a limit; otherwise the room left
   * under the limit in force, never below zero.
   */
  function MaxToReachStackingLimit(ua: UnitAttachment, unitType: string, occupants: seq<Unit>, owner: string,
                                   allied: (string, string) -> bool, cfg: RuleConfig): (r: int)
    reads ua`stackingLimit, ua`isAAforBombingThisUnitOnly, ua`isAAforCombatOnly, ua`isAA
    ensures r >= 0
    ensures ua.stackingLimit.None? ==> r == MaxInt
    ensures ua.stackingLimit.Some? ==>
      var n := CountStacked(occupants, unitType, owner, ua.stackingLimit.value.scope, allied);
      && r + n >= EffectiveMax(ua, cfg)
      && (r > 0 ==> r + n == EffectiveMax(ua, cfg))
  {
    if ua.stackingLimit.None? then MaxInt
    else
      var room := EffectiveMax(ua, cfg) - CountStacked(occupants, unitType, owner, ua.stackingLimit.value.scope, allied);
      if room > 0 then room else 0
  }

  // ---------------------------------------------------------------------------
  // Properties of the count and of the resolver
  // ---------------------------------------------------------------------------

  /** Counting over two groups of occupants adds up. */
  lemma {:induction false} CountStackedAppend(a: seq<Unit>, b: seq<Unit>, unitType: string, owner: string, scope: Scope, allied: (string, string) -> bool)
    ensures CountStacked(a + b, unitType, owner, scope, allied)
         == CountStacked(a, unitType, owner, scope, allied) + CountStacked(b, unitType, owner, scope, allied)
    decreases |b|
  {
    if b != [] {
      assert DropLast(a + b) == a + DropLast(b);
      assert Last(a + b) == Last(b);
      CountStackedAppend(a, DropLast(b), unitType, owner, scope, allied);
    } else {
      assert a + b == a;
    }
  }

  /** The order of the occupants does not matter. */
  lemma CountStackedOrder(a: seq<Unit>, b: seq<Unit>, unitType: string, owner: string, scope: Scope, allied: (string, string) -> bool)
    ensures CountStacked(a + b, unitType, owner, scope, allied) == CountStacked(b + a, unitType, owner, scope, allied)
  {
    CountStackedAppend(a, b, unitType, owner, scope, allied);
    CountStackedAppend(b, a, unitType, owner, scope, allied);
  }

  /**
   * Owned units count under every scope: the owned count is at most the
   * allied count when a player is allied with itself, which is at most the
   * total.
   */
  lemma {:induction false} ScopesNest(units: seq<Unit>, unitType: string, owner: string, allied: (string, string) -> bool)
    ensures CountStacked(units, unitType, owner, Allied, allied) <= CountStacked(units, unitType, owner, Total, allied)
    ensures allied(owner, owner) ==>
      CountStacked(units, unitType, owner, Owned, allied) <= CountStacked(units, unitType, owner, Allied, allied)
  {
    if units != [] {
      ScopesNest(DropLast(units), unitType, owner, allied);
    }
  }

  /** Bringing in one more unit that counts uses up one place, down to zero. */
  lemma PlacingOneMore(ua: UnitAttachment, unitType: string, occupants: seq<Unit>, owner: string,
                       allied: (string, string) -> bool, cfg: RuleConfig, u: Unit)
    requires ua.stackingLimit.Some?
    requires Counted(u, unitType, owner, ua.stackingLimit.value.scope, allied)
    ensures var before := MaxToReachStackingLimit(ua, unitType, occupants, owner, allied, cfg);
      MaxToReachStackingLimit(ua, unitType, occupants + [u], owner, allied, cfg) == if before > 0 then before - 1 else 0
  {
    CountStackedAppend(occupants, [u], unitType, owner, ua.stackingLimit.value.scope, allied);
    assert DropLast([u]) == [];
  }

  /** A unit that does not count (another type, or outside the scope) changes nothing. */
  lemma OthersIgnored(ua: UnitAttachment, unitType: string, occupants: seq<Unit>, owner: string,
                      allied: (string, string) -> bool, cfg: RuleConfig, u: Unit)
    requires ua.stackingLimit.Some?
    requires !Counted(u, unitType, owner, ua.stackingLimit.value.scope, allied)
    ensures MaxToReachStackingLimit(ua, unitType, occupants + [u], owner, allied, cfg)
         == MaxToReachStackingLimit(ua, unitType, occupants, owner, allied, cfg)
  {
    CountStackedAppend(occupants, [u], unitType, owner, ua.stackingLimit.value.scope, allied);
    assert DropLast([u]) == [];
  }

  /**
   * Under classic rules an unlimited anti-aircraft type fits once per
   * territory: the resolver answers 1 when no counted unit is there and 0
   * otherwise.
   */
  lemma ClassicSingleAA(ua: UnitAttachment, unitType: string, occupants: seq<Unit>, owner: string,
                        allied: (string, string) -> bool, cfg: RuleConfig)
    requires ua.stackingLimit.Some? && ua.stackingLimit.value.max == MaxInt
    requires AAFlagged(ua) && !ManyAAAllowed(cfg)
    ensures var r := MaxToReachStackingLimit(ua, unitType, occupants, owner, allied, cfg);
      && r <= 1
      && (r == 1 <==> CountStacked(occupants, unitType, owner, ua.stackingLimit.value.scope, allied) == 0)
  {
  }

  /** With an anti-aircraft rule set on, the unlimited limit stays unlimited. */
  lemma ModernAAUnlimited(ua: UnitAttachment, unitType: string, occupants: seq<Unit>, owner: string,
                          allied: (string, string) -> bool, cfg: RuleConfig)
    requires ua.stackingLimit.Some? && ua.stackingLimit.value.max == MaxInt
    requires ManyAAAllowed(cfg)
    ensures EffectiveMax(ua, cfg) == MaxInt
    ensures |occupants| < MaxInt ==>
      MaxToReachStackingLimit(ua, unitType, occupants, owner, allied, cfg)
        == MaxInt - CountStacked(occupants, unitType, owner, ua.stackingLimit.value.scope, allied)
  {
  }
}
