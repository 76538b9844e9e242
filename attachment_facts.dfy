/**
 * Properties of the unit attachment that relate several of its operations:
 * how the jet-fighter bonus splits between attack and defense, what
 * `validate` accepts, and what the anti-aircraft setters do to the stacking
 * resolver.
 */
module AttachmentFacts {
  import opened Wrappers
  import opened Tokens
  import opened GameData
  import opened Resolution
  import opened AttachmentValues
  import opened UnitAttachments
  import opened Stacking

  /** The same player without the jet-fighter technology. */
  function WithoutJets(p: Player): Player
  {
    Player(p.name, p.isAI, p.tech.(jetFighter := false))
  }

  /**
   * The jet-fighter bonus goes to attack under the WW2V3 tech model and to
   * defense otherwise, never to both.
   */
  lemma JetBonusExclusive(ua: UnitAttachment, p: Player, cfg: RuleConfig)
    ensures cfg.ww2v3TechModel ==> ua.Defense(p, cfg) == ua.Defense(WithoutJets(p), cfg)
    ensures !cfg.ww2v3TechModel ==> ua.Attack(p, cfg) == ua.Attack(WithoutJets(p), cfg)
    ensures !(ua.Attack(p, cfg) != ua.Attack(WithoutJets(p), cfg) && ua.Defense(p, cfg) != ua.Defense(WithoutJets(p), cfg))
  {
  }

  /** For a plain fighter below the dice cap the bonus is exactly one point, on the side the tech model picks. */
  lemma JetBonusAmount(ua: UnitAttachment, p: Player, cfg: RuleConfig)
    requires ua.isAir && !ua.isStrategicBomber && !ua.isSub && !p.isAI && p.tech.jetFighter
    requires 0 < ua.attack < cfg.diceSides && 0 < ua.defense < cfg.diceSides
    ensures ua.Attack(p, cfg) == ua.attack + (if cfg.ww2v3TechModel then 1 else 0)
    ensures ua.Defense(p, cfg) == ua.defense + (if cfg.ww2v3TechModel then 0 else 1)
  {
  }

  /** With no super-sub, jet or AI bonus in play, attack is the raw value capped at the dice sides. */
  lemma AttackWithoutBonus(ua: UnitAttachment, p: Player, cfg: RuleConfig)
    requires !(ua.isSub && p.tech.superSubs) && !(ua.JetEligible() && p.tech.jetFighter && cfg.ww2v3TechModel) && !p.isAI
    ensures ua.Attack(p, cfg) == Min(ua.attack, cfg.diceSides)
  {
  }

  /** A human player's sub with super subs attacks at one more, capped at the dice sides. */
  lemma SuperSubAttack(ua: UnitAttachment, p: Player, cfg: RuleConfig)
    requires ua.attack > 0 && ua.isSub && p.tech.superSubs && !p.isAI
    requires !(ua.JetEligible() && p.tech.jetFighter && cfg.ww2v3TechModel)
    ensures ua.Attack(p, cfg) == Min(ua.attack + 1, cfg.diceSides)
  {
  }

  /** With no jet, super-sub or AI bonus in play, defense is the raw value capped at the dice sides. */
  lemma DefenseWithoutBonus(ua: UnitAttachment, p: Player, cfg: RuleConfig)
    requires !(ua.JetEligible() && p.tech.jetFighter && !cfg.ww2v3TechModel) && !p.isAI
    requires !(ua.isSub && p.tech.superSubs && cfg.superSubDefenseBonus > 0)
    ensures ua.Defense(p, cfg) == Min(ua.defense, cfg.diceSides)
  {
  }

  /** A human player's sub with super subs defends at the configured bonus more, capped at the dice sides. */
  lemma SuperSubDefense(ua: UnitAttachment, p: Player, cfg: RuleConfig)
    requires ua.defense > 0 && ua.isSub && p.tech.superSubs && cfg.superSubDefenseBonus > 0 && !p.isAI
    requires !(ua.JetEligible() && p.tech.jetFighter && !cfg.ww2v3TechModel)
    ensures ua.Defense(p, cfg) == Min(ua.defense + cfg.superSubDefenseBonus, cfg.diceSides)
  {
  }

  // ---------------------------------------------------------------------------
  // validate
  // ---------------------------------------------------------------------------

  /** An optional list of names passes its check exactly when it is absent or the catalog knows every name in it. */
  lemma NamesListedIff(ua: UnitAttachment, cat: Catalog, kind: EntityKind, list: Option<seq<string>>)
    ensures ua.OptionalListed(cat, kind, list).None? <==> (list.Some? ==> forall n :: n in list.value ==> Known(cat, kind, n))
  {
  }

  lemma CombosListed(combos: seq<seq<string>>, cat: Catalog)
    ensures FirstFailure(combos, ComboCheck(cat)).None? <==>
      forall combo, u :: combo in combos && u in combo ==> u in cat.unitTypes
  {
  }

  lemma AbilitiesListed(entries: seq<string>, cat: Catalog)
    ensures FirstFailure(entries, AbilityCheck(cat)).None? <==>
      forall e :: e in entries ==> |Split(e)| == 2 && Split(e)[1] in cat.unitTypes && Split(e)[0] == "canBlitz"
  {
  }

  lemma EffectsListed(effects: seq<DamageEffect>)
    ensures FirstFailure(effects, EffectCheck).None? <==>
      forall d :: d in effects ==> d.effect == UnitsMayNotLandOnCarrier || d.effect == UnitsMayNotLeaveAlliedCarrier
  {
  }

  /** A freshly created attachment passes `validate` whatever the catalog and rules. */
  lemma DefaultsConform(ua: UnitAttachment, cat: Catalog, cfg: RuleConfig)
    requires ua.HasDefaults()
    ensures ua.Violation(cat, cfg) == None
  {
  }

  /** An air unit that is also a sea unit fails the air rule, the first one checked. */
  lemma AirRuleFirst(ua: UnitAttachment, cat: Catalog, cfg: RuleConfig)
    requires ua.isAir && ua.isSea
    ensures ua.Violation(cat, cfg) == Some(Invalid(AirProperties))
  {
  }

  /** A damageable factory, or a damageable unit without maximum damage, never passes. */
  lemma DamageRulesEnforced(ua: UnitAttachment, cat: Catalog, cfg: RuleConfig)
    requires ua.canBeDamaged && (ua.isFactory || ua.maxDamage < 1)
    ensures ua.Violation(cat, cfg).Some?
  {
  }

  /** Both carrier values, or both transport values, never pass. */
  lemma CapacityAndCostExclusive(ua: UnitAttachment, cat: Catalog, cfg: RuleConfig)
    requires (ua.carrierCapacity != -1 && ua.carrierCost != -1) || (ua.transportCost != -1 && ua.transportCapacity != -1)
    ensures ua.Violation(cat, cfg).Some?
  {
  }

  /** Only canBlitz can be received from another unit. */
  lemma OnlyCanBlitzReceived(ua: UnitAttachment, cat: Catalog, cfg: RuleConfig, e: string)
    requires e in ua.receivesAbilityWhenWith && Split(e)[..] != [] && Split(e)[0] != "canBlitz"
    ensures ua.Violation(cat, cfg).Some?
  {
  }

  /** Construction values without the construction flag never pass. */
  lemma ConstructionNeedsFlag(ua: UnitAttachment, cat: Catalog, cfg: RuleConfig)
    requires !ua.isConstruction && (ua.constructionsPerTerrPerTypePerTurn >= 0 || !NoConstructionType(ua.constructionType))
    ensures ua.Violation(cat, cfg).Some?
  {
  }

  // ---------------------------------------------------------------------------
  // canBeGivenByTerritoryTo
  // ---------------------------------------------------------------------------

  /** "true" or "false" in the list drops every player named before it. */
  lemma BooleanWordRestarts(acc: seq<string>, word: string, rest: seq<string>, players: set<string>)
    requires IsBooleanWord(word) && word !in players
    ensures GivenTo(acc, [word] + rest, players) == GivenTo([], rest, players)
  {
    assert ([word] + rest)[1..] == rest;
  }

  // ---------------------------------------------------------------------------
  // The anti-aircraft setters and the stacking resolver together
  // ---------------------------------------------------------------------------

  /**
   * An attached unit type set up with isAA "true" under classic rules: one
   * gun fits into an empty territory and none next to a gun of the same
   * owner.
   */
  method ClassicAAGun(cfg: RuleConfig, unitType: string, owner: string) returns (empty: int, occupied: int)
    requires !ManyAAAllowed(cfg)
    ensures empty == 1 && occupied == 0
  {
    var ua := new UnitAttachment(Some(unitType));
    assert Lower("true") == "true";
    var r := ua.SetIsAA("true");
    var allied := (a: string, b: string) => a == b;
    empty := MaxToReachStackingLimit(ua, unitType, [], owner, allied, cfg);
    occupied := MaxToReachStackingLimit(ua, unitType, [Unit(unitType, owner)], owner, allied, cfg);
    assert DropLast([Unit(unitType, owner)]) == [];
  }

  /**
   * isAA "false" on an attached unit type sets the flags and clears the
   * stacking limit, and then raises on the null limit.
   */
  method ClearedAAGun(unitType: string) returns (r: Outcome<Error>, aa: bool, limit: Option<StackingLimit>)
    ensures r == Fail(NullValue) && !aa && limit == None
  {
    var ua := new UnitAttachment(Some(unitType));
    assert Lower("false") == "false";
    assert Lower("false") != "true";
    r := ua.SetIsAA("false");
    aa := ua.isAA;
    limit := ua.stackingLimit;
  }
}
