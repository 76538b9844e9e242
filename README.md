# UnitAttachment, modelled in Dafny

TripleA describes every unit type of a map with a `UnitAttachment`: about eighty typed properties (combat values, movement, transport and carrier capacities, construction, damage, anti-aircraft, capture behaviour, stacking limits), each with a sentinel default. While a map loads, the game XML drives the attachment's string setters, one `name="value"` option at a time. Then `validate` checks the finished record once against a fixed list of consistency rules. During play the game queries it: attack and defense values adjusted for the player's technologies, dice rolls, movement, bombardment, whether a unit may invade from a given transport, and how many more units of a type a territory can still take.

The model has these modules:

- `Wrappers`: Option, Result and an Outcome (pass, or fail with an error) for the exceptions the setters and `validate` raise.
- `Tokens`: the value codec every setter shares. Java's `String.split(":")` is modelled exactly: no colon gives the whole value, and trailing empty pieces are dropped. Also the boolean and integer token parsers, with the 32-bit range of Java `int`.
- `GameData`: what the attachment reaches through the game data, passed in as values. This is the catalog of player, unit-type, resource and territory names (territories in map order, plus the set of unit types that carry attachments), the querying player with its technologies, the rule options, and the error kinds.
- `Resolution`: name resolution (`getListedUnits`, `getListedTerritories`), the de-duplication of `getUnitTypesFromUnitList`, and the first-failure scan over a list.
- `AttachmentValues`: the small token grammars as functions, each with a contract over the split fields. It covers stacking limits, combat-damage records, keyed quantities, capture conversions, destroyed-when-captured modes, the special options, the player lists, the invasion list and the placement complement.
- `UnitAttachments`: the record itself as the class `UnitAttachment`.
  - Its fields carry the Java defaults.
  - Every setter and clearer is a method that changes only its own fields, and states the new value as a function of the old value and the token.
  - The combat derivations are functions of the fields, the player and the rules.
  - `Validate` returns the first violated rule, in the order the source checks them.
  - `Valid()` is the record's invariant, kept by the setters that establish it: the invasion list is never empty, a stacking limit lies between 0 and MAX_VALUE, damage ranges are ordered, counts are in their allowed ranges, capture keys are unique, and the special options come from the allowed two.
- `Stacking`: the stacking-limit resolver over a territory's occupants, given as (type, owner) pairs with an alliance relation.
- `AttachmentFacts`: lemmas that relate several operations.
  - How the jet-fighter bonus divides between attack and defense.
  - `validate` passes exactly when every rule holds.
  - A record with every default validates.
  - What the anti-aircraft setters do to the resolver.

An exception becomes an `Error` value, and a setter that raises returns it. Setters that loop over names (`setCanBeGivenByTerritoryTo`, `setCanBeCapturedOnEnteringBy`, `setDestroyedWhenCapturedBy`, `setSpecial`) are not atomic in the source. The model keeps that: the names before the failing one stay applied.

Where the code and its documentation differ, the model follows the code:
- `validate` stops at the first violated rule; it does not collect every problem.
- `setGivesMovement`, `setConsumesUnits`, `setCreatesUnitsList` and `setCreatesResourcesList` accept a one-field value and then fail reading the second field. This is the index error, not a field-count error.
- `whenCapturedChangesInto` names the first unit field in its unknown-unit error, whichever unit field was unknown.
- `setStackingLimit(null)` clears the limit and then fails, so `setIsAA("false")` always ends in an error.

## Model

| member | source | states |
|---|---|---|
| Tokens.Split | src/games/strategy/triplea/attatchments/UnitAttachment.java:285 | `value.split(":")`: every piece is colon-free; a colon-free value comes back as the single piece it is (so "" gives [""]); a value with a colon loses its trailing empty pieces, so the last piece kept is never empty ("::" gives []) |
| Tokens.JoinSplit | src/games/strategy/triplea/attatchments/UnitAttachment.java:285 | joining the pieces of a split with ":" gives back the value without its trailing colons, the only text the split drops |
| Tokens.SplitJoin | src/games/strategy/triplea/attatchments/UnitAttachment.java:593-596 | colon-free pieces joined with ":" split back into the same pieces, as long as the last piece is not empty |
| Tokens.ParseBool | src/games/strategy/triplea/attatchments/UnitAttachment.java:490-493 | the boolean token parser accepts exactly "true" and "false" in any letter case and yields true exactly for "true" |
| Tokens.ParseInt | src/games/strategy/triplea/attatchments/UnitAttachment.java:224-227 | the integer token parser yields only values inside the 32-bit range |
| Tokens.ParseIntRoundTrip | src/games/strategy/triplea/attatchments/UnitAttachment.java:1414 | `Integer.MAX_VALUE` (any 32-bit integer) written out in decimal parses back to itself |
| Tokens.IntToStringColonFree | src/games/strategy/triplea/attatchments/UnitAttachment.java:1414 | a written-out integer never contains the field separator, so it stays one field of the stacking token |
| Resolution.FirstUnknown | src/games/strategy/triplea/attatchments/UnitAttachment.java:1602-1607 | the position of the first name the catalog does not know: every earlier name is known and that one is not |
| Resolution.FirstUnknownAt | src/games/strategy/triplea/attatchments/UnitAttachment.java:1602-1607 | a scan that has passed only known names and stops at an unknown name or the end has found the first unknown position |
| Resolution.ListedNames | src/games/strategy/triplea/attatchments/UnitAttachment.java:1599-1625 | name resolution succeeds exactly when every name is known, returns the names in order, and otherwise raises naming the first unknown one |
| Resolution.Listed | src/games/strategy/triplea/attatchments/UnitAttachment.java:1599-1625 | the outcome of name resolution as a value: no error exactly when every name is known, else the error for the first unknown name |
| Resolution.Dedup | src/games/strategy/triplea/attatchments/UnitAttachment.java:79-88 | keeps each unit type once and keeps exactly the types that occur |
| Resolution.DedupKeepsFirstOccurrenceOrder | src/games/strategy/triplea/attatchments/UnitAttachment.java:79-88 | the kept types appear in the order of their first occurrence among the units |
| Resolution.UnitTypesFromUnitList | src/games/strategy/triplea/attatchments/UnitAttachment.java:79-88 | the distinct types of the units, each once, every unit's type included and nothing else, in first-occurrence order |
| Resolution.FirstFailure | src/games/strategy/triplea/attatchments/UnitAttachment.java:1548-1552 | a scan over a list-valued field reports no error exactly when every element passes its check |
| Resolution.FirstFailureAt | src/games/strategy/triplea/attatchments/UnitAttachment.java:1548-1552 | when all elements before one pass and that one fails, the scan reports that element's error |
| AttachmentValues.BoolToken | src/games/strategy/triplea/attatchments/UnitAttachment.java:490-493 | a boolean setter's token gives its boolean, and any other token raises naming it |
| AttachmentValues.IntToken | src/games/strategy/triplea/attatchments/UnitAttachment.java:224-227 | an integer setter's token gives its 32-bit value, and any other token raises naming it |
| AttachmentValues.StackingLimitOf | src/games/strategy/triplea/attatchments/UnitAttachment.java:1436-1444 | a stacking limit is read exactly from two fields, a count >= 0 and one of owned/allied/total, keeping both; with a valid count the bad scope is what raises |
| AttachmentValues.AlliedUnlimitedToken | src/games/strategy/triplea/attatchments/UnitAttachment.java:1414 | the token that isAAmovement writes reads back as the limit (MAX_VALUE, allied) |
| AttachmentValues.AlliedToken | src/games/strategy/triplea/attatchments/UnitAttachment.java:1414 | any non-negative 32-bit count followed by ":allied" reads back as an allied limit of that count |
| AttachmentValues.SplitAllied | src/games/strategy/triplea/attatchments/UnitAttachment.java:1414 | a colon-free count followed by ":allied" splits into exactly the count and "allied" |
| AttachmentValues.DamageRecord | src/games/strategy/triplea/attatchments/UnitAttachment.java:692-708 | a combat-damage record is read exactly from 3 or 4 fields with 0 <= from <= to, keeping both bounds, the effect and the optional argument; a wrong field count raises |
| AttachmentValues.KeyedQuantity | src/games/strategy/triplea/attatchments/UnitAttachment.java:1174-1306 | a keyed quantity is accepted exactly for two fields naming a known unit type (resource for fuel) and an allowed count, and yields that (name, count); one field raises the array-index error (a field-count error for fuel), an unknown name raises naming it |
| AttachmentValues.UnitsToMakeFacts | src/games/strategy/triplea/attatchments/UnitAttachment.java:354-363 | the unit/count pairs are accepted exactly when every unit type is known and every count is an integer; the map's keys are then exactly the starting keys plus the named types, the new ones all known, and each named type holds the count of its last pair |
| AttachmentValues.UnitsToMake | src/games/strategy/triplea/attatchments/UnitAttachment.java:354-363 | the pair loop of whenCapturedChangesInto: when it raises there are pairs, and the error is the unknown-unit error naming the first type field or a not-an-integer error |
| AttachmentValues.UnitsToMakeStep | src/games/strategy/triplea/attatchments/UnitAttachment.java:355-362 | a well-formed pair stores its count under its type and the loop goes on with the next pair |
| AttachmentValues.UnitsToMakeStops | src/games/strategy/triplea/attatchments/UnitAttachment.java:355-362 | a malformed pair makes the loop raise: naming the first type field for an unknown type, else naming the count that is not an integer |
| AttachmentValues.UnitsToMakeFailsAt | src/games/strategy/triplea/attatchments/UnitAttachment.java:355-362 | when every pair before one is well formed and that one is not, the loop raises exactly the error of that pair |
| AttachmentValues.PairsFrom | src/games/strategy/triplea/attatchments/UnitAttachment.java:355-362 | every pair from a position on is well formed exactly when the first one is and every one after it is |
| AttachmentValues.UnitsToMakeAccepts | src/games/strategy/triplea/attatchments/UnitAttachment.java:354-363 | the pair loop succeeds exactly when every pair from the current position on has a known unit type and an integer count |
| AttachmentValues.UnitsToMakeKeys | src/games/strategy/triplea/attatchments/UnitAttachment.java:354-363 | on success the map holds the keys it started with plus exactly the type fields from the current position on |
| AttachmentValues.UnitsToMakeKeeps | src/games/strategy/triplea/attatchments/UnitAttachment.java:354-363 | on success a starting type that no pair names keeps its starting count |
| AttachmentValues.UnitsToMakeValues | src/games/strategy/triplea/attatchments/UnitAttachment.java:354-363 | on success each named type holds the count of the last pair naming it, as repeated puts into the map leave it |
| AttachmentValues.KeptThroughPair | src/games/strategy/triplea/attatchments/UnitAttachment.java:355-362 | a starting type that no pair from the current one on names keeps its count across the put of the current pair |
| AttachmentValues.LastPairsThroughPair | src/games/strategy/triplea/attatchments/UnitAttachment.java:355-362 | the count each type gets from its last pair after the current one still holds once the current pair's put comes first |
| AttachmentValues.LastPairFirst | src/games/strategy/triplea/attatchments/UnitAttachment.java:355-362 | when the current pair is the last one naming its type, no later pair names that type |
| AttachmentValues.LastPairLater | src/games/strategy/triplea/attatchments/UnitAttachment.java:355-362 | the last pair naming a type stays the last one once the loop has moved past an earlier pair |
| AttachmentValues.TypesFrom | src/games/strategy/triplea/attatchments/UnitAttachment.java:355-362 | the type fields from a position on are the current one and those after the current pair |
| AttachmentValues.CaptureRecord | src/games/strategy/triplea/attatchments/UnitAttachment.java:341-365 | a capture conversion is accepted exactly for an odd field count >= 5, both players known (or "any"), a boolean flag and well-formed unit/count pairs; it is keyed "from:to", keeps the flag, its types are exactly the named ones, all known, each with the count of its last pair; a bad count, first player, second player or flag raises that error, in that order, and a bad pair raises naming the first type field or the bad count |
| AttachmentValues.CaptureRecordPairError | src/games/strategy/triplea/attatchments/UnitAttachment.java:354-363 | with a well-formed header, the first malformed pair decides the error the record raises |
| AttachmentValues.KeyIndex | src/games/strategy/triplea/attatchments/UnitAttachment.java:364 | the position of a key in an insertion-ordered map, or its length when the key is absent |
| AttachmentValues.LinkedPut | src/games/strategy/triplea/attatchments/UnitAttachment.java:364 | putting into an insertion-ordered map replaces an existing key's value in place and appends a new key at the end |
| AttachmentValues.LinkedPutFacts | src/games/strategy/triplea/attatchments/UnitAttachment.java:364 | a put keeps keys unique, stores the new value under its key, leaves every other entry alone and grows the map only for a new key |
| AttachmentValues.CaptureModeOf | src/games/strategy/triplea/attatchments/UnitAttachment.java:384-395 | a leading "BY:" (when BY is not a player) gives by-mode and the rest; otherwise a leading "FROM:" (when FROM is not a player) gives from-mode and the rest; any other value is by-mode and kept whole |
| AttachmentValues.CaptureModePrefixes | src/games/strategy/triplea/attatchments/UnitAttachment.java:384-395 | "BY:" + rest reads as by-mode and rest, "FROM:" + rest as from-mode and rest, and an unprefixed value as by-mode and the value |
| AttachmentValues.FromPrefixedMode | src/games/strategy/triplea/attatchments/UnitAttachment.java:407-414 | the from-setter reads an unprefixed value in from-mode with the value whole (by-mode on "FROM:" + value if FROM is a player name), and a value with a BY:/FROM: prefix exactly as the by-setter does |
| AttachmentValues.DestroyedRules | src/games/strategy/triplea/attatchments/UnitAttachment.java:397-401 | one destroyed-when-captured rule per player name, in order, each with the selected mode |
| AttachmentValues.FirstOutside | src/games/strategy/triplea/attatchments/UnitAttachment.java:618-623 | the position of the first special option outside the allowed set: all earlier ones are allowed and that one is not |
| AttachmentValues.FirstOutsideAt | src/games/strategy/triplea/attatchments/UnitAttachment.java:618-623 | a scan that has passed only allowed options and stops at a disallowed one or the end has found the first disallowed position |
| AttachmentValues.FirstUngivable | src/games/strategy/triplea/attatchments/UnitAttachment.java:285-295 | the position of the first name that is neither a player nor a boolean word: every earlier name is one of those and that one is not |
| AttachmentValues.KeptCons | src/games/strategy/triplea/attatchments/UnitAttachment.java:285-295 | reading the first name moves a player into the list and lets a boolean word empty it, before the rest is read |
| AttachmentValues.GivenTo | src/games/strategy/triplea/attatchments/UnitAttachment.java:283-296 | the setter passes exactly when every name is a player or a boolean word; with players only, it appends all of them; it never adds a name that is not a player |
| AttachmentValues.GivenToScan | src/games/strategy/triplea/attatchments/UnitAttachment.java:283-296 | the outcome raises naming the first name that is neither a player nor a boolean word, and the list is what the names before it built: players appended, a boolean word emptying it |
| AttachmentValues.InvasionList | src/games/strategy/triplea/attatchments/UnitAttachment.java:636-650 | a non-empty split is accepted, a leading none/all (any case) becomes that single word, any other list is kept; an empty split raises |
| AttachmentValues.InvadeAllowed | src/games/strategy/triplea/attatchments/UnitAttachment.java:659-663 | no restriction, an empty one, or one starting with "" or "all" allows every transport; otherwise the transport must be listed |
| AttachmentValues.InvasionSentinels | src/games/strategy/triplea/attatchments/UnitAttachment.java:636-664 | after setting "none" only a transport type literally called none is allowed; after "all" every transport is |
| AttachmentValues.Complement | src/games/strategy/triplea/attatchments/UnitAttachment.java:583-594 | the territories not among the allowed names, in map order |
| AttachmentValues.RestrictionsAreComplement | src/games/strategy/triplea/attatchments/UnitAttachment.java:593-596 | joining the complement with ":" and splitting it again gives the complement back (a single empty name when it is empty) |
| UnitAttachments.ComboCheck | src/games/strategy/triplea/attatchments/UnitAttachment.java:1550-1551 | a required combination passes exactly when every unit in it is a known type |
| UnitAttachments.TransportCheck | src/games/strategy/triplea/attatchments/UnitAttachment.java:1560-1566 | a transport passes exactly when it is a known unit type with attachments, and an unknown one raises naming it |
| UnitAttachments.AbilityCheck | src/games/strategy/triplea/attatchments/UnitAttachment.java:1572-1582 | an entry passes exactly when it splits into two parts, canBlitz and a known unit type; any other number of parts raises the two-parts error |
| UnitAttachments.EffectCheck | src/games/strategy/triplea/attatchments/UnitAttachment.java:1587-1594 | a combat-damage effect passes exactly when it is one of the two carrier effects, and otherwise raises a broken-rule error |
| UnitAttachments.InvasionViolation | src/games/strategy/triplea/attatchments/UnitAttachment.java:1558-1569 | the transport list is accepted exactly when it is unset or starts with all/none or names only known unit types that carry attachments |
| UnitAttachments.ParseCaptureRecord | src/games/strategy/triplea/attatchments/UnitAttachment.java:341-365 | the parsing loop of whenCapturedChangesInto computes the capture record |
| UnitAttachments.ParseUnitPairs | src/games/strategy/triplea/attatchments/UnitAttachment.java:355-363 | the loop over the unit/count pairs builds the same map, or raises the same error, as the pair rule |
| UnitAttachments.CollectSpecial | src/games/strategy/triplea/attatchments/UnitAttachment.java:617-622 | the special options before the first one outside none/canOnlyPlaceInOriginalTerritories, all of them allowed, and the error naming that one if there is one |
| UnitAttachments.AnyMatches | src/games/strategy/triplea/attatchments/UnitAttachment.java:586-591 | a territory matches exactly when its name is among the allowed names |
| UnitAttachments.RestrictedList | src/games/strategy/triplea/attatchments/UnitAttachment.java:578-595 | the accumulated restriction string is the complement of the allowed territories joined with ":" |
| UnitAttachments.UnitAttachment.constructor | src/games/strategy/triplea/attatchments/UnitAttachment.java:94-192 | a new attachment carries every field default and satisfies the record's invariant |
| UnitAttachments.UnitAttachment.SetIsParatroop | src/games/strategy/triplea/attatchments/UnitAttachment.java:195-197 | accepted and ignored |
| UnitAttachments.UnitAttachment.SetIsMechanized | src/games/strategy/triplea/attatchments/UnitAttachment.java:200-202 | accepted and ignored |
| UnitAttachments.UnitAttachment.SetConstructionType | src/games/strategy/triplea/attatchments/UnitAttachment.java:784-787 | stores the construction type as given |
| UnitAttachments.UnitAttachment.SetCanIntercept | src/games/strategy/triplea/attatchments/UnitAttachment.java:204-207 | assigns `canIntercept` the boolean the token spells (any letter case); any other token raises and leaves it unchanged |
| UnitAttachments.UnitAttachment.SetCanEscort | src/games/strategy/triplea/attatchments/UnitAttachment.java:214-217 | assigns `canEscort` the boolean the token spells (any letter case); any other token raises and leaves it unchanged |
| UnitAttachments.UnitAttachment.SetIsAirTransport | src/games/strategy/triplea/attatchments/UnitAttachment.java:258-261 | assigns `isAirTransport` the boolean the token spells (any letter case); any other token raises and leaves it unchanged |
| UnitAttachments.UnitAttachment.SetIsAirTransportable | src/games/strategy/triplea/attatchments/UnitAttachment.java:268-271 | assigns `isAirTransportable` the boolean the token spells (any letter case); any other token raises and leaves it unchanged |
| UnitAttachments.UnitAttachment.SetCanBlitz | src/games/strategy/triplea/attatchments/UnitAttachment.java:426-429 | assigns `canBlitz` the boolean the token spells (any letter case); any other token raises and leaves it unchanged |
| UnitAttachments.UnitAttachment.SetIsSub | src/games/strategy/triplea/attatchments/UnitAttachment.java:436-439 | assigns `isSub` the boolean the token spells (any letter case); any other token raises and leaves it unchanged |
| UnitAttachments.UnitAttachment.SetIsCombatTransport | src/games/strategy/triplea/attatchments/UnitAttachment.java:446-449 | assigns `isCombatTransport` the boolean the token spells (any letter case); any other token raises and leaves it unchanged |
| UnitAttachments.UnitAttachment.SetIsStrategicBomber | src/games/strategy/triplea/attatchments/UnitAttachment.java:461-464 | assigns `isStrategicBomber` the boolean the token spells (any letter case); any other token raises and leaves it unchanged |
| UnitAttachments.UnitAttachment.SetIsDestroyer | src/games/strategy/triplea/attatchments/UnitAttachment.java:466-469 | assigns `isDestroyer` the boolean the token spells (any letter case); any other token raises and leaves it unchanged |
| UnitAttachments.UnitAttachment.SetCanBombard | src/games/strategy/triplea/attatchments/UnitAttachment.java:476-479 | assigns `canBombard` the boolean the token spells (any letter case); any other token raises and leaves it unchanged |
| UnitAttachments.UnitAttachment.SetIsAir | src/games/strategy/triplea/attatchments/UnitAttachment.java:490-493 | assigns `isAir` the boolean the token spells (any letter case); any other token raises and leaves it unchanged |
| UnitAttachments.UnitAttachment.SetIsSea | src/games/strategy/triplea/attatchments/UnitAttachment.java:500-503 | assigns `isSea` the boolean the token spells (any letter case); any other token raises and leaves it unchanged |
| UnitAttachments.UnitAttachment.SetIsFactory | src/games/strategy/triplea/attatchments/UnitAttachment.java:525-528 | assigns `isFactory` the boolean the token spells (any letter case); any other token raises and leaves it unchanged |
| UnitAttachments.UnitAttachment.SetCanProduceUnits | src/games/strategy/triplea/attatchments/UnitAttachment.java:535-538 | assigns `canProduceUnits` the boolean the token spells (any letter case); any other token raises and leaves it unchanged |
| UnitAttachments.UnitAttachment.SetIsConstruction | src/games/strategy/triplea/attatchments/UnitAttachment.java:779-782 | assigns `isConstruction` the boolean the token spells (any letter case); any other token raises and leaves it unchanged |
| UnitAttachments.UnitAttachment.SetIsMarine | src/games/strategy/triplea/attatchments/UnitAttachment.java:814-817 | assigns `isMarine` the boolean the token spells (any letter case); any other token raises and leaves it unchanged |
| UnitAttachments.UnitAttachment.SetIsInfantry | src/games/strategy/triplea/attatchments/UnitAttachment.java:824-827 | assigns `isInfantry` the boolean the token spells (any letter case); any other token raises and leaves it unchanged |
| UnitAttachments.UnitAttachment.SetIsLandTransport | src/games/strategy/triplea/attatchments/UnitAttachment.java:834-837 | assigns `isLandTransport` the boolean the token spells (any letter case); any other token raises and leaves it unchanged |
| UnitAttachments.UnitAttachment.SetIsTwoHit | src/games/strategy/triplea/attatchments/UnitAttachment.java:854-857 | assigns `isTwoHit` the boolean the token spells (any letter case); any other token raises and leaves it unchanged |
| UnitAttachments.UnitAttachment.SetArtillery | src/games/strategy/triplea/attatchments/UnitAttachment.java:909-914 | assigns `isArtillery` the boolean the token spells (any letter case); any other token raises and leaves it unchanged |
| UnitAttachments.UnitAttachment.SetArtillerySupportable | src/games/strategy/triplea/attatchments/UnitAttachment.java:921-926 | assigns `isArtillerySupportable` the boolean the token spells (any letter case); any other token raises and leaves it unchanged |
| UnitAttachments.UnitAttachment.SetCanScramble | src/games/strategy/triplea/attatchments/UnitAttachment.java:1049-1052 | assigns `canScramble` the boolean the token spells (any letter case); any other token raises and leaves it unchanged |
| UnitAttachments.UnitAttachment.SetIsAirBase | src/games/strategy/triplea/attatchments/UnitAttachment.java:1099-1102 | assigns `isAirBase` the boolean the token spells (any letter case); any other token raises and leaves it unchanged |
| UnitAttachments.UnitAttachment.SetIsInfrastructure | src/games/strategy/triplea/attatchments/UnitAttachment.java:1109-1112 | assigns `isInfrastructure` the boolean the token spells (any letter case); any other token raises and leaves it unchanged |
| UnitAttachments.UnitAttachment.SetCanBeDamaged | src/games/strategy/triplea/attatchments/UnitAttachment.java:1119-1122 | assigns `canBeDamaged` the boolean the token spells (any letter case); any other token raises and leaves it unchanged |
| UnitAttachments.UnitAttachment.SetCanDieFromReachingMaxDamage | src/games/strategy/triplea/attatchments/UnitAttachment.java:1129-1132 | assigns `canDieFromReachingMaxDamage` the boolean the token spells (any letter case); any other token raises and leaves it unchanged |
| UnitAttachments.UnitAttachment.SetIsSuicide | src/games/strategy/triplea/attatchments/UnitAttachment.java:1139-1142 | assigns `isSuicide` the boolean the token spells (any letter case); any other token raises and leaves it unchanged |
| UnitAttachments.UnitAttachment.SetIsKamikaze | src/games/strategy/triplea/attatchments/UnitAttachment.java:1149-1152 | assigns `isKamikaze` the boolean the token spells (any letter case); any other token raises and leaves it unchanged |
| UnitAttachments.UnitAttachment.SetIsAAforCombatOnly | src/games/strategy/triplea/attatchments/UnitAttachment.java:1380-1383 | assigns `isAAforCombatOnly` the boolean the token spells (any letter case); any other token raises and leaves it unchanged |
| UnitAttachments.UnitAttachment.SetIsAAforBombingThisUnitOnly | src/games/strategy/triplea/attatchments/UnitAttachment.java:1390-1393 | assigns `isAAforBombingThisUnitOnly` the boolean the token spells (any letter case); any other token raises and leaves it unchanged |
| UnitAttachments.UnitAttachment.SetIsRocket | src/games/strategy/triplea/attatchments/UnitAttachment.java:1400-1403 | assigns `isRocket` the boolean the token spells (any letter case); any other token raises and leaves it unchanged |
| UnitAttachments.UnitAttachment.SetCanNotMoveDuringCombatMove | src/games/strategy/triplea/attatchments/UnitAttachment.java:1419-1422 | assigns `canNotMoveDuringCombatMove` the boolean the token spells (any letter case); any other token raises and leaves it unchanged |
| UnitAttachments.UnitAttachment.SetAirDefense | src/games/strategy/triplea/attatchments/UnitAttachment.java:224-227 | assigns `airDefense` the 32-bit integer the token spells; a non-integer raises and leaves it unchanged |
| UnitAttachments.UnitAttachment.SetAirAttack | src/games/strategy/triplea/attatchments/UnitAttachment.java:241-244 | assigns `airAttack` the 32-bit integer the token spells; a non-integer raises and leaves it unchanged |
| UnitAttachments.UnitAttachment.SetCanProduceXUnits | src/games/strategy/triplea/attatchments/UnitAttachment.java:545-548 | assigns `canProduceXUnits` the 32-bit integer the token spells; a non-integer raises and leaves it unchanged |
| UnitAttachments.UnitAttachment.SetCanOnlyBePlacedInTerritoryValuedAtX | src/games/strategy/triplea/attatchments/UnitAttachment.java:555-558 | assigns `canOnlyBePlacedInTerritoryValuedAtX` the 32-bit integer the token spells; a non-integer raises and leaves it unchanged |
| UnitAttachments.UnitAttachment.SetConstructionsPerTerrPerTypePerTurn | src/games/strategy/triplea/attatchments/UnitAttachment.java:794-797 | assigns `constructionsPerTerrPerTypePerTurn` the 32-bit integer the token spells; a non-integer raises and leaves it unchanged |
| UnitAttachments.UnitAttachment.SetMaxConstructionsPerTypePerTerr | src/games/strategy/triplea/attatchments/UnitAttachment.java:804-807 | assigns `maxConstructionsPerTypePerTerr` the 32-bit integer the token spells; a non-integer raises and leaves it unchanged |
| UnitAttachments.UnitAttachment.SetTransportCapacity | src/games/strategy/triplea/attatchments/UnitAttachment.java:844-847 | assigns `transportCapacity` the 32-bit integer the token spells; a non-integer raises and leaves it unchanged |
| UnitAttachments.UnitAttachment.SetTransportCost | src/games/strategy/triplea/attatchments/UnitAttachment.java:869-872 | assigns `transportCost` the 32-bit integer the token spells; a non-integer raises and leaves it unchanged |
| UnitAttachments.UnitAttachment.SetMaxBuiltPerPlayer | src/games/strategy/triplea/attatchments/UnitAttachment.java:879-882 | assigns `maxBuiltPerPlayer` the 32-bit integer the token spells; a non-integer raises and leaves it unchanged |
| UnitAttachments.UnitAttachment.SetCarrierCapacity | src/games/strategy/triplea/attatchments/UnitAttachment.java:889-892 | assigns `carrierCapacity` the 32-bit integer the token spells; a non-integer raises and leaves it unchanged |
| UnitAttachments.UnitAttachment.SetCarrierCost | src/games/strategy/triplea/attatchments/UnitAttachment.java:899-902 | assigns `carrierCost` the 32-bit integer the token spells; a non-integer raises and leaves it unchanged |
| UnitAttachments.UnitAttachment.SetUnitSupportCount | src/games/strategy/triplea/attatchments/UnitAttachment.java:928-932 | assigns `unitSupportCount` the 32-bit integer the token spells; a non-integer raises and leaves it unchanged |
| UnitAttachments.UnitAttachment.SetMovement | src/games/strategy/triplea/attatchments/UnitAttachment.java:939-942 | assigns `movement` the 32-bit integer the token spells; a non-integer raises and leaves it unchanged |
| UnitAttachments.UnitAttachment.SetAttack | src/games/strategy/triplea/attatchments/UnitAttachment.java:954-957 | assigns `attack` the 32-bit integer the token spells; a non-integer raises and leaves it unchanged |
| UnitAttachments.UnitAttachment.SetBombard | src/games/strategy/triplea/attatchments/UnitAttachment.java:959-962 | assigns `bombard` the 32-bit integer the token spells; a non-integer raises and leaves it unchanged |
| UnitAttachments.UnitAttachment.SetDefense | src/games/strategy/triplea/attatchments/UnitAttachment.java:1000-1003 | assigns `defense` the 32-bit integer the token spells; a non-integer raises and leaves it unchanged |
| UnitAttachments.UnitAttachment.SetMaxScrambleCount | src/games/strategy/triplea/attatchments/UnitAttachment.java:1059-1062 | assigns `maxScrambleCount` the 32-bit integer the token spells; a non-integer raises and leaves it unchanged |
| UnitAttachments.UnitAttachment.SetMaxScrambleDistance | src/games/strategy/triplea/attatchments/UnitAttachment.java:1069-1072 | assigns `maxScrambleDistance` the 32-bit integer the token spells; a non-integer raises and leaves it unchanged |
| UnitAttachments.UnitAttachment.SetMaxOperationalDamage | src/games/strategy/triplea/attatchments/UnitAttachment.java:1079-1082 | assigns `maxOperationalDamage` the 32-bit integer the token spells; a non-integer raises and leaves it unchanged |
| UnitAttachments.UnitAttachment.SetMaxDamage | src/games/strategy/triplea/attatchments/UnitAttachment.java:1089-1092 | assigns `maxDamage` the 32-bit integer the token spells; a non-integer raises and leaves it unchanged |
| UnitAttachments.UnitAttachment.SetBlockade | src/games/strategy/triplea/attatchments/UnitAttachment.java:1159-1162 | assigns `blockade` the 32-bit integer the token spells; a non-integer raises and leaves it unchanged |
| UnitAttachments.UnitAttachment.SetBombingBonus | src/games/strategy/triplea/attatchments/UnitAttachment.java:1328-1331 | assigns `bombingBonus` the 32-bit integer the token spells; a non-integer raises and leaves it unchanged |
| UnitAttachments.UnitAttachment.SetBombingMaxDieSides | src/games/strategy/triplea/attatchments/UnitAttachment.java:1338-1341 | assigns `bombingMaxDieSides` the 32-bit integer the token spells; a non-integer raises and leaves it unchanged |
| UnitAttachments.UnitAttachment.SetAttackAA | src/games/strategy/triplea/attatchments/UnitAttachment.java:1360-1363 | assigns `attackAA` the 32-bit integer the token spells; a non-integer raises and leaves it unchanged |
| UnitAttachments.UnitAttachment.SetAttackAAmaxDieSides | src/games/strategy/triplea/attatchments/UnitAttachment.java:1370-1373 | assigns `attackAAmaxDieSides` the 32-bit integer the token spells; a non-integer raises and leaves it unchanged |
| UnitAttachments.UnitAttachment.SetCanBeGivenByTerritoryTo | src/games/strategy/triplea/attatchments/UnitAttachment.java:283-296 | raises naming the first name that is neither a player nor a boolean word, and passes when there is none; the list becomes what the names before that one build: players appended, a boolean word clearing it |
| UnitAttachments.UnitAttachment.ClearCanBeGivenByTerritoryTo | src/games/strategy/triplea/attatchments/UnitAttachment.java:303-306 | empties the list |
| UnitAttachments.UnitAttachment.SetCanBeCapturedOnEnteringBy | src/games/strategy/triplea/attatchments/UnitAttachment.java:313-324 | appends the known players up to the first unknown name and raises naming it; passes when all are known |
| UnitAttachments.UnitAttachment.ClearCanBeCapturedOnEnteringBy | src/games/strategy/triplea/attatchments/UnitAttachment.java:331-334 | empties the list |
| UnitAttachments.UnitAttachment.SetDestroyedWhenCapturedBy | src/games/strategy/triplea/attatchments/UnitAttachment.java:382-405 | appends one rule per known player up to the first unknown name, which raises; the mode and names come from the value with a BY: or FROM: prefix removed as CaptureModeOf states |
| UnitAttachments.UnitAttachment.SetDestroyedWhenCapturedFrom | src/games/strategy/triplea/attatchments/UnitAttachment.java:407-414 | the by-setter on the value with "FROM:" put in front unless it has a mode prefix; so an unprefixed value (FROM not a player) appends from-mode rules for its known players up to the first unknown name, which raises |
| UnitAttachments.UnitAttachment.ClearDestroyedWhenCapturedBy | src/games/strategy/triplea/attatchments/UnitAttachment.java:421-424 | empties the list |
| UnitAttachments.UnitAttachment.SetWhenCapturedChangesInto | src/games/strategy/triplea/attatchments/UnitAttachment.java:341-365 | raises exactly when the record does not parse (with CaptureRecord's error) and otherwise puts it under "from:to", replacing an earlier entry in place; keys stay unique |
| UnitAttachments.UnitAttachment.ClearWhenCapturedChangesInto | src/games/strategy/triplea/attatchments/UnitAttachment.java:372-375 | empties the map |
| UnitAttachments.UnitAttachment.SetSpecial | src/games/strategy/triplea/attatchments/UnitAttachment.java:615-624 | adds the options up to the first one outside none/canOnlyPlaceInOriginalTerritories, which raises; the set never holds anything else |
| UnitAttachments.UnitAttachment.ClearSpecial | src/games/strategy/triplea/attatchments/UnitAttachment.java:631-634 | empties the set |
| UnitAttachments.UnitAttachment.SetRequiresUnits | src/games/strategy/triplea/attatchments/UnitAttachment.java:671-674 | appends the split combination |
| UnitAttachments.UnitAttachment.ClearRequiresUnits | src/games/strategy/triplea/attatchments/UnitAttachment.java:681-684 | empties the list |
| UnitAttachments.UnitAttachment.SetWhenCombatDamaged | src/games/strategy/triplea/attatchments/UnitAttachment.java:692-708 | appends exactly one record when it parses and otherwise raises and changes nothing; every stored range has 0 <= from <= to |
| UnitAttachments.UnitAttachment.ClearWhenCombatDamaged | src/games/strategy/triplea/attatchments/UnitAttachment.java:715-718 | empties the list |
| UnitAttachments.UnitAttachment.SetReceivesAbilityWhenWith | src/games/strategy/triplea/attatchments/UnitAttachment.java:725-728 | appends the value unchecked (validate checks it) |
| UnitAttachments.UnitAttachment.ClearReceivesAbilityWhenWith | src/games/strategy/triplea/attatchments/UnitAttachment.java:735-738 | empties the list |
| UnitAttachments.UnitAttachment.SetGivesMovement | src/games/strategy/triplea/attatchments/UnitAttachment.java:1174-1188 | puts name -> count when the keyed quantity is accepted, a repeated name overwriting its count, and otherwise raises and changes nothing; the map only ever holds any count |
| UnitAttachments.UnitAttachment.ClearGivesMovement | src/games/strategy/triplea/attatchments/UnitAttachment.java:1195-1198 | empties the map |
| UnitAttachments.UnitAttachment.SetConsumesUnits | src/games/strategy/triplea/attatchments/UnitAttachment.java:1205-1220 | puts name -> count when the keyed quantity is accepted, a repeated name overwriting its count, and otherwise raises and changes nothing; the map only ever holds counts >= 1 |
| UnitAttachments.UnitAttachment.ClearConsumesUnits | src/games/strategy/triplea/attatchments/UnitAttachment.java:1227-1230 | empties the map |
| UnitAttachments.UnitAttachment.SetCreatesUnitsList | src/games/strategy/triplea/attatchments/UnitAttachment.java:1237-1252 | puts name -> count when the keyed quantity is accepted, a repeated name overwriting its count, and otherwise raises and changes nothing; the map only ever holds counts >= 1 |
| UnitAttachments.UnitAttachment.ClearCreatesUnitsList | src/games/strategy/triplea/attatchments/UnitAttachment.java:1259-1262 | empties the map |
| UnitAttachments.UnitAttachment.SetCreatesResourcesList | src/games/strategy/triplea/attatchments/UnitAttachment.java:1269-1284 | puts name -> count when the keyed quantity is accepted, a repeated name overwriting its count, and otherwise raises and changes nothing; the map only ever holds counts >= 1 |
| UnitAttachments.UnitAttachment.ClearCreatesResourcesList | src/games/strategy/triplea/attatchments/UnitAttachment.java:1323-1326 | empties the map |
| UnitAttachments.UnitAttachment.SetFuelCost | src/games/strategy/triplea/attatchments/UnitAttachment.java:1291-1306 | puts name -> count when the keyed quantity is accepted, a repeated name overwriting its count, and otherwise raises and changes nothing; the map only ever holds counts >= 0 |
| UnitAttachments.UnitAttachment.ClearFuelCost | src/games/strategy/triplea/attatchments/UnitAttachment.java:1313-1316 | empties the map |
| UnitAttachments.UnitAttachment.SetUnitPlacementRestrictions | src/games/strategy/triplea/attatchments/UnitAttachment.java:565-568 | stores the split territory list |
| UnitAttachments.UnitAttachment.SetUnitPlacementOnlyAllowedIn | src/games/strategy/triplea/attatchments/UnitAttachment.java:576-598 | raises naming the first unknown territory; otherwise the restriction becomes every map territory not allowed, in map order |
| UnitAttachments.UnitAttachment.SetRepairsUnits | src/games/strategy/triplea/attatchments/UnitAttachment.java:600-603 | stores the split unit list |
| UnitAttachments.UnitAttachment.SetCanInvadeOnlyFrom | src/games/strategy/triplea/attatchments/UnitAttachment.java:636-650 | stores the list with a leading none/all collapsed to that word, or raises on an empty split and keeps the old list |
| UnitAttachments.UnitAttachment.CanInvadeFrom | src/games/strategy/triplea/attatchments/UnitAttachment.java:652-664 | an unknown transport raises; an unset, empty, ""- or all-led list allows it; otherwise it is allowed exactly when listed |
| UnitAttachments.UnitAttachment.SetStackingLimit | src/games/strategy/triplea/attatchments/UnitAttachment.java:1429-1445 | a null value clears the limit and raises; unattached raises; otherwise a parsed limit is stored and a malformed one raises leaving the old limit |
| UnitAttachments.UnitAttachment.SetIsAAmovement | src/games/strategy/triplea/attatchments/UnitAttachment.java:1410-1417 | sets canNotMoveDuringCombatMove; true sets the limit (MAX_VALUE, allied); false clears it and ends in the null-value error |
| UnitAttachments.UnitAttachment.SetIsAA | src/games/strategy/triplea/attatchments/UnitAttachment.java:1348-1353 | sets isAA and canNotMoveDuringCombatMove to the token, then the stacking limit as isAAmovement does; a bad token changes nothing |
| UnitAttachments.UnitAttachment.Attack | src/games/strategy/triplea/attatchments/UnitAttachment.java:964-983 | a positive base gains one point for a sub with super subs, one for a jet-eligible unit with jets under the WW2V3 tech model and the AI bonus for an AI player, capped at the dice sides; a base <= 0 is only capped |
| UnitAttachments.UnitAttachment.Defense | src/games/strategy/triplea/attatchments/UnitAttachment.java:1005-1025 | a positive base gains the super-sub bonus (when positive) for a sub with super subs, one point for a jet-eligible unit with jets outside the WW2V3 tech model and the AI bonus for an AI player, capped at the dice sides; a base <= 0 is only capped |
| UnitAttachments.UnitAttachment.AirAttack | src/games/strategy/triplea/attatchments/UnitAttachment.java:246-256 | the base plus one for a jet-eligible unit with jets, capped at the dice sides; otherwise the base capped at the dice sides |
| UnitAttachments.UnitAttachment.AirDefense | src/games/strategy/triplea/attatchments/UnitAttachment.java:229-239 | the base plus one for a jet-eligible unit with jets, capped at the dice sides; otherwise the base capped at the dice sides |
| UnitAttachments.UnitAttachment.Movement | src/games/strategy/triplea/attatchments/UnitAttachment.java:944-952 | the base plus two for an air unit of a long-range-air player, otherwise the base |
| UnitAttachments.UnitAttachment.AttackRolls | src/games/strategy/triplea/attatchments/UnitAttachment.java:1027-1036 | zero exactly when the attack is zero (or heavy bombers roll zero dice); heavy-bomber roll count for a strategic bomber with heavy bombers; else one |
| UnitAttachments.UnitAttachment.DefenseRolls | src/games/strategy/triplea/attatchments/UnitAttachment.java:1038-1047 | as attack rolls, for defense, with the heavy-bomber count only under LHTR heavy bombers |
| UnitAttachments.UnitAttachment.Bombard | src/games/strategy/triplea/attatchments/UnitAttachment.java:985-988 | a positive bombard value, else the attack value |
| UnitAttachments.UnitAttachment.UnitSupportCount | src/games/strategy/triplea/attatchments/UnitAttachment.java:990-993 | the stored count when it is positive, otherwise 1 |
| UnitAttachments.UnitAttachment.CanBombardFor | src/games/strategy/triplea/attatchments/UnitAttachment.java:481-488 | bombards exactly when flagged so or a destroyer of a player with destroyer bombard |
| UnitAttachments.UnitAttachment.OptionalListed | src/games/strategy/triplea/attatchments/UnitAttachment.java:1544-1547 | an unset list passes; a set list passes exactly when every name resolves |
| UnitAttachments.UnitAttachment.FieldViolation | src/games/strategy/triplea/attatchments/UnitAttachment.java:1481-1543 | the scalar checks find a violation exactly when a scalar rule is broken, and what they report is a broken-rule error |
| UnitAttachments.UnitAttachment.ListViolation | src/games/strategy/triplea/attatchments/UnitAttachment.java:1544-1596 | the list checks find nothing exactly when every element of every list obeys its rule |
| UnitAttachments.UnitAttachment.Violation | src/games/strategy/triplea/attatchments/UnitAttachment.java:1479-1597 | validate finds nothing exactly when every rule holds, and the scalar rules are checked before the lists |
| UnitAttachments.UnitAttachment.Validate | src/games/strategy/triplea/attatchments/UnitAttachment.java:1479-1597 | passes exactly when no rule is violated, and otherwise raises the first violated rule in source order |
| UnitAttachments.UnitAttachment.CheckFields | src/games/strategy/triplea/attatchments/UnitAttachment.java:1481-1543 | the scalar-field checks pass exactly when no scalar rule is violated, and otherwise raise the first violated one |
| UnitAttachments.UnitAttachment.CheckLists | src/games/strategy/triplea/attatchments/UnitAttachment.java:1544-1596 | the list checks pass exactly when no list rule is violated, and otherwise raise the first violated one |
| UnitAttachments.UnitAttachment.NamesListed | src/games/strategy/triplea/attatchments/UnitAttachment.java:1544-1547 | passes exactly when the placement territories and the repairable unit types all resolve, else raises for the territories first |
| UnitAttachments.UnitAttachment.RequiredCombosListed | src/games/strategy/triplea/attatchments/UnitAttachment.java:1548-1552 | passes exactly when every required combination names known unit types, else raises the first failure |
| UnitAttachments.UnitAttachment.TransportsListed | src/games/strategy/triplea/attatchments/UnitAttachment.java:1558-1569 | the transport-list rule of validate, as its loop |
| UnitAttachments.UnitAttachment.AbilitiesWellFormed | src/games/strategy/triplea/attatchments/UnitAttachment.java:1570-1584 | the receivesAbilityWhenWith rule of validate, as its loop |
| UnitAttachments.UnitAttachment.DamageEffectsKnown | src/games/strategy/triplea/attatchments/UnitAttachment.java:1585-1596 | the whenCombatDamaged rule of validate, as its loop |
| Stacking.CountStacked | src/games/strategy/triplea/attatchments/UnitAttachment.java:1468-1474 | the number of occupants matching the type and the scope's owner filter, never more than the occupants |
| Stacking.EffectiveMax | src/games/strategy/triplea/attatchments/UnitAttachment.java:1458-1467 | an unlimited limit on an AA-flagged type collapses to 1 under classic rules; otherwise the stored maximum |
| Stacking.MaxToReachStackingLimit | src/games/strategy/triplea/attatchments/UnitAttachment.java:1452-1476 | never negative; MAX_VALUE without a limit; otherwise what remains up to the effective maximum, and zero once it is reached or passed |
| Stacking.CountStackedAppend | src/games/strategy/triplea/attatchments/UnitAttachment.java:1474 | counting is additive over concatenated occupant lists |
| Stacking.CountStackedOrder | src/games/strategy/triplea/attatchments/UnitAttachment.java:1474 | the order of occupants does not matter |
| Stacking.ScopesNest | src/games/strategy/triplea/attatchments/UnitAttachment.java:1468-1473 | allied counts never exceed total counts, and owned never exceed allied when a player is its own ally |
| Stacking.PlacingOneMore | src/games/strategy/triplea/attatchments/UnitAttachment.java:1474-1475 | one more counted occupant lowers the answer by one until it reaches zero |
| Stacking.OthersIgnored | src/games/strategy/triplea/attatchments/UnitAttachment.java:1468-1475 | an occupant outside the type and scope does not change the answer |
| Stacking.ClassicSingleAA | src/games/strategy/triplea/attatchments/UnitAttachment.java:1460-1466 | under classic rules an AA type with an unlimited limit fits at most once, and exactly once where none is counted yet |
| Stacking.ModernAAUnlimited | src/games/strategy/triplea/attatchments/UnitAttachment.java:1460-1466 | with WW2V2, WW2V3 or multiple AA allowed the unlimited limit stays MAX_VALUE minus the count |
| AttachmentFacts.JetBonusExclusive | src/games/strategy/triplea/attatchments/UnitAttachment.java:964-1025 | the jet bonus leaves defense alone under the WW2V3 tech model and attack alone otherwise, and never changes both |
| AttachmentFacts.AttackWithoutBonus | src/games/strategy/triplea/attatchments/UnitAttachment.java:964-983 | with no super-sub, jet or AI bonus in play, attack is the base capped at the dice sides |
| AttachmentFacts.SuperSubAttack | src/games/strategy/triplea/attatchments/UnitAttachment.java:964-983 | a human player's positive-attack sub with super subs, and no jet bonus, attacks at one more, capped at the dice sides |
| AttachmentFacts.DefenseWithoutBonus | src/games/strategy/triplea/attatchments/UnitAttachment.java:1005-1025 | with no super-sub, jet or AI bonus in play, defense is the base capped at the dice sides |
| AttachmentFacts.SuperSubDefense | src/games/strategy/triplea/attatchments/UnitAttachment.java:1005-1025 | a human player's positive-defense sub with super subs, and no jet bonus, defends at the configured bonus more, capped at the dice sides |
| AttachmentFacts.JetBonusAmount | src/games/strategy/triplea/attatchments/UnitAttachment.java:964-1025 | for a human non-bomber air unit below the dice cap the jet bonus is exactly one point on the tech model's side |
| AttachmentFacts.NamesListedIff | src/games/strategy/triplea/attatchments/UnitAttachment.java:1544-1547 | an optional list of names passes exactly when it is unset or every name in it is known |
| AttachmentFacts.CombosListed | src/games/strategy/triplea/attatchments/UnitAttachment.java:1548-1552 | the required-units scan passes exactly when every unit in every combination is a known type |
| AttachmentFacts.AbilitiesListed | src/games/strategy/triplea/attatchments/UnitAttachment.java:1570-1584 | the receivesAbilityWhenWith scan passes exactly when every entry is canBlitz:<known unit type> |
| AttachmentFacts.EffectsListed | src/games/strategy/triplea/attatchments/UnitAttachment.java:1585-1596 | the whenCombatDamaged scan passes exactly when every effect is one of the two carrier effects |
| AttachmentFacts.DefaultsConform | src/games/strategy/triplea/attatchments/UnitAttachment.java:94-187 | a record with every default passes validate for any catalog and rules |
| AttachmentFacts.AirRuleFirst | src/games/strategy/triplea/attatchments/UnitAttachment.java:1481-1487 | an air unit that is also a sea unit fails with the air rule, the first checked |
| AttachmentFacts.DamageRulesEnforced | src/games/strategy/triplea/attatchments/UnitAttachment.java:1553-1557 | a damageable factory or a damageable unit without max damage never validates |
| AttachmentFacts.CapacityAndCostExclusive | src/games/strategy/triplea/attatchments/UnitAttachment.java:1505-1512 | carrier cost with carrier capacity, or transport cost with transport capacity, never validates |
| AttachmentFacts.OnlyCanBlitzReceived | src/games/strategy/triplea/attatchments/UnitAttachment.java:1570-1584 | a received ability other than canBlitz never validates |
| AttachmentFacts.ConstructionNeedsFlag | src/games/strategy/triplea/attatchments/UnitAttachment.java:1535-1539 | construction values without isConstruction never validate |
| AttachmentFacts.BooleanWordRestarts | src/games/strategy/triplea/attatchments/UnitAttachment.java:291-292 | a boolean word in the player list drops every player named before it |
| AttachmentFacts.ClassicAAGun | src/games/strategy/triplea/attatchments/UnitAttachment.java:1348-1476 | after isAA true under classic rules one gun fits in an empty territory and none beside an own gun |
| AttachmentFacts.ClearedAAGun | src/games/strategy/triplea/attatchments/UnitAttachment.java:1410-1445 | isAA false clears the flags and the stacking limit and then raises the null-value error |

## Left out

- `toString` and `toStringShortAndOnlyImportantDifferences` (UnitAttachment.java:1665-1951): display text driven by global display options, with no effect on the record.
- `getReceivesAbilityWhenWithMap` and `getUnitsWhichReceivesAbilityWhenWith` (:740-772): they work on unit collections and match predicates that are not part of this model.
- The `UnitSupportAttachment` rules that `setArtillery`, `setArtillerySupportable` and `setUnitSupportCount` create or update (:909-932): these are calls into another attachment class. Only the field assignment is modelled.
- `get(UnitType)` and `get(UnitType, name)` (:63-77): they look an attachment up in the game data. Here the attachment is passed in directly.
- The plain getters: each one reads a field, so the model reads the field.
- `TechTracker`, `TechAttachment`, `Properties` and `getData()`: they become parameters (a `Player` with its technology flags, a `RuleConfig`, a `Catalog`). Ambient game state is not modelled.
- `getBool` and `getInt` are inherited from `DefaultAttachment`, which is not part of this model. They are modelled as `Boolean`-style "true"/"false" in any letter case, and as `Integer.parseInt` (an optional sign, decimal digits, the 32-bit range). The error values name the token. Both are assumptions about the unseen parent class.
- Letter case is folded for ASCII letters only.
- UnitAttachments.UnitAttachment.SetUnitPlacementOnlyAllowedIn: `allowed.matches(territoryName)` is a regular-expression match. It is modelled as name equality, which agrees whenever territory names contain no regular-expression metacharacters.
- UnitAttachments.UnitAttachment.Attack: the bonuses are added without 32-bit wrap-around. In Java a sum past `Integer.MAX_VALUE` wraps to a negative number; the model caps it at the dice sides instead.
- UnitAttachments.UnitAttachment.Defense: the same wrap-around gap as for Attack.
- UnitAttachments.UnitAttachment.AirAttack: the jet bonus is added without 32-bit wrap-around. An `airAttack` of `Integer.MAX_VALUE` with jet fighters wraps to `Integer.MIN_VALUE` in Java, while the model gives the dice sides.
- UnitAttachments.UnitAttachment.AirDefense: the same wrap-around gap as for AirAttack.
- UnitAttachments.UnitAttachment.Movement: the long-range bonus of 2 is added without 32-bit wrap-around. A movement within 2 of `Integer.MAX_VALUE` wraps to a negative number in Java, while the model gives the mathematical sum.
- `setAttatchedTo` belongs to `DefaultAttachment`, which is not part of this model. The attached unit type is given to the constructor instead, and `setStackingLimit` only asks whether it is set.
- The `LinkedHashMap` of `whenCapturedChangesInto` is a sequence of key/value pairs with unique keys, in insertion order. `IntegerMap` and `HashSet` fields are Dafny maps and sets, whose iteration order is not modelled.
- The `validate` loops over `requiresUnits`, `canInvadeOnlyFrom`, `receivesAbilityWhenWith` and `whenCombatDamaged` are separate methods. Each is proved equal to its part of the first-violation function.
- The construction-type field is a Java `String` that a map could leave null. In the model it is a Dafny string, so the null case of the construction rules is covered by the "none"/"" comparison alone.
