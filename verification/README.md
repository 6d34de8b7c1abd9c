# druid-game combat core in Dafny

A model of the turn-based combat engine of the druid-game repository. It has
three parts, each proved correct against its own contract.

- **Battle resolver** (`Battle`). It has three pure integer formulas:
  - `calculate_hit_rate`: weapon hit rate plus attacker accuracy minus defender evasion, never clamped.
  - `resolve_attack`: `NoWeapon` without a weapon; otherwise `DirectHit` when the die roll is at or below the hit rate, else `GlancingBlow`.
  - `calculate_damage`: weapon damage plus strength minus defense, times 1.0 or 0.5, cast back to an integer.
- **Data model** (`Weapons`, `Combatants`). It covers `Weapon`, `CombatStats`, `Combatant` and `Health`.
  - `Health` keeps `0 <= current <= max` by clamping after every `damage`.
  - Its status is derived from the counter, with `Healthy` tested before `Defeated`.
- **Two small state machines** (`Combat`, `Services`).
  - The demonstration turn loop: `attack` with the fixed roll 50, then `damage_step` on the defender only, then `combat_example` with its three attacks.
  - The service container: four write-once optional slots. `Services.RegisterAll` stands for a front end making successive `register_*` calls and ignoring their results. The lemmas about sequences of registrations are stated over it.

Every entity is an immutable datatype. Every mutating Rust method becomes a
function that returns the new state, together with what the method returned.

- The `&mut self` methods `Health::damage`, `Combatant::give_weapon` and `register_*` return their new values. So does the free function `attack`, which takes both combatants by `&mut`.
- The accessors `Health::current`, `Health::max` and `Combatant::current_weapon` are the datatype fields `current`, `max` and `currentWeapon`.
- `ValidHealth` is the invariant of `Health`. `ValidCombatant` lifts it to a combatant.

The float step of `calculate_damage` (`(damage as f64) * multiplier`, then `as i32`) is
modelled on `real` with truncation toward zero. `TruncatedProducts` proves that
it equals the integer `TruncHalf` for a glancing blow and the identity for a direct hit.
Dafny's Euclidean `/` is never used on a negative operand.

The turn loop appears three times in the program, with the same logic:
`druid-game/src/combat.rs`, `druid-game/src/lib.rs:16-62` and
`wasm-frontend/src/lib.rs:30-75`. One model covers all three. Their text output
is not modelled, but what it reports (the result, the damage and the status) is
kept in a `TurnRecord`.

The program's own doc comments and its code differ on one point. The model follows the code:
- The `HealthStatus` variants (`src/combatant.rs:113-118`) and the `check_status` doc comment (`src/combatant.rs:215-216`) say `Healthy` means health at its maximum and `Defeated` means health at 0. The code tests `current >= max` first, so a health of maximum 0 is always `Healthy`, even at 0.
- As a result, damage at least as large as the current health gives `Defeated` only when the maximum is positive (`LethalDamage`).

`combat_example` never checks for defeat between its attacks; `Exchanges` models that.

## Model

| member | source | states |
|---|---|---|
| Weapons.NewWeapon | druid-game/src/weapon.rs:33-35 | the weapon stores name, hit rate and damage exactly as given, with no range check |
| Weapons.Display | druid-game/src/weapon.rs:15-19 | the display text is the weapon's name: rebuilding the weapon from it gives the weapon back |
| Combatants.NewStats | src/combatant.rs:98-107 | all four modifiers start at zero |
| Combatants.NewHealth | src/combatant.rs:142-147 | new health is full (current = max), satisfies the invariant and reads Healthy; a negative maximum is excluded |
| Combatants.Clamp | src/combatant.rs:205-210 | the result lies in 0..=max, keeps max, is unchanged when already in range, and snaps to the bound that was crossed |
| Combatants.CheckStatus | src/combatant.rs:231-239 | Healthy iff current >= max; Defeated iff below max and current <= 0; Hurt iff strictly between 0 and max |
| Combatants.Damage | src/combatant.rs:199-203 | the new health keeps the invariant and max; current is current - amount clamped to 0..=max (negative amounts heal); the returned status is that of the new health |
| Combatants.StatusOfValidHealth | src/combatant.rs:212-216 | on a valid health: Healthy exactly at the maximum, Defeated exactly at 0 with a positive maximum, Hurt strictly in between |
| Combatants.LethalDamage | src/combatant.rs:199-210 | damage at least the current health leaves 0, Defeated when max > 0 and Healthy when max = 0 |
| Combatants.DamageMonotonic | src/combatant.rs:199-203 | more damage never leaves more health |
| Combatants.DamageComposes | src/combatant.rs:199-210 | two damages whose first stays in range equal one damage of their sum |
| Combatants.DocumentedDamageRuns | src/combatant.rs:185-197 | from 10/10, damage 7 gives 3 and Hurt, and 7 again gives 0 and Defeated |
| Combatants.TestedStatuses | src/combatant.rs:246-273 | fresh 10/10 health is Healthy; damage 5 from it gives Hurt; damage 10 gives Defeated |
| Combatants.NewCombatant | src/combatant.rs:34-41 | a new combatant has the given name, health 10 of 10 (Healthy), zeroed stats and no weapon |
| Combatants.GiveWeapon | src/combatant.rs:80-82 | the given weapon becomes the current one; name, stats and health are unchanged |
| Combatants.GiveWeaponLastWins | src/combatant.rs:60-82 | only the last weapon given is held; giving the held weapon changes nothing |
| Battle.TruncHalf | src/battle.rs:322-324 | halving toward zero: for d >= 0 the result r has 0 <= r and d-1 <= 2r <= d; for d < 0 it has r <= 0 and d <= 2r <= d+1 |
| Battle.TruncateToInt | src/battle.rs:324 | the integer cast of a float truncates toward zero: the result is within one of x, on the side of zero |
| Battle.TruncatedProducts | src/battle.rs:322-324 | a base times 1.0, truncated, is the base; times 0.5, truncated, is TruncHalf of the base |
| Battle.CalculateHitRate | src/battle.rs:195-208 | no value exactly when the attacker is unarmed; otherwise weapon hit rate + accuracy - evasion, unclamped |
| Battle.ResolveAttack | src/battle.rs:79-95 | NoWeapon iff unarmed; never Miss; when armed, DirectHit iff roll <= hit rate and GlancingBlow iff roll > hit rate |
| Battle.Multiplier | src/battle.rs:305-311 | Miss and NoWeapon have no multiplier; DirectHit has 1.0 and GlancingBlow 0.5 |
| Battle.CalculateDamage | src/battle.rs:304-325 | a value exactly for DirectHit or GlancingBlow with an armed attacker; DirectHit gives damage + strength - defense, GlancingBlow that halved toward zero |
| Battle.HitRateMonotonic | src/battle.rs:146-194 | changing accuracy moves the hit rate by exactly the change, and changing evasion moves it by exactly the opposite, in either direction |
| Battle.LowerRollStillHits | src/battle.rs:89-94 | if a roll hits directly, every lower roll does too |
| Battle.CertainOutcomes | src/battle.rs:26-30 | for rolls 1..100, a hit rate >= 100 always gives DirectHit and a hit rate <= 0 always GlancingBlow |
| Battle.ResolvedAttackDealsDamage | src/battle.rs:80-94 | the damage of a resolved attack has a value exactly when the attacker is armed |
| Battle.WeaponDamageIsDirectHitDamage | druid-game/src/weapon.rs:12-13 | with zero strength and defense, a direct hit deals exactly the weapon's documented damage |
| Battle.GlancingBlowIsHalved | src/battle.rs:306-324 | a glancing blow keeps the sign of the direct-hit damage, is no larger in magnitude, and halves symmetrically around zero |
| Battle.DocumentedResolution | src/battle.rs:37-57 | hit rate 50: roll 40 is DirectHit, 60 GlancingBlow, 50 (a tie) DirectHit |
| Battle.DocumentedDamage | src/battle.rs:221-259 | weapon damage 10: DirectHit deals 10, GlancingBlow 5, Miss and NoWeapon nothing |
| Battle.UnarmedAttackHasNoEffect | src/battle.rs:66-82 | an unarmed attacker resolves to NoWeapon for every roll, and that deals no damage |
| Combat.DamageStep | druid-game/src/combat.rs:51-60 | with no damage value the defender is unchanged; otherwise only its health changes, by Health damage of that value, and the status reported is the new one |
| Combat.Attack | druid-game/src/combat.rs:32-49 | resolves with roll 50; the attacker and the defender's name, stats, weapon and max are never changed; Miss/NoWeapon change nothing; hits apply the calculated damage; the health invariant is kept |
| Combat.SureHitTurn | druid-game/src/combat.rs:35-47 | with zeroed stats and a hit rate of at least 50, an attack is a DirectHit that applies the full weapon damage |
| Combat.Exchanges | druid-game/src/combat.rs:20-27 | any fixed sequence of attacks keeps names, stats, weapons and maxima, and keeps the health invariant of both combatants |
| Combat.UnstruckKeepsHealth | druid-game/src/combat.rs:32-49 | a combatant that is never struck keeps its health through any sequence of exchanges |
| Combat.ExchangesAppend | druid-game/src/combat.rs:20-27 | running two exchange sequences in turn equals running their concatenation |
| Combat.ThreeLongswordTurns | druid-game/src/combat.rs:15-27 | two fresh combatants with weapons of hit rate 70 and damage 8, attacking first, second, first, end at 2/10 and 0/10 |
| Combat.CombatExample | druid-game/src/combat.rs:13-30 | Alice ends at 2 of 10 (Hurt) and Vim at 0 of 10 (Defeated) |
| Combat.FirstSecondFirst | druid-game/src/combat.rs:20-27 | the exchange sequence First, Second, First is three attacks, each turn's combatants feeding the next |
| Combat.CombatExampleIsThreeExchanges | druid-game/src/combat.rs:20-27 | the demonstration equals the exchange sequence First, Second, First from the two armed combatants |
| Services.Default | druid-game/src/service/container.rs:26-35 | no slot is filled |
| Services.New | druid-game/src/service/container.rs:38-41 | all four slots are empty, as in the default container |
| Services.RegisterSlot | druid-game/src/service/container.rs:45-51 | an empty slot takes the service and reports Ok; a filled slot keeps its service and reports AlreadyRegisteredError |
| Services.SlotMut | druid-game/src/service/container.rs:55-60 | NotYetRegisteredError iff the slot is empty; otherwise the stored service |
| Services.RegisterAssetLoader | druid-game/src/service/container.rs:45-51 | Ok iff the asset loader slot was empty, which then holds the loader; on error nothing changes; the other three slots never change |
| Services.AssetLoaderMut | druid-game/src/service/container.rs:55-60 | NotYetRegisteredError iff no asset loader is registered; otherwise the registered one |
| Services.RegisterRenderContext | druid-game/src/service/container.rs:64-70 | Ok iff the render context slot was empty, which then holds the context; on error nothing changes; the other three slots never change |
| Services.RenderContextMut | druid-game/src/service/container.rs:74-79 | NotYetRegisteredError iff no render context is registered; otherwise the registered one |
| Services.RegisterInputManager | druid-game/src/service/container.rs:83-89 | Ok iff the input manager slot was empty, which then holds the manager; on error nothing changes; the other three slots never change |
| Services.InputManagerMut | druid-game/src/service/container.rs:93-98 | NotYetRegisteredError iff no input manager is registered; otherwise the registered one |
| Services.RegisterVfc | druid-game/src/service/container.rs:102-108 | Ok iff the console slot was empty, which then holds it; on error nothing changes; the other three slots never change |
| Services.VfcMut | druid-game/src/service/container.rs:112-117 | NotYetRegisteredError iff no console is registered; otherwise the registered one |
| Services.Register | druid-game/src/service/container.rs:45-108 | a registration fails iff its slot is filled, and then nothing changes; on success its slot holds the given service; the other three slots keep their contents |
| Services.RegisteredGrows | druid-game/src/service/container.rs:37-118 | after any sequence of registrations, the filled slots are exactly those filled before plus the kinds registered |
| Services.WriteOnce | druid-game/src/service/container.rs:37-118 | a service once registered is never replaced or removed by later registrations |
| Services.FirstAssetLoaderWins | druid-game/src/service/container.rs:45-51 | from an empty asset loader slot, the first asset loader registered is the one kept |

## Left out

- Battle.CalculateHitRate: uses unbounded integers, so the `i32` overflow of `hit_rate += …` and `hit_rate -= …` (a panic or a wrap, depending on the build) is not modelled.
- Battle.CalculateDamage: uses unbounded integers, so the `i32` overflow of `damage += …` and `damage -= …` is not modelled.
- Combatants.Damage: uses unbounded integers, so the `i32` overflow of `current -= damage` is not modelled. It also requires `max >= 0`, because `i32::clamp` panics when its lower bound exceeds its upper bound.
- Combatants.NewHealth: requires `max >= 0` for the same reason. A negative maximum would panic at the first `damage`.
- Combatants.Clamp: requires `max >= 0` for the same reason.
- Battle.TruncateToInt: does not model the saturation of `as i32` at the `i32` bounds. A product by 1.0 or 0.5 of an `i32` never reaches them. The exactness of the `f64` product for every `i32` is taken as given, so the product is computed on `real`.
- Text output is not modelled: the `Display` impls of `Combatant` and of the two container errors, and the `println!` / `log!` lines of the turn loop. `Weapons.Display` keeps the weapon's display text.
- The `&mut` references returned by the `*_mut` accessors are modelled as returning the service value. The services are opaque type parameters standing for the trait objects, so what a caller does through the reference is outside the model.
- The wasm front end's `run` returns nothing, where `combat_example` returns `Ok(())`. The combat it performs is the same.
- The rest of the repository is not part of this model: the frame scheduler and application loop, rendering, bitmaps, asset loading, input polling and the binary entry point. These are platform glue around external crates, browsers and windows, and they do not affect combat.
