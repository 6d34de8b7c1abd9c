/** Pure battle formulas: the hit rate of an attack, its outcome for a given
    die roll, and the damage it deals. */
module Battle {
  import opened Wrappers
  import opened Weapons
  import opened Combatants

  /** The possible results of an attempted attack. */
  datatype AttackResult =
    | DirectHit     // full damage
    | GlancingBlow  // half damage
    | Miss          // no damage
    | NoWeapon      // the attacker holds no weapon

  /** The unadjusted hit rate: weapon hit rate plus the attacker's accuracy
      minus the defender's evasion. Reference definition for the lemmas. */
  function RawHitRate(w: Weapon, attacker: CombatStats, defender: CombatStats): int {
    w.hitRate + attacker.accuracy - defender.evasion
  }

  /** The unadjusted base damage: weapon damage plus the attacker's strength
      minus the defender's defense. */
  function BaseDamage(w: Weapon, attacker: CombatStats, defender: CombatStats): int {
    w.damage + attacker.strength - defender.defense
  }

  /** Integer halving that truncates toward zero (Dafny's `/` is Euclidean,
      so a negative operand is halved through its magnitude). */
  function TruncHalf(d: int): (r: int)
    ensures 0 <= d ==> 0 <= r && d - 1 <= 2 * r <= d
    ensures d < 0 ==> r <= 0 && d <= 2 * r <= d + 1
  {
    if d >= 0 then d / 2 else -((-d) / 2)
  }

  /** Rust's `as i32` on a float: truncation toward zero. Saturation at the
      `i32` bounds is not modelled; every value cast here is at most the
      magnitude of an `i32`. */
  function TruncateToInt(x: real): (r: int)
    ensures 0.0 <= x ==> r as real <= x < r as real + 1.0
    ensures x < 0.0 ==> r as real - 1.0 < x <= r as real
  {
    if x >= 0.0 then x.Floor else -((-x).Floor)
  }

  /** `calculate_hit_rate`: no value without a weapon, otherwise the
      unclamped sum. */
  function CalculateHitRate(attacker: Combatant, defender: Combatant): (r: Option<int>)
    ensures r.None? <==> attacker.currentWeapon.None?
    ensures attacker.currentWeapon.Some? ==>
      r == Some(RawHitRate(attacker.currentWeapon.value, attacker.stats, defender.stats))
  {
    match attacker.currentWeapon
    case None => None
    case Some(w) =>
      var hitRate := w.hitRate + attacker.stats.accuracy;
      Some(hitRate - defender.stats.evasion)
  }

  /** `resolve_attack`: `NoWeapon` without a weapon; otherwise a roll at or
      below the hit rate is a `DirectHit` and any higher roll a
      `GlancingBlow`. The program's `Miss` branch is unreachable. */
  function ResolveAttack(diceRoll: int, attacker: Combatant, defender: Combatant): (r: AttackResult)
    ensures r == NoWeapon <==> attacker.currentWeapon.None?
    ensures r != Miss
    ensures attacker.currentWeapon.Some? ==>
      (r == DirectHit <==>
         diceRoll <= RawHitRate(attacker.currentWeapon.value, attacker.stats, defender.stats))
    ensures attacker.currentWeapon.Some? ==>
      (r == GlancingBlow <==>
         RawHitRate(attacker.currentWeapon.value, attacker.stats, defender.stats) < diceRoll)
  {
    if attacker.currentWeapon.None? then NoWeapon
    else
      match CalculateHitRate(attacker, defender)
      case None => Miss
      case Some(hitRate) => if diceRoll <= hitRate then DirectHit else GlancingBlow
  }

  /** The damage multiplier of an attack result; `Miss` and `NoWeapon` deal
      no damage at all. */
  function Multiplier(result: AttackResult): (m: Option<real>)
    ensures m.None? <==> result == Miss || result == NoWeapon
    ensures result == DirectHit ==> m == Some(1.0)
    ensures result == GlancingBlow ==> m == Some(0.5)
  {
    match result
    case Miss => None
    case NoWeapon => None
    case DirectHit => Some(1.0)
    case GlancingBlow => Some(0.5)
  }

  /** `calculate_damage`: the base damage times the result's multiplier,
      truncated toward zero. The product is exact for every `i32` base, so it
      is computed on reals. */
  function CalculateDamage(result: AttackResult, attacker: Combatant, defender: Combatant): (r: Option<int>)
    ensures r.Some? <==>
      (result == DirectHit || result == GlancingBlow) && attacker.currentWeapon.Some?
    ensures result == DirectHit && attacker.currentWeapon.Some? ==>
      r == Some(BaseDamage(attacker.currentWeapon.value, attacker.stats, defender.stats))
    ensures result == GlancingBlow && attacker.currentWeapon.Some? ==>
      r == Some(TruncHalf(BaseDamage(attacker.currentWeapon.value, attacker.stats, defender.stats)))
  {
    match Multiplier(result)
    case None => None
    case Some(multiplier) =>
      match attacker.currentWeapon
      case None => None
      case Some(w) =>
        var damage := w.damage + attacker.stats.strength - defender.stats.defense;
        TruncatedProducts(damage);
        Some(TruncateToInt(damage as real * multiplier))
  }

  /** Multiplying an integer by 1.0 and truncating gives it back; multiplying
      by 0.5 and truncating is halving toward zero. */
  lemma TruncatedProducts(d: int)
    ensures TruncateToInt(d as real * 1.0) == d
    ensures TruncateToInt(d as real * 0.5) == TruncHalf(d)
  {
  }

  /** The hit rate moves with the attacker's accuracy and against the
      defender's evasion, one point for one point, in either direction. */
  lemma HitRateMonotonic(attacker: Combatant, defender: Combatant, accuracy: int, evasion: int)
    requires attacker.currentWeapon.Some?
    ensures var attacker' := attacker.(stats := attacker.stats.(accuracy := accuracy));
      var defender' := defender.(stats := defender.stats.(evasion := evasion));
      CalculateHitRate(attacker, defender).value
        + (accuracy - attacker.stats.accuracy) + (defender.stats.evasion - evasion)
        == CalculateHitRate(attacker', defender').value
  {
  }

  /** A lower roll is never worse: if a roll gives a direct hit, every
      smaller roll does too. */
  lemma LowerRollStillHits(attacker: Combatant, defender: Combatant, roll: int, lower: int)
    requires lower <= roll
    requires ResolveAttack(roll, attacker, defender) == DirectHit
    ensures ResolveAttack(lower, attacker, defender) == DirectHit
  {
  }

  /** With rolls from 1 to 100, a hit rate of 100 or more always hits
      directly and a hit rate of 0 or less never does. */
  lemma CertainOutcomes(attacker: Combatant, defender: Combatant, roll: int)
    requires attacker.currentWeapon.Some?
    requires 1 <= roll <= 100
    ensures 100 <= CalculateHitRate(attacker, defender).value ==>
      ResolveAttack(roll, attacker, defender) == DirectHit
    ensures CalculateHitRate(attacker, defender).value <= 0 ==>
      ResolveAttack(roll, attacker, defender) == GlancingBlow
  {
  }

  /** A resolved attack deals damage exactly when the attacker is armed: no
      outcome `resolve_attack` produces is damage-free once a weapon is held. */
  lemma ResolvedAttackDealsDamage(roll: int, attacker: Combatant, defender: Combatant)
    ensures CalculateDamage(ResolveAttack(roll, attacker, defender), attacker, defender).Some?
      <==> attacker.currentWeapon.Some?
  {
  }

  /** The damage documented on a weapon is what a direct hit deals when
      strength and defense are both zero. */
  lemma WeaponDamageIsDirectHitDamage(attacker: Combatant, defender: Combatant, w: Weapon)
    requires attacker.stats.strength == 0 && defender.stats.defense == 0
    ensures CalculateDamage(DirectHit, GiveWeapon(attacker, w), defender) == Some(w.damage)
  {
  }

  /** A glancing blow never deals more than a direct hit in magnitude and
      keeps its sign: it is the direct-hit damage halved toward zero. */
  lemma GlancingBlowIsHalved(attacker: Combatant, defender: Combatant)
    requires attacker.currentWeapon.Some?
    ensures var full := CalculateDamage(DirectHit, attacker, defender).value;
      var half := CalculateDamage(GlancingBlow, attacker, defender).value;
      (0 <= full ==> 0 <= half <= full) && (full <= 0 ==> full <= half <= 0)
      && TruncHalf(-full) == -half
  {
  }

  /** The worked examples of the documentation for `resolve_attack`: an
      attacker holding a weapon of hit rate 50 hits directly on 40, glances on
      60, and hits directly on a tie at 50. */
  lemma DocumentedResolution(name: string, defender: Combatant)
    requires defender.stats == NewStats()
    ensures var armed := GiveWeapon(NewCombatant("Attacker"), NewWeapon(name, 50, 10));
      && ResolveAttack(40, armed, defender) == DirectHit
      && ResolveAttack(60, armed, defender) == GlancingBlow
      && ResolveAttack(50, armed, defender) == DirectHit
  {
  }

  /** The worked examples of the documentation for `calculate_damage`: a
      weapon of damage 10 deals 10 on a direct hit, 5 on a glancing blow, and
      nothing on a miss or without a weapon. */
  lemma DocumentedDamage(name: string, defender: Combatant)
    requires defender.stats == NewStats()
    ensures var armed := GiveWeapon(NewCombatant("Attacker"), NewWeapon(name, 50, 10));
      && CalculateDamage(DirectHit, armed, defender) == Some(10)
      && CalculateDamage(GlancingBlow, armed, defender) == Some(5)
      && CalculateDamage(Miss, armed, defender).None?
      && CalculateDamage(NoWeapon, armed, defender).None?
  {
  }

  /** An unarmed attacker resolves to `NoWeapon` for every roll and defender,
      and that outcome deals no damage. */
  lemma UnarmedAttackHasNoEffect(roll: int, attacker: Combatant, defender: Combatant)
    requires attacker.currentWeapon.None?
    ensures ResolveAttack(roll, attacker, defender) == NoWeapon
    ensures CalculateDamage(ResolveAttack(roll, attacker, defender), attacker, defender).None?
  {
  }
}
