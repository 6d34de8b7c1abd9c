/** Combatants, their combat statistics and their bounded health. */
module Combatants {
  import opened Wrappers
  import opened Weapons

  /** Four signed modifiers used by the battle formulas; any integer. */
  datatype CombatStats = CombatStats(accuracy: int, evasion: int, strength: int, defense: int)

  /** `CombatStats::new` (and the derived `Default`): every modifier zero. */
  function NewStats(): (s: CombatStats)
    ensures s.accuracy == 0 && s.evasion == 0 && s.strength == 0 && s.defense == 0
  {
    CombatStats(0, 0, 0, 0)
  }

  /** General health states, derived from a `Health` and never stored. */
  datatype HealthStatus = Healthy | Hurt | Defeated

  /** Vitality: a current value and a maximum. Both fields are private in
      the program, so `current` and `max` are only read through accessors. */
  datatype Health = Health(current: int, max: int)

  /** The invariant every mutation of `Health` restores by clamping. */
  ghost predicate ValidHealth(h: Health) {
    0 <= h.current <= h.max
  }

  /** Integer clamping `x.clamp(lo, hi)`; the program's `clamp` panics when
      `lo > hi`, so that case is excluded. */
  function ClampInt(x: int, lo: int, hi: int): (r: int)
    requires lo <= hi
    ensures lo <= r <= hi
    ensures lo <= x <= hi ==> r == x
    ensures x < lo ==> r == lo
    ensures hi < x ==> r == hi
  {
    if x < lo then lo else if hi < x then hi else x
  }

  /** `Health::new(max)`: full health. A negative maximum would make the
      first clamp panic, so it is excluded. */
  function NewHealth(max: int): (h: Health)
    requires 0 <= max
    ensures ValidHealth(h)
    ensures h.current == max && h.max == max
    ensures CheckStatus(h) == Healthy
  {
    Health(max, max)
  }

  /** `Health::clamp`: brings `current` back into `0..=max`, keeping it when
      it is already there. */
  function Clamp(h: Health): (r: Health)
    requires 0 <= h.max
    ensures ValidHealth(r)
    ensures r.max == h.max
    ensures ValidHealth(h) ==> r == h
    ensures h.current < 0 ==> r.current == 0
    ensures h.max < h.current ==> r.current == h.max
  {
    h.(current := ClampInt(h.current, 0, h.max))
  }

  /** `Health::check_status`: `Healthy` is tested first, so it wins over
      `Defeated` when the maximum is zero. */
  function CheckStatus(h: Health): (s: HealthStatus)
    ensures s == Healthy <==> h.max <= h.current
    ensures s == Defeated <==> h.current < h.max && h.current <= 0
    ensures s == Hurt <==> 0 < h.current < h.max
  {
    if h.current >= h.max then Healthy
    else if h.current <= 0 then Defeated
    else Hurt
  }

  /** `Health::damage(amount)`: subtract, clamp, report. Returns the new
      health and the status `damage` returns. A negative amount heals. */
  function Damage(h: Health, amount: int): (r: (Health, HealthStatus))
    requires 0 <= h.max
    ensures ValidHealth(r.0)
    ensures r.0.max == h.max
    ensures r.1 == CheckStatus(r.0)
    ensures h.current - amount < 0 ==> r.0.current == 0
    ensures h.max < h.current - amount ==> r.0.current == h.max
    ensures 0 <= h.current - amount <= h.max ==> r.0.current == h.current - amount
  {
    var h' := Clamp(h.(current := h.current - amount));
    (h', CheckStatus(h'))
  }

  /** On a health that keeps its invariant, the status reads as the
      documentation of `check_status` describes it: `Healthy` at the
      maximum, `Defeated` at zero (unless the maximum is zero too) and
      `Hurt` strictly in between. */
  lemma StatusOfValidHealth(h: Health)
    requires ValidHealth(h)
    ensures CheckStatus(h) == Healthy <==> h.current == h.max
    ensures CheckStatus(h) == Defeated <==> h.current == 0 && 0 < h.max
    ensures CheckStatus(h) == Hurt <==> 0 < h.current < h.max
  {
  }

  /** Damage at least as large as the current health knocks a combatant
      with a positive maximum down to zero and `Defeated`; with a zero
      maximum the status stays `Healthy`. */
  lemma LethalDamage(h: Health, amount: int)
    requires 0 <= h.max
    requires h.current <= amount
    ensures Damage(h, amount).0.current == 0
    ensures 0 < h.max ==> Damage(h, amount).1 == Defeated
    ensures h.max == 0 ==> Damage(h, amount).1 == Healthy
  {
  }

  /** Larger damage never leaves more health behind. */
  lemma DamageMonotonic(h: Health, a: int, b: int)
    requires 0 <= h.max
    requires a <= b
    ensures Damage(h, b).0.current <= Damage(h, a).0.current
  {
  }

  /** Two successive damages compose into one for the sum as long as the
      first does not cross a bound of the range. */
  lemma DamageComposes(h: Health, a: int, b: int)
    requires ValidHealth(h)
    requires 0 <= h.current - a <= h.max
    ensures Damage(Damage(h, a).0, b) == Damage(h, a + b)
  {
  }

  /** The documented run of `damage`: from 10 of 10, damage 7 leaves 3 and
      `Hurt`, and damage 7 again leaves 0 and `Defeated`. */
  lemma DocumentedDamageRuns()
    ensures Damage(NewHealth(10), 7) == (Health(3, 10), Hurt)
    ensures Damage(Health(3, 10), 7) == (Health(0, 10), Defeated)
  {
  }

  /** The unit tests of the status: fresh health is `Healthy`, damage 5 from
      10 of 10 is `Hurt` and damage 10 is `Defeated`. */
  lemma TestedStatuses()
    ensures CheckStatus(NewHealth(10)) == Healthy
    ensures CheckStatus(Damage(NewHealth(10), 5).0) == Hurt
    ensures CheckStatus(Damage(NewHealth(10), 10).0) == Defeated
  {
  }

  /** A character that may take part in combat; at most one weapon is held. */
  datatype Combatant = Combatant(name: string, stats: CombatStats, health: Health,
                                 currentWeapon: Option<Weapon>)

  /** The combatant invariant: its health keeps its own invariant. */
  ghost predicate ValidCombatant(c: Combatant) {
    ValidHealth(c.health)
  }

  /** `Combatant::new(name)`: health 10 of 10, zeroed stats, unarmed. */
  function NewCombatant(name: string): (c: Combatant)
    ensures ValidCombatant(c)
    ensures c.name == name
    ensures c.stats == CombatStats(0, 0, 0, 0)
    ensures c.health.current == 10 && c.health.max == 10
    ensures CheckStatus(c.health) == Healthy
    ensures c.currentWeapon.None?
  {
    Combatant(name, NewStats(), NewHealth(10), None)
  }

  /** `Combatant::give_weapon(w)`: equips `w`, dropping any previous weapon;
      nothing else about the combatant changes. */
  function GiveWeapon(c: Combatant, w: Weapon): (r: Combatant)
    ensures r.currentWeapon == Some(w)
    ensures r.name == c.name && r.stats == c.stats && r.health == c.health
    ensures ValidCombatant(r) <==> ValidCombatant(c)
  {
    c.(currentWeapon := Some(w))
  }

  /** Only the most recent weapon counts: giving two weapons in a row is the
      same as giving the second alone, and giving the weapon already held
      changes nothing. */
  lemma GiveWeaponLastWins(c: Combatant, w1: Weapon, w2: Weapon)
    ensures GiveWeapon(GiveWeapon(c, w1), w2) == GiveWeapon(c, w2)
    ensures c.currentWeapon == Some(w1) ==> GiveWeapon(c, w1) == c
  {
  }
}
