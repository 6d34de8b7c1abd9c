/** The turn loop of the demonstration game: one combatant attacks another
    with a fixed die roll, and the defender's health absorbs the damage. The
    three copies of this loop in the program (the library's combat module,
    its `run` entry point and the browser front end's `run`) behave alike and
    share this one model; their text output is not modelled, but what it
    reports is kept in a `TurnRecord`. */
module Combat {
  import opened Wrappers
  import opened Weapons
  import opened Combatants
  import opened Battle

  /** The die roll every attack of the demonstration uses. */
  const FixedDiceRoll: int := 50

  /** What one turn reports: the attack result, the damage dealt and the
      defender's resulting status when damage was applied. */
  datatype TurnRecord = TurnRecord(result: AttackResult, dealt: Option<int>, status: Option<HealthStatus>)

  /** Both combatants after a turn, and its record. */
  datatype Turn = Turn(attacker: Combatant, defender: Combatant, record: TurnRecord)

  /** `damage_step`: computes the damage of the result and, if there is any,
      applies it to the defender's health. Returns the defender, the damage
      and the status `Health::damage` reported. */
  function DamageStep(result: AttackResult, attacker: Combatant, defender: Combatant)
    : (r: (Combatant, Option<int>, Option<HealthStatus>))
    requires 0 <= defender.health.max
    ensures r.1 == CalculateDamage(result, attacker, defender)
    ensures r.1.None? ==> r.0 == defender && r.2.None?
    ensures r.1.Some? ==>
      r.0 == defender.(health := Damage(defender.health, r.1.value).0)
      && r.2 == Some(CheckStatus(r.0.health))
    ensures ValidHealth(r.0.health) || r.0 == defender
  {
    match CalculateDamage(result, attacker, defender)
    case None => (defender, None, None)
    case Some(damage) =>
      var (health, status) := Damage(defender.health, damage);
      (defender.(health := health), Some(damage), Some(status))
  }

  /** `attack`: resolves the attack with the fixed roll; a miss or an unarmed
      attacker leaves both combatants alone, a direct hit or a glancing blow
      goes through the damage step. */
  function Attack(attacker: Combatant, defender: Combatant): (t: Turn)
    requires 0 <= defender.health.max
    ensures t.record.result == ResolveAttack(FixedDiceRoll, attacker, defender)
    ensures t.attacker == attacker
    ensures t.defender.name == defender.name
    ensures t.defender.stats == defender.stats
    ensures t.defender.currentWeapon == defender.currentWeapon
    ensures t.defender.health.max == defender.health.max
    ensures ValidHealth(defender.health) ==> ValidHealth(t.defender.health)
    ensures t.record.result == Miss || t.record.result == NoWeapon ==>
      t.defender == defender && t.record.dealt.None? && t.record.status.None?
    ensures t.record.result == DirectHit || t.record.result == GlancingBlow ==>
      t.record.dealt == CalculateDamage(t.record.result, attacker, defender)
      && t.record.dealt.Some?
      && t.defender.health == Damage(defender.health, t.record.dealt.value).0
      && t.record.status == Some(CheckStatus(t.defender.health))
  {
    var result := ResolveAttack(FixedDiceRoll, attacker, defender);
    match result
    case Miss => Turn(attacker, defender, TurnRecord(result, None, None))
    case NoWeapon => Turn(attacker, defender, TurnRecord(result, None, None))
    case DirectHit =>
      var (defender', dealt, status) := DamageStep(result, attacker, defender);
      Turn(attacker, defender', TurnRecord(result, dealt, status))
    case GlancingBlow =>
      var (defender', dealt, status) := DamageStep(result, attacker, defender);
      Turn(attacker, defender', TurnRecord(result, dealt, status))
  }

  /** Who strikes in one exchange of a duel between two combatants. */
  datatype Striker = First | Second

  /** Runs a fixed sequence of exchanges between two combatants without
      checking for defeat in between, as the demonstration does. */
  function Exchanges(strikers: seq<Striker>, first: Combatant, second: Combatant)
    : (r: (Combatant, Combatant))
    requires 0 <= first.health.max && 0 <= second.health.max
    ensures r.0.name == first.name && r.0.stats == first.stats
    ensures r.0.currentWeapon == first.currentWeapon
    ensures r.1.name == second.name && r.1.stats == second.stats
    ensures r.1.currentWeapon == second.currentWeapon
    ensures r.0.health.max == first.health.max && r.1.health.max == second.health.max
    ensures ValidHealth(first.health) ==> ValidHealth(r.0.health)
    ensures ValidHealth(second.health) ==> ValidHealth(r.1.health)
    decreases |strikers|
  {
    if |strikers| == 0 then (first, second)
    else
      match strikers[0]
      case First =>
        var t := Attack(first, second);
        Exchanges(strikers[1..], t.attacker, t.defender)
      case Second =>
        var t := Attack(second, first);
        Exchanges(strikers[1..], t.defender, t.attacker)
  }

  /** A combatant that is never struck keeps its health. */
  lemma {:induction false} UnstruckKeepsHealth(strikers: seq<Striker>, first: Combatant, second: Combatant)
    requires 0 <= first.health.max && 0 <= second.health.max
    requires forall i :: 0 <= i < |strikers| ==> strikers[i] == Second
    ensures Exchanges(strikers, first, second).1.health == second.health
    decreases |strikers|
  {
    if |strikers| > 0 {
      var t := Attack(second, first);
      UnstruckKeepsHealth(strikers[1..], t.defender, t.attacker);
    }
  }

  /** Exchanges compose: running two sequences one after the other is running
      their concatenation. */
  lemma {:induction false} ExchangesAppend(s1: seq<Striker>, s2: seq<Striker>, first: Combatant, second: Combatant)
    requires 0 <= first.health.max && 0 <= second.health.max
    ensures var mid := Exchanges(s1, first, second);
      Exchanges(s1 + s2, first, second) == Exchanges(s2, mid.0, mid.1)
    decreases |s1|
  {
    if |s1| == 0 {
      assert s1 + s2 == s2;
    } else {
      assert (s1 + s2)[1..] == s1[1..] + s2;
      match s1[0]
      case First =>
        var t := Attack(first, second);
        ExchangesAppend(s1[1..], s2, t.attacker, t.defender);
      case Second =>
        var t := Attack(second, first);
        ExchangesAppend(s1[1..], s2, t.defender, t.attacker);
    }
  }

  /** The longsword of the demonstration. */
  function Longsword(): (w: Weapon)
    ensures w.hitRate == 70 && w.damage == 8
  {
    NewWeapon("Longsword", 70, 8)
  }

  /** Between combatants with zeroed stats, a weapon whose hit rate reaches
      the fixed roll always hits directly and takes its full damage. */
  lemma SureHitTurn(attacker: Combatant, defender: Combatant)
    requires attacker.currentWeapon.Some? && FixedDiceRoll <= attacker.currentWeapon.value.hitRate
    requires attacker.stats == NewStats() && defender.stats == NewStats()
    requires 0 <= defender.health.max
    ensures Attack(attacker, defender).record.result == DirectHit
    ensures Attack(attacker, defender).attacker == attacker
    ensures Attack(attacker, defender).defender
      == defender.(health := Damage(defender.health, attacker.currentWeapon.value.damage).0)
  {
  }

  /** Two fresh combatants, each with a weapon of hit rate 70 and damage 8,
      struck in turn first, second, first: the first ends at 2 of 10, the
      second at 0 of 10. */
  lemma ThreeLongswordTurns(first: Combatant, second: Combatant)
    requires first.currentWeapon.Some? && first.currentWeapon.value.hitRate == 70
    requires first.currentWeapon.value.damage == 8
    requires second.currentWeapon.Some? && second.currentWeapon.value.hitRate == 70
    requires second.currentWeapon.value.damage == 8
    requires first.stats == NewStats() && second.stats == NewStats()
    requires first.health == Health(10, 10) && second.health == Health(10, 10)
    ensures var t1 := Attack(first, second);
      var t2 := Attack(t1.defender, t1.attacker);
      var t3 := Attack(t2.defender, t2.attacker);
      && t3.attacker == first.(health := Health(2, 10))
      && t3.defender == second.(health := Health(0, 10))
  {
    var second1 := second.(health := Health(2, 10));
    var first1 := first.(health := Health(2, 10));
    var second2 := second.(health := Health(0, 10));
    SureHitTurn(first, second);
    assert Damage(Health(10, 10), 8).0 == Health(2, 10);
    SureHitTurn(second1, first);
    SureHitTurn(first1, second1);
    assert Damage(Health(2, 10), 8).0 == Health(0, 10);
  }

  /** `combat_example`: Alice and Vim, each with a longsword of hit rate 70
      and damage 8, trade three attacks (Alice, Vim, Alice) with no check for
      defeat. Returns both combatants at the end; the program itself returns
      `Ok(())` unconditionally. */
  function CombatExample(): (r: (Combatant, Combatant))
    ensures r.0.name == "Alice" && r.1.name == "Vim"
    ensures r.0.health == Health(2, 10) && CheckStatus(r.0.health) == Hurt
    ensures r.1.health == Health(0, 10) && CheckStatus(r.1.health) == Defeated
  {
    var alice := GiveWeapon(NewCombatant("Alice"), Longsword());
    var vim := GiveWeapon(NewCombatant("Vim"), Longsword());
    ThreeLongswordTurns(alice, vim);
    var t1 := Attack(alice, vim);
    var t2 := Attack(t1.defender, t1.attacker);
    var t3 := Attack(t2.defender, t2.attacker);
    (t3.attacker, t3.defender)
  }

  /** Exchanges First, Second, First are three attacks, each combatant's
      result feeding the next. */
  lemma {:induction false} FirstSecondFirst(first: Combatant, second: Combatant)
    requires 0 <= first.health.max && 0 <= second.health.max
    ensures var t1 := Attack(first, second);
      var t2 := Attack(t1.defender, t1.attacker);
      var t3 := Attack(t2.defender, t2.attacker);
      Exchanges([First, Second, First], first, second) == (t3.attacker, t3.defender)
  {
    var t1 := Attack(first, second);
    var t2 := Attack(t1.defender, t1.attacker);
    var t3 := Attack(t2.defender, t2.attacker);
    assert [First, Second, First][1..] == [Second, First];
    assert [Second, First][1..] == [First];
    assert [First][1..] == [];
    assert Exchanges([First], t2.defender, t2.attacker) == (t3.attacker, t3.defender);
    assert Exchanges([Second, First], t1.attacker, t1.defender) == (t3.attacker, t3.defender);
  }

  /** The demonstration is the exchange sequence First, Second, First. */
  lemma CombatExampleIsThreeExchanges()
    ensures var alice := GiveWeapon(NewCombatant("Alice"), Longsword());
      var vim := GiveWeapon(NewCombatant("Vim"), Longsword());
      CombatExample() == Exchanges([First, Second, First], alice, vim)
  {
    var alice := GiveWeapon(NewCombatant("Alice"), Longsword());
    var vim := GiveWeapon(NewCombatant("Vim"), Longsword());
    FirstSecondFirst(alice, vim);
  }
}
