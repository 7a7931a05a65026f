/** The combat rules: the enemy table, the damage formula, the two-state
    battle object with its automatic fight loop, single turns, escape,
    and the class abilities. The character is the `Character` object of
    the progression module; the enemy is an object of its own whose
    health the battle lowers in place. Randomness enters as a `coin`
    parameter (true where the source's draw falls below 0.5). */
module CombatSystem {
  import opened Wrappers
  import opened Text
  import opened CharacterManager
  import InventorySystem

  // ---------------------------------------------------------------------
  // Enemies
  // ---------------------------------------------------------------------

  /** An enemy as `create_enemy` builds it. */
  datatype Foe = Foe(name: string, health: int, maxHealth: int, strength: int, magic: int,
                     xpReward: int, goldReward: int)

  /** The enemy dictionary; the fight only ever changes `health`. */
  class Enemy {
    var name: string
    var health: int
    var maxHealth: int
    var strength: int
    var magic: int
    var xpReward: int
    var goldReward: int

    function Snapshot(): Foe
      reads this
    {
      Foe(name, health, maxHealth, strength, magic, xpReward, goldReward)
    }

    constructor FromFoe(f: Foe)
      ensures Snapshot() == f
    {
      name, health, maxHealth := f.name, f.health, f.maxHealth;
      strength, magic := f.strength, f.magic;
      xpReward, goldReward := f.xpReward, f.goldReward;
    }
  }

  /** The table entry of a lowered, recognised enemy type, with max_health
      copied from health. */
  function Template(kind: string): (f: Foe)
    requires kind in {"goblin", "orc", "dragon"}
    ensures f.maxHealth == f.health > 0 && f.strength > 0 && f.xpReward > 0 && f.goldReward > 0
  {
    if kind == "goblin" then Foe("Goblin", 50, 50, 8, 2, 25, 10)
    else if kind == "orc" then Foe("Orc", 80, 80, 12, 5, 50, 25)
    else Foe("Dragon", 200, 200, 25, 15, 200, 100)
  }

  /** `create_enemy`: the type is lowered first; anything but goblin, orc
      or dragon raises InvalidTargetError. */
  function CreateEnemy(enemyType: string): (r: Result<Foe>)
    ensures r.Err? <==> Lower(enemyType) !in {"goblin", "orc", "dragon"}
    ensures r.Err? ==> r.error == InvalidTarget
    ensures r.Ok? ==> r.value.maxHealth == r.value.health > 0
  {
    var kind := Lower(enemyType);
    if kind in {"goblin", "orc", "dragon"} then Ok(Template(kind)) else Err(InvalidTarget)
  }

  lemma LowerTwice(s: string)
    ensures Lower(Lower(s)) == Lower(s) && Lower(Upper(s)) == Lower(s)
  {
  }

  /** The type name is matched without regard to case. */
  lemma CreateEnemyIgnoresCase(enemyType: string)
    ensures CreateEnemy(Lower(enemyType)) == CreateEnemy(enemyType)
    ensures CreateEnemy(Upper(enemyType)) == CreateEnemy(enemyType)
  {
    LowerTwice(enemyType);
  }

  /** The three rows of the table. */
  lemma EnemyTable()
    ensures CreateEnemy("goblin") == Ok(Foe("Goblin", 50, 50, 8, 2, 25, 10))
    ensures CreateEnemy("orc") == Ok(Foe("Orc", 80, 80, 12, 5, 50, 25))
    ensures CreateEnemy("dragon") == Ok(Foe("Dragon", 200, 200, 25, 15, 200, 100))
  {
    assert Lower("goblin") == "goblin";
    assert Lower("orc") == "orc";
    assert Lower("dragon") == "dragon";
  }

  /** The type asked for at each level: goblins up to 2, orcs up to 5,
      dragons beyond. */
  function TierName(level: int): string {
    if level <= 2 then "goblin" else if level <= 5 then "orc" else "dragon"
  }

  /** `get_random_enemy_for_level`. */
  function EnemyForLevel(level: int): (f: Foe)
    ensures CreateEnemy(TierName(level)) == Ok(f)
    ensures f.name == (if level <= 2 then "Goblin" else if level <= 5 then "Orc" else "Dragon")
  {
    EnemyTable();
    CreateEnemy(TierName(level)).value
  }

  /** A higher level never meets a weaker or poorer enemy. */
  lemma EnemyForLevelMonotone(level1: int, level2: int)
    requires level1 <= level2
    ensures EnemyForLevel(level1).health <= EnemyForLevel(level2).health
    ensures EnemyForLevel(level1).strength <= EnemyForLevel(level2).strength
    ensures EnemyForLevel(level1).xpReward <= EnemyForLevel(level2).xpReward
    ensures EnemyForLevel(level1).goldReward <= EnemyForLevel(level2).goldReward
  {
    EnemyTable();
  }

  // ---------------------------------------------------------------------
  // Damage
  // ---------------------------------------------------------------------

  /** `calculate_damage`: the attacker's strength less a quarter of the
      defender's (Python's floor division, which Dafny's `/` matches for a
      positive divisor), and never below 1. */
  function Damage(attackStrength: int, defendStrength: int): (d: int)
    ensures d >= 1 && d >= attackStrength - defendStrength / 4
    ensures d == 1 || d == attackStrength - defendStrength / 4
  {
    var raw := attackStrength - defendStrength / 4;
    if raw < 1 then 1 else raw
  }

  lemma DamageExamples()
    ensures Damage(15, 8) == 13
    ensures Damage(8, 15) == 5
    ensures Damage(2, 40) == 1
    ensures Damage(0, -5) == 2
  {
  }

  /** `apply_damage`: health falls by the damage but not below 0. */
  function AfterDamage(health: int, damage: int): (h: int)
    ensures h >= 0 && h >= health - damage
    ensures h == 0 || h == health - damage
  {
    if health - damage > 0 then health - damage else 0
  }

  /** Damage never raises health that is not negative, and positive
      health strictly falls under a hit of at least 1. */
  lemma AfterDamageLowers(health: int, damage: int)
    requires health >= 0 && damage >= 0
    ensures AfterDamage(health, damage) <= health
    ensures health > 0 && damage >= 1 ==> AfterDamage(health, damage) < health
  {
  }

  // ---------------------------------------------------------------------
  // End of battle and the automatic fight
  // ---------------------------------------------------------------------

  datatype Winner = PlayerWon | EnemyWon

  /** `check_battle_end`: the enemy's death is checked before the
      character's, so a double knock-out is a player win. */
  function CheckBattleEnd(foeHealth: int, heroHealth: int): (w: Option<Winner>)
    ensures w == Some(PlayerWon) <==> foeHealth <= 0
    ensures w == Some(EnemyWon) <==> foeHealth > 0 && heroHealth <= 0
    ensures w.None? <==> foeHealth > 0 && heroHealth > 0
  {
    if foeHealth <= 0 then Some(PlayerWon)
    else if heroHealth <= 0 then Some(EnemyWon)
    else None
  }

  /** How a fight ends: the winner and both final health values. */
  datatype Bout = Bout(winner: Winner, heroHealth: int, foeHealth: int)

  /** The rounds of `start_battle`'s loop: the character hits, the end is
      checked, the enemy hits, the end is checked, and again. Every hit
      takes at least 1 health, which is why the fight ends. */
  function Fight(heroHealth: int, heroStrength: int, foeHealth: int, foeStrength: int): (b: Bout)
    ensures b.foeHealth >= 0
    ensures b.winner == PlayerWon <==> b.foeHealth == 0
    ensures foeHealth >= 0 ==> b.foeHealth <= foeHealth
    ensures heroHealth > 0 ==> 0 <= b.heroHealth <= heroHealth
    ensures heroHealth > 0 ==> (b.winner == EnemyWon <==> b.heroHealth == 0)
    decreases Max(heroHealth, 0) + Max(foeHealth, 0)
  {
    var foeHit := AfterDamage(foeHealth, Damage(heroStrength, foeStrength));
    match CheckBattleEnd(foeHit, heroHealth)
    case Some(w) => Bout(w, heroHealth, foeHit)
    case None =>
      var heroHit := AfterDamage(heroHealth, Damage(foeStrength, heroStrength));
      match CheckBattleEnd(foeHit, heroHit)
      case Some(w) => Bout(w, heroHit, foeHit)
      case None => Fight(heroHit, heroStrength, foeHit, foeStrength)
  }

  /** A new Warrior (120 health, strength 15) against a goblin (50, 8):
      four hits of 13 kill the goblin, and its three hits of 5 cost 15. */
  lemma WarriorBeatsGoblin()
    ensures Fight(120, 15, 50, 8) == Bout(PlayerWon, 105, 0)
  {
    assert Fight(120, 15, 50, 8) == Fight(115, 15, 37, 8);
    assert Fight(115, 15, 37, 8) == Fight(110, 15, 24, 8);
    assert Fight(110, 15, 24, 8) == Fight(105, 15, 11, 8);
  }

  /** `get_victory_rewards`. */
  datatype Rewards = Rewards(xp: int, gold: int)

  function GetVictoryRewards(foe: Foe): Rewards {
    Rewards(foe.xpReward, foe.goldReward)
  }

  /** What `start_battle` returns. */
  datatype BattleReport = BattleReport(winner: Winner, xpGained: int, goldGained: int)

  /** The battle as a value: whether combat is active, the character and
      the enemy. */
  datatype Arena = Arena(active: bool, hero: Record, foe: Foe)

  /** A battle operation's outcome and the battle after it. */
  datatype Turn<T> = Turn(result: Result<T>, after: Arena)

  /** `start_battle`: CharacterDeadError for a character at 0 health or
      less; an UnboundLocalError when the battle is already over, since the
      loop never runs and `result` is read unassigned; otherwise the fight
      runs to its end and combat is no longer active. */
  function StartBattleStep(a: Arena): (t: Turn<BattleReport>)
    ensures t.result == Err(CharacterDead) <==> a.hero.health <= 0
    ensures t.result == Err(UnboundResult) <==> a.hero.health > 0 && !a.active
    ensures t.result.Err? ==> t.after == a
    ensures t.result.Ok? ==>
      && !t.after.active
      && t.after.hero == a.hero.(health := t.after.hero.health)
      && t.after.foe == a.foe.(health := t.after.foe.health)
      && 0 <= t.after.hero.health <= a.hero.health
      && t.after.foe.health >= 0
      && (a.foe.health >= 0 ==> t.after.foe.health <= a.foe.health)
    ensures t.result.Ok? && t.result.value.winner == PlayerWon ==>
      && t.result.value == BattleReport(PlayerWon, a.foe.xpReward, a.foe.goldReward)
      && t.after.foe.health == 0 && t.after.hero.health > 0
    ensures t.result.Ok? && t.result.value.winner == EnemyWon ==>
      && t.result.value == BattleReport(EnemyWon, 0, 0)
      && t.after.hero.health == 0 && t.after.foe.health > 0
  {
    if a.hero.health <= 0 then Turn(Err(CharacterDead), a)
    else if !a.active then Turn(Err(UnboundResult), a)
    else
      var b := Fight(a.hero.health, a.hero.strength, a.foe.health, a.foe.strength);
      var report :=
        if b.winner == PlayerWon then
          var rewards := GetVictoryRewards(a.foe);
          BattleReport(PlayerWon, rewards.xp, rewards.gold)
        else BattleReport(EnemyWon, 0, 0);
      Turn(Ok(report), Arena(false, a.hero.(health := b.heroHealth), a.foe.(health := b.foeHealth)))
  }

  // ---------------------------------------------------------------------
  // Single turns and escape
  // ---------------------------------------------------------------------

  /** `player_turn`: CombatNotActiveError outside a battle; otherwise one
      hit on the enemy and nothing else. The end of the battle is not
      checked here. */
  function PlayerTurnStep(a: Arena): (t: Turn<()>)
    ensures !a.active ==> t == Turn(Err(CombatNotActive), a)
    ensures a.active ==>
      && t.result.Ok? && t.after.active && t.after.hero == a.hero
      && t.after.foe == a.foe.(health := t.after.foe.health)
      && t.after.foe.health == AfterDamage(a.foe.health, Damage(a.hero.strength, a.foe.strength))
  {
    if !a.active then Turn(Err(CombatNotActive), a)
    else
      var damage := Damage(a.hero.strength, a.foe.strength);
      Turn(Ok(()), a.(foe := a.foe.(health := AfterDamage(a.foe.health, damage))))
  }

  /** `enemy_turn`: the same with the roles swapped. */
  function EnemyTurnStep(a: Arena): (t: Turn<()>)
    ensures !a.active ==> t == Turn(Err(CombatNotActive), a)
    ensures a.active ==>
      && t.result.Ok? && t.after.active && t.after.foe == a.foe
      && t.after.hero == a.hero.(health := t.after.hero.health)
      && t.after.hero.health == AfterDamage(a.hero.health, Damage(a.foe.strength, a.hero.strength))
  {
    if !a.active then Turn(Err(CombatNotActive), a)
    else
      var damage := Damage(a.foe.strength, a.hero.strength);
      Turn(Ok(()), a.(hero := a.hero.(health := AfterDamage(a.hero.health, damage))))
  }

  /** `attempt_escape`: CombatNotActiveError outside a battle; otherwise the
      coin decides, and only a successful escape ends the battle. */
  function AttemptEscapeStep(a: Arena, coin: bool): (t: Turn<bool>)
    ensures !a.active ==> t == Turn(Err(CombatNotActive), a)
    ensures a.active ==> t.result == Ok(coin) && t.after == a.(active := !coin)
  {
    if !a.active then Turn(Err(CombatNotActive), a)
    else if coin then Turn(Ok(true), a.(active := false))
    else Turn(Ok(false), a)
  }

  /** In an active battle, a turn on a target at 0 health or above never
      raises that target's health and leaves it at 0 or above; a target
      still alive always loses at least one point. */
  lemma TurnsOnlyLower(a: Arena)
    requires a.active && a.hero.health >= 0 && a.foe.health >= 0
    ensures 0 <= PlayerTurnStep(a).after.foe.health <= a.foe.health
    ensures 0 <= EnemyTurnStep(a).after.hero.health <= a.hero.health
    ensures a.foe.health > 0 ==> PlayerTurnStep(a).after.foe.health < a.foe.health
    ensures a.hero.health > 0 ==> EnemyTurnStep(a).after.hero.health < a.hero.health
  {
  }

  /** Once combat is over, every battle operation fails and none changes
      anything: the inactive state is final. */
  lemma InactiveIsFinal(a: Arena, coin: bool)
    requires !a.active
    ensures PlayerTurnStep(a) == Turn(Err(CombatNotActive), a)
    ensures EnemyTurnStep(a) == Turn(Err(CombatNotActive), a)
    ensures AttemptEscapeStep(a, coin) == Turn(Err(CombatNotActive), a)
    ensures StartBattleStep(a).after == a && StartBattleStep(a).result.Err?
  {
  }

  /** A finished battle cannot be started again. */
  lemma StartBattleOnce(a: Arena)
    requires StartBattleStep(a).result.Ok?
    ensures StartBattleStep(StartBattleStep(a).after).result.Err?
  {
  }

  // ---------------------------------------------------------------------
  // The battle object
  // ---------------------------------------------------------------------

  /** `SimpleBattle`: the character, the enemy and whether combat is
      active. */
  class Battle {
    const character: Character
    const enemy: Enemy
    var combatActive: bool

    function State(): Arena
      reads this, character, enemy
    {
      Arena(combatActive, character.Snapshot(), enemy.Snapshot())
    }

    /** A new battle is active and holds the two objects it was given. */
    constructor (character: Character, enemy: Enemy)
      ensures this.character == character && this.enemy == enemy
      ensures State() == Arena(true, character.Snapshot(), enemy.Snapshot())
    {
      this.character := character;
      this.enemy := enemy;
      combatActive := true;
    }

    method StartBattle() returns (o: Result<BattleReport>)
      modifies this, character, enemy
      ensures Turn(o, State()) == StartBattleStep(old(State()))
    {
      if character.health <= 0 {
        return Err(CharacterDead);
      }
      ghost var hero0, foe0, started := character.Snapshot(), enemy.Snapshot(), combatActive;
      ghost var goal := Fight(hero0.health, hero0.strength, foe0.health, foe0.strength);
      var result: Option<Winner> := None;
      while combatActive
        invariant character.Snapshot() == hero0.(health := character.health)
        invariant enemy.Snapshot() == foe0.(health := enemy.health)
        invariant !started ==> result.None? && !combatActive
        invariant result.Some? ==> !combatActive && Bout(result.value, character.health, enemy.health) == goal
        invariant result.None? ==> character.health > 0
        invariant result.None? && !combatActive ==> !started && character.Snapshot() == hero0 && enemy.Snapshot() == foe0
        invariant result.None? && combatActive ==>
          Fight(character.health, hero0.strength, enemy.health, foe0.strength) == goal
        decreases character.health + Max(enemy.health, 0)
      {
        var damage := Damage(character.strength, enemy.strength);
        enemy.health := AfterDamage(enemy.health, damage);
        result := CheckBattleEnd(enemy.health, character.health);
        if result.Some? {
          combatActive := false;
          break;
        }
        damage := Damage(enemy.strength, character.strength);
        character.health := AfterDamage(character.health, damage);
        result := CheckBattleEnd(enemy.health, character.health);
        if result.Some? {
          combatActive := false;
          break;
        }
      }
      if result.None? {
        return Err(UnboundResult);
      }
      if result.value == PlayerWon {
        var rewards := GetVictoryRewards(enemy.Snapshot());
        o := Ok(BattleReport(PlayerWon, rewards.xp, rewards.gold));
      } else {
        o := Ok(BattleReport(EnemyWon, 0, 0));
      }
    }

    method PlayerTurn() returns (o: Result<()>)
      modifies enemy
      ensures Turn(o, State()) == PlayerTurnStep(old(State()))
    {
      if !combatActive {
        return Err(CombatNotActive);
      }
      var damage := Damage(character.strength, enemy.strength);
      enemy.health := AfterDamage(enemy.health, damage);
      o := Ok(());
    }

    method EnemyTurn() returns (o: Result<()>)
      modifies character
      ensures Turn(o, State()) == EnemyTurnStep(old(State()))
    {
      if !combatActive {
        return Err(CombatNotActive);
      }
      var damage := Damage(enemy.strength, character.strength);
      character.health := AfterDamage(character.health, damage);
      o := Ok(());
    }

    method AttemptEscape(coin: bool) returns (o: Result<bool>)
      modifies this
      ensures Turn(o, State()) == AttemptEscapeStep(old(State()), coin)
    {
      if !combatActive {
        return Err(CombatNotActive);
      }
      if coin {
        combatActive := false;
      }
      o := Ok(coin);
    }
  }

  // ---------------------------------------------------------------------
  // Class abilities
  // ---------------------------------------------------------------------

  /** An ability's message and the character and enemy after it. */
  datatype Clash = Clash(message: string, hero: Record, foe: Foe)

  function PowerStrikeStep(hero: Record, foe: Foe): Clash {
    var damage := hero.strength * 2;
    Clash(hero.name + " uses Power Strike for " + IntToString(damage) + " damage!",
          hero, foe.(health := AfterDamage(foe.health, damage)))
  }

  function FireballStep(hero: Record, foe: Foe): Clash {
    var damage := hero.magic * 2;
    Clash(hero.name + " casts Fireball for " + IntToString(damage) + " damage!",
          hero, foe.(health := AfterDamage(foe.health, damage)))
  }

  function CriticalStrikeStep(hero: Record, foe: Foe, coin: bool): Clash {
    var damage := if coin then hero.strength * 3 else hero.strength;
    var message :=
      if coin then "Critical Strike! " + IntToString(damage) + " damage!"
      else "Strike deals " + IntToString(damage) + " damage.";
    Clash(message, hero, foe.(health := AfterDamage(foe.health, damage)))
  }

  function ClericHealStep(hero: Record, foe: Foe): Clash {
    Clash(hero.name + " heals for 30 HP!", hero.(health := Min(hero.maxHealth, hero.health + 30)), foe)
  }

  /** `use_special_ability`: chosen by the exact class name, with no
      cooldown and no check that a battle is active. */
  function AbilityStep(hero: Record, foe: Foe, coin: bool): (c: Clash)
    ensures hero.charClass !in {"Warrior", "Mage", "Rogue", "Cleric"} ==> c == Clash("Nothing happens.", hero, foe)
    ensures hero.charClass != "Cleric" ==> c.hero == hero && c.foe == foe.(health := c.foe.health)
    ensures hero.charClass == "Cleric" ==> c.foe == foe && c.hero == hero.(health := c.hero.health)
    ensures hero.charClass == "Warrior" ==> c.foe.health == AfterDamage(foe.health, 2 * hero.strength)
    ensures hero.charClass == "Mage" ==> c.foe.health == AfterDamage(foe.health, 2 * hero.magic)
    ensures hero.charClass == "Rogue" ==>
      c.foe.health == AfterDamage(foe.health, if coin then 3 * hero.strength else hero.strength)
    ensures hero.charClass == "Cleric" ==> c.hero.health == Min(hero.maxHealth, hero.health + 30)
  {
    if hero.charClass == "Warrior" then PowerStrikeStep(hero, foe)
    else if hero.charClass == "Mage" then FireballStep(hero, foe)
    else if hero.charClass == "Rogue" then CriticalStrikeStep(hero, foe, coin)
    else if hero.charClass == "Cleric" then ClericHealStep(hero, foe)
    else Clash("Nothing happens.", hero, foe)
  }

  /** With strength and magic not negative, no ability raises the enemy's
      health, and the enemy's health is never left negative. */
  lemma AbilityNeverHealsFoe(hero: Record, foe: Foe, coin: bool)
    requires hero.strength >= 0 && hero.magic >= 0 && foe.health >= 0
    ensures 0 <= AbilityStep(hero, foe, coin).foe.health <= foe.health
  {
  }

  /** The Cleric's heal leaves health at most max_health, and at most 30
      above what it was; from a health within range it never lowers it. */
  lemma ClericHealBounded(hero: Record, foe: Foe, coin: bool)
    requires hero.charClass == "Cleric"
    ensures AbilityStep(hero, foe, coin).hero.health <= hero.maxHealth
    ensures AbilityStep(hero, foe, coin).hero.health <= hero.health + 30
    ensures hero.health <= hero.maxHealth ==> AbilityStep(hero, foe, coin).hero.health >= hero.health
  {
  }

  /** The Cleric's heal keeps every record invariant. */
  lemma ClericHealPreservesWellFormed(hero: Record, foe: Foe, coin: bool)
    requires hero.charClass == "Cleric" && WellFormed(hero)
    ensures WellFormed(AbilityStep(hero, foe, coin).hero)
  {
  }

  /** A Warrior's Power Strike on a fresh goblin: 30 damage leaves 20. */
  lemma PowerStrikeOnGoblin(hero: Record)
    requires hero.charClass == "Warrior" && hero.strength == 15
    ensures AbilityStep(hero, Template("goblin"), false).foe.health == 20
  {
  }

  method WarriorPowerStrike(character: Character, enemy: Enemy) returns (message: string)
    modifies enemy
    ensures Clash(message, character.Snapshot(), enemy.Snapshot())
         == PowerStrikeStep(old(character.Snapshot()), old(enemy.Snapshot()))
  {
    var damage := character.strength * 2;
    enemy.health := AfterDamage(enemy.health, damage);
    message := character.name + " uses Power Strike for " + IntToString(damage) + " damage!";
  }

  method MageFireball(character: Character, enemy: Enemy) returns (message: string)
    modifies enemy
    ensures Clash(message, character.Snapshot(), enemy.Snapshot())
         == FireballStep(old(character.Snapshot()), old(enemy.Snapshot()))
  {
    var damage := character.magic * 2;
    enemy.health := AfterDamage(enemy.health, damage);
    message := character.name + " casts Fireball for " + IntToString(damage) + " damage!";
  }

  method RogueCriticalStrike(character: Character, enemy: Enemy, coin: bool) returns (message: string)
    modifies enemy
    ensures Clash(message, character.Snapshot(), enemy.Snapshot())
         == CriticalStrikeStep(old(character.Snapshot()), old(enemy.Snapshot()), coin)
  {
    var damage := if coin then character.strength * 3 else character.strength;
    enemy.health := AfterDamage(enemy.health, damage);
    if coin {
      message := "Critical Strike! " + IntToString(damage) + " damage!";
    } else {
      message := "Strike deals " + IntToString(damage) + " damage.";
    }
  }

  method ClericHeal(character: Character) returns (message: string)
    modifies character
    ensures message == old(character.name) + " heals for 30 HP!"
    ensures character.Snapshot() == old(character.Snapshot()).(health := Min(old(character.maxHealth), old(character.health) + 30))
  {
    character.health := Min(character.maxHealth, character.health + 30);
    message := character.name + " heals for 30 HP!";
  }

  method UseSpecialAbility(character: Character, enemy: Enemy, coin: bool) returns (message: string)
    modifies character, enemy
    ensures Clash(message, character.Snapshot(), enemy.Snapshot())
         == AbilityStep(old(character.Snapshot()), old(enemy.Snapshot()), coin)
  {
    var charClass := character.charClass;
    if charClass == "Warrior" {
      message := WarriorPowerStrike(character, enemy);
    } else if charClass == "Mage" {
      message := MageFireball(character, enemy);
    } else if charClass == "Rogue" {
      message := RogueCriticalStrike(character, enemy, coin);
    } else if charClass == "Cleric" {
      message := ClericHeal(character);
    } else {
      message := "Nothing happens.";
    }
  }

  // ---------------------------------------------------------------------
  // Readiness
  // ---------------------------------------------------------------------

  /** The `in_battle` entry a character holds, as Python's truthiness of
      `character.get("in_battle", False)`: only a stat effect naming it can
      create it, and 0 counts as false. */
  predicate InBattle(hero: Record) {
    "in_battle" in hero.extras && hero.extras["in_battle"] != 0
  }

  /** `can_character_fight`: positive health and not marked in a battle. */
  function CanCharacterFight(hero: Record): bool {
    hero.health > 0 && !InBattle(hero)
  }

  /** A character not marked in a battle can fight exactly when a fresh
      battle with it runs to an end instead of raising CharacterDeadError. */
  lemma CanFightIffBattleRuns(hero: Record, foe: Foe)
    requires !InBattle(hero)
    ensures CanCharacterFight(hero) <==> StartBattleStep(Arena(true, hero, foe)).result.Ok?
    ensures !CanCharacterFight(hero) ==> StartBattleStep(Arena(true, hero, foe)).result == Err(CharacterDead)
  {
  }

  /** An item effect `in_battle:v` goes through the generic branch of
      `apply_stat_effect`; the entry it leaves decides whether the character
      can fight, although `start_battle` itself never looks at it. */
  lemma InBattleEffect(r: Record, v: int, foe: Foe)
    ensures var after := InventorySystem.ApplyStatEffectStep(r, "in_battle", v).after;
      var before := if "in_battle" in r.extras then r.extras["in_battle"] else 0;
      && after.health == r.health
      && (CanCharacterFight(after) <==> r.health > 0 && before + v == 0)
      && (r.health > 0 ==> StartBattleStep(Arena(true, after, foe)).result.Ok?)
  {
    assert InventorySystem.KeyOf("in_battle") == InventorySystem.NewKey("in_battle");
  }

  /** A consumable with effect `in_battle:1` on a character without the
      entry leaves it unable to fight. */
  lemma InBattleOneBlocksFight(r: Record)
    requires "in_battle" !in r.extras
    ensures !CanCharacterFight(InventorySystem.ApplyStatEffectStep(r, "in_battle", 1).after)
  {
    assert InventorySystem.KeyOf("in_battle") == InventorySystem.NewKey("in_battle");
  }
}
