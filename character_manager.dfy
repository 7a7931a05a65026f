/** Character progression: creation from the class table, experience and
    the level-up loop, gold, healing, death and revival, and the field
    check applied to loaded characters.

    The engine keeps a character in a dictionary that its functions update
    in place. Here that dictionary is the class `Character`, one field per
    key, and `Snapshot()` reads it as a `Record` value. Each operation that
    changes a character is a method whose postcondition equals its new
    state and its result to a pure step function of the old state; the
    properties the engine promises are stated on those step functions. */
module CharacterManager {
  import opened Wrappers
  import opened Text

  /** A character as a value. The last five fields are keys the inventory
      code adds later: an absent `equipped_*` key is `None`, an absent
      `*_bonus` key reads as 0 (the code always reads it with a default of
      0), and keys created by item effects on unknown stats live in
      `extras`. */
  datatype Record = Record(
    name: string,
    charClass: string,
    level: int,
    health: int,
    maxHealth: int,
    strength: int,
    magic: int,
    experience: int,
    gold: int,
    inventory: seq<string>,
    activeQuests: seq<string>,
    completedQuests: seq<string>,
    equippedWeapon: Option<string>,
    weaponBonus: int,
    equippedArmor: Option<string>,
    armorBonus: int,
    extras: map<string, int>)

  /** What an operation returned (or raised) and the character afterwards.
      On error paths `after` shows whatever the operation had already
      changed before it raised. */
  datatype Step<T> = Step(result: Result<T>, after: Record)

  /** The mutable character dictionary. */
  class Character {
    var name: string
    var charClass: string
    var level: int
    var health: int
    var maxHealth: int
    var strength: int
    var magic: int
    var experience: int
    var gold: int
    var inventory: seq<string>
    var activeQuests: seq<string>
    var completedQuests: seq<string>
    var equippedWeapon: Option<string>
    var weaponBonus: int
    var equippedArmor: Option<string>
    var armorBonus: int
    var extras: map<string, int>

    function Snapshot(): Record
      reads this
    {
      Record(name, charClass, level, health, maxHealth, strength, magic,
             experience, gold, inventory, activeQuests, completedQuests,
             equippedWeapon, weaponBonus, equippedArmor, armorBonus, extras)
    }

    constructor FromRecord(r: Record)
      ensures Snapshot() == r
    {
      name, charClass := r.name, r.charClass;
      level, health, maxHealth := r.level, r.health, r.maxHealth;
      strength, magic, experience, gold := r.strength, r.magic, r.experience, r.gold;
      inventory, activeQuests, completedQuests := r.inventory, r.activeQuests, r.completedQuests;
      equippedWeapon, weaponBonus := r.equippedWeapon, r.weaponBonus;
      equippedArmor, armorBonus := r.equippedArmor, r.armorBonus;
      extras := r.extras;
    }
  }

  // ---------------------------------------------------------------------
  // The record invariants every operation keeps
  // ---------------------------------------------------------------------

  predicate NoDuplicates(s: seq<string>) {
    forall i, j :: 0 <= i < j < |s| ==> s[i] != s[j]
  }

  /** Level at least 1, health within 0..max_health, max_health positive,
      experience below the next threshold, no negative stats or gold, and
      the quest lists free of duplicates and disjoint. */
  predicate WellFormed(r: Record) {
    r.level >= 1 && 0 <= r.health <= r.maxHealth && r.maxHealth > 0
    && 0 <= r.experience < r.level * 100
    && r.strength >= 0 && r.magic >= 0 && r.gold >= 0
    && NoDuplicates(r.activeQuests) && NoDuplicates(r.completedQuests)
    && (forall q :: q in r.activeQuests ==> q !in r.completedQuests)
  }

  // ---------------------------------------------------------------------
  // create_character
  // ---------------------------------------------------------------------

  const ValidClasses: seq<string> := ["Warrior", "Mage", "Rogue", "Cleric"]

  /** The class as `create_character` normalises it: `strip()` then `title()`. */
  function NormaliseClass(characterClass: string): string {
    Title(Strip(characterClass))
  }

  datatype BaseStats = BaseStats(health: int, strength: int, magic: int)

  /** The per-class creation table. */
  function ClassStats(characterClass: string): BaseStats
    requires characterClass in ValidClasses
  {
    if characterClass == "Warrior" then BaseStats(120, 15, 5)
    else if characterClass == "Mage" then BaseStats(80, 8, 20)
    else if characterClass == "Rogue" then BaseStats(90, 12, 10)
    else BaseStats(100, 10, 15)
  }

  function CreateCharacter(name: string, characterClass: string): (r: Result<Record>)
    ensures r.Ok? <==> NormaliseClass(characterClass) in ValidClasses
    ensures r.Err? ==> r.error == InvalidCharacterClass
    ensures r.Ok? ==>
      var c := NormaliseClass(characterClass);
      var base := ClassStats(c);
      && r.value.name == name && r.value.charClass == c
      && r.value.level == 1 && r.value.experience == 0 && r.value.gold == 100
      && r.value.health == base.health && r.value.maxHealth == base.health
      && r.value.strength == base.strength && r.value.magic == base.magic
      && r.value.inventory == [] && r.value.activeQuests == [] && r.value.completedQuests == []
      && r.value.equippedWeapon.None? && r.value.equippedArmor.None?
      && r.value.weaponBonus == 0 && r.value.armorBonus == 0 && r.value.extras == map[]
  {
    var c := NormaliseClass(characterClass);
    if c !in ValidClasses then Err(InvalidCharacterClass)
    else
      var base := ClassStats(c);
      Ok(Record(name, c, 1, base.health, base.health, base.strength, base.magic,
                0, 100, [], [], [], None, 0, None, 0, map[]))
  }

  /** A freshly created character satisfies every record invariant. */
  lemma CreatedIsWellFormed(name: string, characterClass: string)
    requires CreateCharacter(name, characterClass).Ok?
    ensures WellFormed(CreateCharacter(name, characterClass).value)
  {
  }

  /** Normalising is idempotent: creating again from the stored class name
      gives the same character. */
  lemma CreateFromStoredClass(name: string, characterClass: string)
    requires CreateCharacter(name, characterClass).Ok?
    ensures CreateCharacter(name, CreateCharacter(name, characterClass).value.charClass)
            == CreateCharacter(name, characterClass)
  {
    var c := NormaliseClass(characterClass);
    TitleOfStripped(Strip(characterClass));
    StripOfStripped(Title(Strip(characterClass)));
    TitleIdempotent(Strip(characterClass));
    assert NormaliseClass(c) == c;
  }

  lemma StripRogue()
    ensures Strip("  rOGUE ") == "rOGUE"
  {
    assert "  rOGUE " == "  " + "rOGUE" + " ";
    StripPadded("  ", "rOGUE", " ");
  }

  lemma TitleRogue()
    ensures Title("rOGUE") == "Rogue"
  {
    var u := Title("rOGUE");
    assert u[0] == 'R' && u[1] == 'o' && u[2] == 'g' && u[3] == 'u' && u[4] == 'e';
  }

  lemma NormaliseRogue()
    ensures NormaliseClass("  rOGUE ") == "Rogue"
  {
    StripRogue();
    TitleRogue();
  }

  lemma NormaliseUnchanged(c: string)
    requires c == "Rogue" || c == "Paladin" || c == "Warrior" || c == "Mage" || c == "Cleric"
    ensures NormaliseClass(c) == c
  {
    StripOfStripped(c);
    var u := Title(c);
    forall i | 0 <= i < |c|
      ensures u[i] == c[i]
    {
    }
  }

  /** The example "Rogue" is accepted as written and gets the Rogue's 90
      health as its max health. */
  lemma CreateRogue()
    ensures CreateCharacter("Hero", "Rogue").Ok?
    ensures CreateCharacter("Hero", "Rogue").value.maxHealth == 90
  {
    NormaliseUnchanged("Rogue");
    assert ValidClasses[2] == "Rogue";
  }

  /** Every class that is not one of the four, whatever its letter case
      and surrounding whitespace, raises InvalidCharacterClassError. */
  lemma CreateRejectsUnknownClass(name: string, characterClass: string)
    requires Lower(Strip(characterClass)) !in ["warrior", "mage", "rogue", "cleric"]
    ensures CreateCharacter(name, characterClass) == Err(InvalidCharacterClass)
  {
    var n := NormaliseClass(characterClass);
    LowerOfTitle(Strip(characterClass));
    LowerOfClasses();
    assert n != "Warrior" && n != "Mage" && n != "Rogue" && n != "Cleric";
  }

  /** The lower-cased names of the four classes. */
  lemma LowerOfClasses()
    ensures Lower("Warrior") == "warrior" && Lower("Mage") == "mage"
    ensures Lower("Rogue") == "rogue" && Lower("Cleric") == "cleric"
  {
  }

  /** The example of an unknown class: "Paladin". */
  lemma CreateRejectsPaladin()
    ensures CreateCharacter("Hero", "Paladin") == Err(InvalidCharacterClass)
  {
    NormaliseUnchanged("Paladin");
    assert "Paladin" !in ValidClasses by {
      forall i | 0 <= i < |ValidClasses|
        ensures ValidClasses[i] != "Paladin"
      {
        assert ValidClasses[i][0] != 'P';
      }
    }
  }

  /** The class name is matched after trimming and title-casing. */
  lemma CreateNormalisesClass()
    ensures CreateCharacter("Hero", "  rOGUE ") == CreateCharacter("Hero", "Rogue")
  {
    NormaliseRogue();
    NormaliseUnchanged("Rogue");
  }

  // ---------------------------------------------------------------------
  // gain_experience and the level-up loop
  // ---------------------------------------------------------------------

  /** Experience consumed by `k` consecutive level-ups starting at `level`. */
  function XpToClimb(level: int, k: nat): int
    decreases k
  {
    if k == 0 then 0 else level * 100 + XpToClimb(level + 1, k - 1)
  }

  /** One level-up: pay the threshold, gain a level, 10 max health,
      2 strength and 2 magic, and refill health to the new maximum. */
  function NextLevel(r: Record): Record {
    r.(experience := r.experience - r.level * 100, level := r.level + 1,
       maxHealth := r.maxHealth + 10, strength := r.strength + 2,
       magic := r.magic + 2, health := r.maxHealth + 10)
  }

  /** Experience is below the threshold of the current level, so the
      level-up loop has nothing left to do. */
  predicate Settled(r: Record) {
    r.experience < r.level * 100
  }

  /** The level-up loop: while experience reaches `level * 100`, pay the
      threshold and gain a level, 10 max health, 2 strength and 2 magic,
      with health refilled to the new maximum. The loop also ends when the
      level starts at 0 or below: such levels climb to 1 first. */
  function LevelUps(r: Record): (s: Record)
    ensures Settled(s) && s.level >= r.level
    decreases (if r.level <= 0 then 1 - r.level else 0), (if r.level <= 0 then 0 else r.experience)
  {
    if r.experience >= r.level * 100 then LevelUps(NextLevel(r)) else r
  }

  /** What the loop guarantees: experience ends below the threshold of
      the final level, the level never falls, every level gained brings
      exactly +10 max health, +2 strength and +2 magic and costs its own
      threshold, health is full after any level-up, and nothing else moves. */
  lemma {:induction false} LevelUpsLaws(r: Record)
    ensures var s := LevelUps(r);
      && s.experience < s.level * 100
      && s.level >= r.level
      && s.maxHealth == r.maxHealth + 10 * (s.level - r.level)
      && s.strength == r.strength + 2 * (s.level - r.level)
      && s.magic == r.magic + 2 * (s.level - r.level)
      && s.experience == r.experience - XpToClimb(r.level, s.level - r.level)
      && (s.level > r.level ==> s.health == s.maxHealth)
      && (s.level == r.level ==> s == r)
      && (r.level >= 1 && r.experience >= 0 ==> s.experience >= 0)
      && s == r.(level := s.level, health := s.health, maxHealth := s.maxHealth,
                 strength := s.strength, magic := s.magic, experience := s.experience)
    decreases (if r.level <= 0 then 1 - r.level else 0), (if r.level <= 0 then 0 else r.experience)
  {
    if r.experience >= r.level * 100 {
      LevelUpsLaws(NextLevel(r));
    }
  }

  /** `gain_experience`: a character at 0 health or below raises
      CharacterDeadError untouched; otherwise the amount, negative or not,
      is added to experience and the level-up loop runs. */
  function GainExperienceStep(r: Record, amount: int): (s: Step<()>)
    ensures r.health <= 0 ==> s == Step(Err(CharacterDead), r)
    ensures r.health > 0 ==>
      && s.result == Ok(())
      && s.after.level >= r.level && Settled(s.after)
  {
    if r.health <= 0 then Step(Err(CharacterDead), r)
    else Step(Ok(()), LevelUps(r.(experience := r.experience + amount)))
  }

  /** The contract of `gain_experience`, with `k` the number of level-ups. */
  lemma GainExperienceLaws(r: Record, amount: int)
    ensures r.health <= 0 ==> GainExperienceStep(r, amount) == Step(Err(CharacterDead), r)
    ensures r.health > 0 ==>
      var s := GainExperienceStep(r, amount);
      var k := s.after.level - r.level;
      && s.result == Ok(())
      && k >= 0
      && s.after.experience < s.after.level * 100
      && s.after.experience == r.experience + amount - XpToClimb(r.level, k)
      && s.after.maxHealth == r.maxHealth + 10 * k
      && s.after.strength == r.strength + 2 * k
      && s.after.magic == r.magic + 2 * k
      && (k > 0 ==> s.after.health == s.after.maxHealth)
      && (k == 0 ==> s.after.health == r.health)
      && s.after == r.(level := s.after.level, health := s.after.health, maxHealth := s.after.maxHealth,
                       strength := s.after.strength, magic := s.after.magic, experience := s.after.experience)
  {
    LevelUpsLaws(r.(experience := r.experience + amount));
  }

  /** A large grant crosses several thresholds in one call. */
  lemma GainExperienceJumpsLevels(hero: Record)
    requires hero.level == 1 && hero.experience == 0 && hero.health > 0 && hero.maxHealth == 120
    ensures
      var s := GainExperienceStep(hero, 350).after;
      s.level == 3 && s.experience == 50 && s.maxHealth == 140 && s.health == 140
  {
    var r0 := hero.(experience := 350);
    var r1 := NextLevel(r0);
    var r2 := NextLevel(r1);
    assert r1.level == 2 && r1.experience == 250;
    assert LevelUps(r0) == LevelUps(r1);
    assert LevelUps(r1) == LevelUps(r2);
    assert r2.level == 3 && r2.experience == 50;
    assert LevelUps(r2) == r2;
    assert LevelUps(r0) == LevelUps(r1) == r2;
  }

  /** A negative grant is added as it is: experience falls below zero. */
  lemma NegativeExperienceIsAdded(r: Record, amount: int)
    requires WellFormed(r) && r.health > 0 && amount < 0
    ensures GainExperienceStep(r, amount).after == r.(experience := r.experience + amount)
  {
    var t := r.(experience := r.experience + amount);
    assert t.experience < t.level * 100;
  }

  /** With a non-negative grant the record invariants survive. */
  lemma GainExperiencePreservesWellFormed(r: Record, amount: int)
    requires WellFormed(r) && amount >= 0
    ensures WellFormed(GainExperienceStep(r, amount).after)
  {
    GainExperienceLaws(r, amount);
    LevelUpsLaws(r.(experience := r.experience + amount));
  }

  method GainExperience(c: Character, amount: int) returns (o: Result<()>)
    modifies c
    ensures Step(o, c.Snapshot()) == GainExperienceStep(old(c.Snapshot()), amount)
  {
    if c.health <= 0 {
      return Err(CharacterDead);
    }
    c.experience := c.experience + amount;
    assert c.Snapshot() == old(c.Snapshot()).(experience := old(c.experience) + amount);
    RunLevelUps(c);
    o := Ok(());
  }

  /** The level-up loop of `gain_experience`, run on the character in place. */
  method RunLevelUps(c: Character)
    modifies c
    ensures c.Snapshot() == LevelUps(old(c.Snapshot()))
  {
    ghost var target := LevelUps(c.Snapshot());
    while c.experience >= c.level * 100
      invariant LevelUps(c.Snapshot()) == target
      decreases (if c.level <= 0 then 1 - c.level else 0), (if c.level <= 0 then 0 else c.experience)
    {
      ghost var before := c.Snapshot();
      c.experience := c.experience - c.level * 100;
      c.level := c.level + 1;
      c.maxHealth := c.maxHealth + 10;
      c.strength := c.strength + 2;
      c.magic := c.magic + 2;
      c.health := c.maxHealth;
      assert c.Snapshot() == NextLevel(before);
    }
    assert LevelUps(c.Snapshot()) == c.Snapshot();
  }

  // ---------------------------------------------------------------------
  // add_gold
  // ---------------------------------------------------------------------

  /** `add_gold`: the amount may be negative; a total below zero raises
      ValueError and leaves gold alone, otherwise the total is stored and
      returned. */
  function AddGoldStep(r: Record, amount: int): (s: Step<int>)
    ensures s.result.Ok? <==> r.gold + amount >= 0
    ensures s.result.Err? ==> s.result.error == ValueError && s.after == r
    ensures s.result.Ok? ==> s.result.value == r.gold + amount && s.after == r.(gold := s.result.value)
  {
    var total := r.gold + amount;
    if total < 0 then Step(Err(ValueError), r) else Step(Ok(total), r.(gold := total))
  }

  /** Spending what was just earned gives back the same character. */
  lemma AddGoldUndo(r: Record, amount: int)
    requires r.gold >= 0 && AddGoldStep(r, amount).result.Ok?
    ensures AddGoldStep(AddGoldStep(r, amount).after, -amount) == Step(Ok(r.gold), r)
  {
  }

  lemma AddGoldPreservesWellFormed(r: Record, amount: int)
    requires WellFormed(r)
    ensures WellFormed(AddGoldStep(r, amount).after)
  {
  }

  method AddGold(c: Character, amount: int) returns (o: Result<int>)
    modifies c
    ensures Step(o, c.Snapshot()) == AddGoldStep(old(c.Snapshot()), amount)
  {
    var newTotal := c.gold + amount;
    if newTotal < 0 {
      return Err(ValueError);
    }
    c.gold := newTotal;
    o := Ok(newTotal);
  }

  // ---------------------------------------------------------------------
  // heal_character, is_character_dead, revive_character
  // ---------------------------------------------------------------------

  function Min(a: int, b: int): int { if a <= b then a else b }
  function Max(a: int, b: int): int { if a >= b then a else b }

  /** `heal_character`: a non-positive amount heals nothing; otherwise the
      character gains the amount, but never past max_health. */
  function HealStep(r: Record, amount: int): (s: Step<int>)
    ensures s.result.Ok?
    ensures amount <= 0 ==> s == Step(Ok(0), r)
    ensures amount > 0 ==>
      && s.after == r.(health := r.health + s.result.value)
      && s.result.value <= amount
      && s.after.health <= r.maxHealth
      && (s.after.health == r.maxHealth || s.result.value == amount)
    ensures amount > 0 && r.health <= r.maxHealth ==> s.result.value >= 0
  {
    if amount <= 0 then Step(Ok(0), r)
    else
      var actual := Min(amount, r.maxHealth - r.health);
      Step(Ok(actual), r.(health := r.health + actual))
  }

  lemma HealPreservesWellFormed(r: Record, amount: int)
    requires WellFormed(r)
    ensures WellFormed(HealStep(r, amount).after)
    ensures HealStep(r, amount).after.health >= r.health
  {
  }

  method HealCharacter(c: Character, amount: int) returns (healed: int)
    modifies c
    ensures Step(Ok(healed), c.Snapshot()) == HealStep(old(c.Snapshot()), amount)
  {
    if amount <= 0 {
      return 0;
    }
    var missing := c.maxHealth - c.health;
    healed := Min(amount, missing);
    c.health := c.health + healed;
  }

  function IsCharacterDead(r: Record): bool {
    r.health <= 0
  }

  /** `revive_character`: a living character is left alone and False is
      returned; a dead one comes back with half its max health, at least 1. */
  function ReviveStep(r: Record): (s: Step<bool>)
    ensures s.result.Ok? && (s.result.value <==> IsCharacterDead(r))
    ensures !IsCharacterDead(r) ==> s.after == r
    ensures IsCharacterDead(r) ==>
      && s.after == r.(health := s.after.health)
      && !IsCharacterDead(s.after)
      && (r.maxHealth >= 2 ==> s.after.health == r.maxHealth / 2)
      && (r.maxHealth < 2 ==> s.after.health == 1)
  {
    if r.health > 0 then Step(Ok(false), r)
    else Step(Ok(true), r.(health := Max(1, r.maxHealth / 2)))
  }

  /** Revival restores at least one point and never more than the maximum. */
  lemma RevivePreservesWellFormed(r: Record)
    requires WellFormed(r)
    ensures WellFormed(ReviveStep(r).after)
  {
  }

  lemma ReviveExamples(r: Record)
    requires r.health == 0
    ensures r.maxHealth == 9 ==> ReviveStep(r).after.health == 4
    ensures r.maxHealth == 1 ==> ReviveStep(r).after.health == 1
  {
  }

  method ReviveCharacter(c: Character) returns (revived: bool)
    modifies c
    ensures Step(Ok(revived), c.Snapshot()) == ReviveStep(old(c.Snapshot()))
  {
    if c.health > 0 {
      return false;
    }
    var half := Max(1, c.maxHealth / 2);
    c.health := half;
    revived := true;
  }

  // ---------------------------------------------------------------------
  // validate_character_data
  // ---------------------------------------------------------------------

  /** A dictionary value as `validate_character_data` can meet it. */
  datatype Value = IntValue(i: int) | BoolValue(b: bool) | StrValue(s: string) | ListValue(items: seq<string>)

  /** Python's `isinstance(v, int)`: bool is a subclass of int. */
  predicate IsInt(v: Value) { v.IntValue? || v.BoolValue? }

  const RequiredFields: seq<string> :=
    ["name", "class", "level", "health", "max_health", "strength", "magic",
     "experience", "gold", "inventory", "active_quests", "completed_quests"]
  const NumericFields: seq<string> :=
    ["level", "health", "max_health", "strength", "magic", "experience", "gold"]
  const ListFields: seq<string> := ["inventory", "active_quests", "completed_quests"]

  predicate HasRequiredFields(bag: map<string, Value>) {
    forall j :: 0 <= j < |RequiredFields| ==> RequiredFields[j] in bag
  }

  lemma RequiredCoversNumericAndList(bag: map<string, Value>)
    requires HasRequiredFields(bag)
    ensures forall j :: 0 <= j < |NumericFields| ==> NumericFields[j] in bag
    ensures forall j :: 0 <= j < |ListFields| ==> ListFields[j] in bag
  {
    assert RequiredFields[2] in bag && RequiredFields[3] in bag && RequiredFields[4] in bag;
    assert RequiredFields[5] in bag && RequiredFields[6] in bag && RequiredFields[7] in bag;
    assert RequiredFields[8] in bag && RequiredFields[9] in bag && RequiredFields[10] in bag;
    assert RequiredFields[11] in bag;
  }

  /** Every required key present, every numeric field an int (or bool),
      every list field a list. */
  predicate IsValidCharacterData(bag: map<string, Value>) {
    HasRequiredFields(bag)
    && (forall j :: 0 <= j < |NumericFields| ==> NumericFields[j] in bag && IsInt(bag[NumericFields[j]]))
    && (forall j :: 0 <= j < |ListFields| ==> ListFields[j] in bag && bag[ListFields[j]].ListValue?)
  }

  /** `validate_character_data`: InvalidSaveDataError exactly when a
      required field is missing, a numeric field is not an int, or a list
      field is not a list. */
  method ValidateCharacterData(bag: map<string, Value>) returns (o: Outcome)
    ensures o == Pass <==> IsValidCharacterData(bag)
    ensures o != Pass ==> o == Fail(InvalidSaveData)
  {
    for i := 0 to |RequiredFields|
      invariant forall j :: 0 <= j < i ==> RequiredFields[j] in bag
    {
      if RequiredFields[i] !in bag {
        return Fail(InvalidSaveData);
      }
    }
    RequiredCoversNumericAndList(bag);
    for i := 0 to |NumericFields|
      invariant forall j :: 0 <= j < i ==> IsInt(bag[NumericFields[j]])
    {
      if !IsInt(bag[NumericFields[i]]) {
        return Fail(InvalidSaveData);
      }
    }
    for i := 0 to |ListFields|
      invariant forall j :: 0 <= j < i ==> bag[ListFields[j]].ListValue?
    {
      if !bag[ListFields[i]].ListValue? {
        return Fail(InvalidSaveData);
      }
    }
    o := Pass;
  }
}
