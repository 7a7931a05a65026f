/** The inventory: a list of item ids of at most twenty entries, the use
    of consumables, weapon and armor slots with the stat bonus they carry,
    and buying and selling for gold. Every operation changes the character
    in place; as in the character model, each is a method on `Character`
    whose effect is given by a pure step function on `Record`. The item
    information an operation receives is a loaded `Item`. */
module InventorySystem {
  import opened Wrappers
  import opened Text
  import opened CharacterManager
  import opened GameData
  import opened Lists

  const MaxInventorySize: int := 20

  // ---------------------------------------------------------------------
  // The item list
  // ---------------------------------------------------------------------

  /** The list holds at most twenty ids. */
  predicate WithinCapacity(r: Record) {
    |r.inventory| <= MaxInventorySize
  }

  /** `add_item_to_inventory`: InventoryFullError on a list of twenty or
      more; otherwise the id goes to the end. */
  function AddItemStep(r: Record, itemId: string): (s: Step<bool>)
    ensures s.result.Ok? <==> |r.inventory| < MaxInventorySize
    ensures s.result.Err? ==> s.result.error == InventoryFull && s.after == r
    ensures s.result.Ok? ==> s.result.value && s.after == r.(inventory := r.inventory + [itemId])
  {
    if |r.inventory| >= MaxInventorySize then Step(Err(InventoryFull), r)
    else Step(Ok(true), r.(inventory := r.inventory + [itemId]))
  }

  /** Adding never takes the list past twenty, and raises one more copy. */
  lemma AddItemKeepsCapacity(r: Record, itemId: string)
    requires WithinCapacity(r)
    ensures WithinCapacity(AddItemStep(r, itemId).after)
    ensures AddItemStep(r, itemId).result.Ok? ==>
      Count(AddItemStep(r, itemId).after.inventory, itemId) == Count(r.inventory, itemId) + 1
  {
    CountAppend(r.inventory, itemId, itemId);
  }

  method AddItemToInventory(c: Character, itemId: string) returns (o: Result<bool>)
    modifies c
    ensures Step(o, c.Snapshot()) == AddItemStep(old(c.Snapshot()), itemId)
  {
    if |c.inventory| >= MaxInventorySize {
      return Err(InventoryFull);
    }
    c.inventory := c.inventory + [itemId];
    o := Ok(true);
  }

  /** `remove_item_from_inventory`: ItemNotFoundError when the id is
      absent; otherwise its first occurrence goes. */
  function RemoveItemStep(r: Record, itemId: string): (s: Step<bool>)
    ensures s.result.Ok? <==> itemId in r.inventory
    ensures s.result.Err? ==> s.result.error == ItemNotFound && s.after == r
    ensures s.result.Ok? ==>
      s.result.value && s.after == r.(inventory := RemoveFirst(r.inventory, itemId))
  {
    if itemId !in r.inventory then Step(Err(ItemNotFound), r)
    else Step(Ok(true), r.(inventory := RemoveFirst(r.inventory, itemId)))
  }

  /** Removing what was just added gives back the list it was added to. */
  lemma AddThenRemove(r: Record, itemId: string)
    requires itemId !in r.inventory && AddItemStep(r, itemId).result.Ok?
    ensures RemoveItemStep(AddItemStep(r, itemId).after, itemId) == Step(Ok(true), r)
  {
    RemoveAppended(r.inventory, itemId);
  }

  method RemoveItemFromInventory(c: Character, itemId: string) returns (o: Result<bool>)
    modifies c
    ensures Step(o, c.Snapshot()) == RemoveItemStep(old(c.Snapshot()), itemId)
  {
    if itemId !in c.inventory {
      return Err(ItemNotFound);
    }
    c.inventory := RemoveFirst(c.inventory, itemId);
    o := Ok(true);
  }

  predicate HasItem(r: Record, itemId: string) {
    itemId in r.inventory
  }

  function CountItem(r: Record, itemId: string): nat {
    Count(r.inventory, itemId)
  }

  function SpaceRemaining(r: Record): (n: int)
    ensures WithinCapacity(r) ==> 0 <= n <= MaxInventorySize
    ensures n + |r.inventory| == MaxInventorySize
  {
    MaxInventorySize - |r.inventory|
  }

  /** `has_item` holds exactly when `count_item` is positive, and adding
      succeeds exactly when some space remains. */
  lemma HasItemIffCounted(r: Record, itemId: string)
    ensures HasItem(r, itemId) <==> CountItem(r, itemId) > 0
    ensures AddItemStep(r, itemId).result.Ok? <==> SpaceRemaining(r) > 0
  {
    InIffCount(r.inventory, itemId);
  }

  /** `clear_inventory`: the old list is returned and the list emptied. */
  function ClearInventoryStep(r: Record): (s: Step<seq<string>>)
    ensures s.result == Ok(r.inventory)
    ensures s.after.inventory == [] && s.after.(inventory := r.inventory) == r
  {
    Step(Ok(r.inventory), r.(inventory := []))
  }

  method ClearInventory(c: Character) returns (o: Result<seq<string>>)
    modifies c
    ensures Step(o, c.Snapshot()) == ClearInventoryStep(old(c.Snapshot()))
  {
    var removed := c.inventory;
    c.inventory := [];
    o := Ok(removed);
  }

  // ---------------------------------------------------------------------
  // Item effects
  // ---------------------------------------------------------------------

  /** `parse_item_effect`: ValueError without a colon; otherwise the text
      before the first colon, stripped, and the text after it, stripped,
      as an int (ValueError when it is not one). The stat name never holds
      a colon. */
  function ParseItemEffect(effect: string): (r: Result<(string, int)>)
    ensures r.Err? ==> r.error == ValueError
    ensures r.Ok? ==> IsStripped(r.value.0) && forall i :: 0 <= i < |r.value.0| ==> r.value.0[i] != ':'
  {
    match SplitOnce(effect, ":")
    case None => Err(ValueError)
    case Some(parts) =>
      match ParseInt(Strip(parts.1))
      case None => Err(ValueError)
      case Some(n) =>
        HeadHasNoColon(effect);
        StripIsInside(parts.0);
        Ok((Strip(parts.0), n))
  }

  /** The effect is refused exactly when it has no colon or the text
      after the first colon is not an integer. */
  lemma ParseItemEffectFails(effect: string)
    ensures ParseItemEffect(effect).Err? <==>
      !Contains(effect, ":") || ParseInt(Strip(SplitOnce(effect, ":").value.1)).None?
  {
  }

  /** The text before the first colon holds no colon. */
  lemma HeadHasNoColon(s: string)
    requires Contains(s, ":")
    ensures forall i :: 0 <= i < |SplitOnce(s, ":").value.0| ==> SplitOnce(s, ":").value.0[i] != ':'
  {
    var head := SplitOnce(s, ":").value.0;
    forall i | 0 <= i < |head|
      ensures head[i] != ':'
    {
      assert !OccursAt(s, ":", i);
      assert s[i] == head[i];
      assert s[i..i + 1] == [s[i]];
    }
  }


  /** `stat:value` written out is read back: the effect text of an item
      names its stat and amount. */
  lemma ParseItemEffectRoundTrip(stat: string, n: int)
    requires forall i :: 0 <= i < |stat| ==> stat[i] != ':'
    requires IsStripped(stat)
    ensures ParseItemEffect(stat + ":" + IntToString(n)) == Ok((stat, n))
  {
    SplitOnceColon(stat, IntToString(n));
    StripOfStripped(stat);
    IntToStringStripped(n);
    StripOfStripped(IntToString(n));
    ParseIntToString(n);
  }

  lemma ParseHealthTwenty()
    ensures ParseItemEffect("health:20") == Ok(("health", 20))
  {
    assert "health" + ":" + "20" == "health:20";
    assert NatToString(2) == ['2'];
    assert NatToString(20) == NatToString(2) + [DigitChar(0)];
    assert IntToString(20) == "20";
    ParseItemEffectRoundTrip("health", 20);
  }

  /** What a stat name selects in the character: one of the four stats of
      the main branch, another integer key, a key holding text or a list,
      or a name the character does not have. */
  datatype StatKey =
    | HealthKey | MaxHealthKey | StrengthKey | MagicKey
    | LevelKey | ExperienceKey | GoldKey | WeaponBonusKey | ArmorBonusKey
    | NonIntKey
    | NewKey(name: string)

  function KeyOf(stat: string): StatKey {
    if stat == "health" then HealthKey
    else if stat == "max_health" then MaxHealthKey
    else if stat == "strength" then StrengthKey
    else if stat == "magic" then MagicKey
    else if stat == "level" then LevelKey
    else if stat == "experience" then ExperienceKey
    else if stat == "gold" then GoldKey
    else if stat == "weapon_bonus" then WeaponBonusKey
    else if stat == "armor_bonus" then ArmorBonusKey
    else if stat in {"name", "class", "inventory", "active_quests", "completed_quests",
                     "equipped_weapon", "equipped_armor"} then NonIntKey
    else NewKey(stat)
  }

  /** The four stats of the main branch are selected by their own names
      only. */
  lemma KeyOfStats(stat: string)
    ensures KeyOf(stat) == HealthKey <==> stat == "health"
    ensures KeyOf(stat) == MaxHealthKey <==> stat == "max_health"
    ensures KeyOf(stat) == StrengthKey <==> stat == "strength"
    ensures KeyOf(stat) == MagicKey <==> stat == "magic"
  {
  }

  /** `apply_stat_effect`. For health and max_health the sum is followed by
      the clamp of health to max_health; strength and magic add the value.
      Any other name takes the generic branch `c[name] = c.get(name, 0) +
      value`: integer keys add the value, text and list keys raise
      TypeError before any change, and a name the character does not have
      becomes a new key holding the value added to 0. */
  function AdjustStep(r: Record, key: StatKey, value: int): (s: Step<()>)
    ensures s.result.Err? <==> key == NonIntKey
    ensures s.result.Err? ==> s.result.error == TypeError && s.after == r
    ensures key == HealthKey || key == MaxHealthKey ==> s.after.health <= s.after.maxHealth
    ensures key == MaxHealthKey ==>
      s.after == r.(maxHealth := r.maxHealth + value, health := Min(r.health, r.maxHealth + value))
    ensures key == HealthKey ==> s.after == r.(health := Min(r.health + value, r.maxHealth))
    ensures key == StrengthKey ==> s.after == r.(strength := r.strength + value)
    ensures key == MagicKey ==> s.after == r.(magic := r.magic + value)
    ensures key == LevelKey ==> s.after == r.(level := r.level + value)
    ensures key == ExperienceKey ==> s.after == r.(experience := r.experience + value)
    ensures key == GoldKey ==> s.after == r.(gold := r.gold + value)
    ensures key == WeaponBonusKey ==> s.after == r.(weaponBonus := r.weaponBonus + value)
    ensures key == ArmorBonusKey ==> s.after == r.(armorBonus := r.armorBonus + value)
    ensures key.NewKey? ==>
      s.after == r.(extras := r.extras[key.name := (if key.name in r.extras then r.extras[key.name] else 0) + value])
  {
    match key
    case MaxHealthKey =>
      var m := r.maxHealth + value;
      Step(Ok(()), r.(maxHealth := m, health := if r.health > m then m else r.health))
    case HealthKey =>
      var h := r.health + value;
      Step(Ok(()), r.(health := if h > r.maxHealth then r.maxHealth else h))
    case StrengthKey => Step(Ok(()), r.(strength := r.strength + value))
    case MagicKey => Step(Ok(()), r.(magic := r.magic + value))
    case LevelKey => Step(Ok(()), r.(level := r.level + value))
    case ExperienceKey => Step(Ok(()), r.(experience := r.experience + value))
    case GoldKey => Step(Ok(()), r.(gold := r.gold + value))
    case WeaponBonusKey => Step(Ok(()), r.(weaponBonus := r.weaponBonus + value))
    case ArmorBonusKey => Step(Ok(()), r.(armorBonus := r.armorBonus + value))
    case NonIntKey => Step(Err(TypeError), r)
    case NewKey(name) =>
      var before := if name in r.extras then r.extras[name] else 0;
      Step(Ok(()), r.(extras := r.extras[name := before + value]))
  }

  function ApplyStatEffectStep(r: Record, stat: string, value: int): (s: Step<()>)
    ensures s.result.Err? ==> s.result.error == TypeError && s.after == r
    ensures stat == "health" || stat == "max_health" ==> s.result.Ok? && s.after.health <= s.after.maxHealth
    ensures stat == "health" ==> s.after == r.(health := Min(r.health + value, r.maxHealth))
    ensures stat == "max_health" ==>
      s.after == r.(maxHealth := r.maxHealth + value, health := Min(r.health, r.maxHealth + value))
    ensures stat == "strength" ==> s == Step(Ok(()), r.(strength := r.strength + value))
    ensures stat == "magic" ==> s == Step(Ok(()), r.(magic := r.magic + value))
    ensures stat == "gold" ==> s == Step(Ok(()), r.(gold := r.gold + value))
  {
    KeyOfStats(stat);
    AdjustStep(r, KeyOf(stat), value)
  }

  /** An effect never touches the item list, the equipment slots or the
      quest lists. */
  lemma ApplyStatEffectKeeps(r: Record, stat: string, value: int)
    ensures var a := ApplyStatEffectStep(r, stat, value).after;
      a.inventory == r.inventory && a.equippedWeapon == r.equippedWeapon
      && a.equippedArmor == r.equippedArmor && a.activeQuests == r.activeQuests
      && a.completedQuests == r.completedQuests
  {
  }

  /** A healing effect leaves health within 0..max_health on a character
      whose health was there: it rises by at most the value. */
  lemma HealingEffectBounded(r: Record, value: int)
    requires 0 <= r.health <= r.maxHealth && value >= 0
    ensures var a := ApplyStatEffectStep(r, "health", value).after;
      r.health <= a.health <= a.maxHealth && a.health <= r.health + value
  {
  }

  method ApplyStatEffect(c: Character, stat: string, value: int) returns (o: Result<()>)
    modifies c
    ensures Step(o, c.Snapshot()) == ApplyStatEffectStep(old(c.Snapshot()), stat, value)
  {
    o := Adjust(c, KeyOf(stat), value);
  }

  /** The four stats of the main branch. */
  predicate IsMainStat(key: StatKey) {
    key == HealthKey || key == MaxHealthKey || key == StrengthKey || key == MagicKey
  }

  method Adjust(c: Character, key: StatKey, value: int) returns (o: Result<()>)
    modifies c
    ensures Step(o, c.Snapshot()) == AdjustStep(old(c.Snapshot()), key, value)
  {
    if !IsMainStat(key) {
      o := AdjustGeneric(c, key, value);
      return;
    }
    if key == MaxHealthKey {
      var m := c.maxHealth + value;
      c.maxHealth, c.health := m, if c.health > m then m else c.health;
    } else if key == HealthKey {
      var h := c.health + value;
      c.health := if h > c.maxHealth then c.maxHealth else h;
    } else if key == StrengthKey {
      c.strength := c.strength + value;
    } else {
      c.magic := c.magic + value;
    }
    o := Ok(());
  }

  /** The generic branch: `character[name] = character.get(name, 0) + value`. */
  method AdjustGeneric(c: Character, key: StatKey, value: int) returns (o: Result<()>)
    requires !IsMainStat(key)
    modifies c
    ensures Step(o, c.Snapshot()) == AdjustStep(old(c.Snapshot()), key, value)
  {
    match key {
      case LevelKey => c.level := c.level + value;
      case ExperienceKey => c.experience := c.experience + value;
      case GoldKey => c.gold := c.gold + value;
      case WeaponBonusKey => c.weaponBonus := c.weaponBonus + value;
      case ArmorBonusKey => c.armorBonus := c.armorBonus + value;
      case NonIntKey => return Err(TypeError);
      case NewKey(name) => AdjustExtra(c, name, value);
    }
    o := Ok(());
  }

  /** A key outside the record's own fields: a missing entry counts as 0. */
  method AdjustExtra(c: Character, name: string, value: int)
    modifies c
    ensures c.Snapshot() == AdjustStep(old(c.Snapshot()), NewKey(name), value).after
  {
    var before := if name in c.extras then c.extras[name] else 0;
    c.extras := c.extras[name := before + value];
  }

  // ---------------------------------------------------------------------
  // use_item
  // ---------------------------------------------------------------------

  /** `use_item`: ItemNotFoundError for an absent id and InvalidItemTypeError
      for anything but a consumable, both before any change; then the
      effect is applied and one copy is removed. */
  function UseItemStep(r: Record, itemId: string, item: Item): (s: Step<string>)
    ensures !HasItem(r, itemId) ==> s == Step(Err(ItemNotFound), r)
    ensures HasItem(r, itemId) && item.itemType != "consumable" ==> s == Step(Err(InvalidItemType), r)
    ensures s.result.Err? ==> s.after == r
    ensures HasItem(r, itemId) && item.itemType == "consumable" ==>
      (s.result.Ok? <==> ParseItemEffect(item.effect).Ok? && KeyOf(ParseItemEffect(item.effect).value.0) != NonIntKey)
    ensures s.result.Ok? ==>
      && HasItem(r, itemId) && item.itemType == "consumable" && ParseItemEffect(item.effect).Ok?
      && var e := ParseItemEffect(item.effect).value;
         s.after == ApplyStatEffectStep(r, e.0, e.1).after.(inventory := RemoveFirst(r.inventory, itemId))
  {
    if !HasItem(r, itemId) then Step(Err(ItemNotFound), r)
    else if item.itemType != "consumable" then Step(Err(InvalidItemType), r)
    else match ParseItemEffect(item.effect)
      case Err(e) => Step(Err(e), r)
      case Ok(effect) =>
        var applied := ApplyStatEffectStep(r, effect.0, effect.1);
        if applied.result.Err? then Step(Err(applied.result.error), applied.after)
        else
          ApplyStatEffectKeeps(r, effect.0, effect.1);
          Step(Ok("Used " + itemId + "."), applied.after.(inventory := RemoveFirst(applied.after.inventory, itemId)))
  }

  /** A used item loses exactly one copy, and every other item keeps its
      count. */
  lemma UseItemRemovesOne(r: Record, itemId: string, item: Item, other: string)
    requires UseItemStep(r, itemId, item).result.Ok?
    ensures Count(UseItemStep(r, itemId, item).after.inventory, other) ==
      if other == itemId then Count(r.inventory, other) - 1 else Count(r.inventory, other)
  {
    RemoveFirstCount(r.inventory, itemId, other);
  }

  /** Drinking a held "health:20" consumable succeeds: health rises by 20
      up to max health and one copy leaves the list. */
  lemma UseHealthPotion(r: Record, itemId: string, item: Item)
    requires HasItem(r, itemId) && item.itemType == "consumable" && item.effect == "health:20"
    ensures UseItemStep(r, itemId, item) ==
      Step(Ok("Used " + itemId + "."),
           r.(health := Min(r.health + 20, r.maxHealth), inventory := RemoveFirst(r.inventory, itemId)))
  {
    ParseHealthTwenty();
  }

  method UseItem(c: Character, itemId: string, item: Item) returns (o: Result<string>)
    modifies c
    ensures Step(o, c.Snapshot()) == UseItemStep(old(c.Snapshot()), itemId, item)
  {
    if itemId !in c.inventory {
      return Err(ItemNotFound);
    }
    if item.itemType != "consumable" {
      return Err(InvalidItemType);
    }
    var effect := ParseItemEffect(item.effect);
    if effect.Err? {
      return Err(effect.error);
    }
    ghost var before := c.Snapshot();
    var applied := ApplyStatEffect(c, effect.value.0, effect.value.1);
    if applied.Err? {
      return Err(applied.error);
    }
    ApplyStatEffectKeeps(before, effect.value.0, effect.value.1);
    var removed := RemoveItemFromInventory(c, itemId);
    o := Ok("Used " + itemId + ".");
  }

  // ---------------------------------------------------------------------
  // Equipment
  // ---------------------------------------------------------------------

  /** The first half of `equip_weapon` when a weapon is already equipped:
      its bonus leaves strength, the slot is emptied, the bonus reset,
      and the old weapon is added back to the list (which can raise). */
  function StripWeaponStep(r: Record): (s: Step<bool>)
    requires r.equippedWeapon.Some?
    ensures s.after.strength == r.strength - r.weaponBonus && s.after.equippedWeapon.None?
    ensures s.after.weaponBonus == 0
    ensures s.result.Ok? <==> |r.inventory| < MaxInventorySize
    ensures s.after.(strength := r.strength, equippedWeapon := r.equippedWeapon, weaponBonus := r.weaponBonus,
                     inventory := r.inventory) == r
    ensures s.after.inventory ==
      if s.result.Ok? then r.inventory + [r.equippedWeapon.value] else r.inventory
  {
    var stripped := r.(strength := r.strength - r.weaponBonus, equippedWeapon := None, weaponBonus := 0);
    AddItemStep(stripped, r.equippedWeapon.value)
  }

  method StripWeapon(c: Character) returns (o: Result<bool>)
    requires c.equippedWeapon.Some?
    modifies c
    ensures Step(o, c.Snapshot()) == StripWeaponStep(old(c.Snapshot()))
  {
    ghost var r := c.Snapshot();
    var oldWeapon := c.equippedWeapon.value;
    c.strength := c.strength - c.weaponBonus;
    c.equippedWeapon, c.weaponBonus := None, 0;
    assert c.Snapshot() == r.(strength := r.strength - r.weaponBonus, equippedWeapon := None, weaponBonus := 0);
    o := AddItemToInventory(c, oldWeapon);
  }

  /** The effect of the new weapon: a strength effect is added to strength
      and kept as the weapon's bonus; any other goes through
      `apply_stat_effect`. */
  function WeaponEffectStep(r: Record, stat: string, value: int): (s: Step<()>)
    ensures stat == "strength" ==> s == Step(Ok(()), r.(strength := r.strength + value, weaponBonus := value))
    ensures stat != "strength" ==> s == ApplyStatEffectStep(r, stat, value)
    ensures s.after.inventory == r.inventory
  {
    KeyOfStats(stat);
    ApplyStatEffectKeeps(r, stat, value);
    if KeyOf(stat) == StrengthKey then Step(Ok(()), r.(strength := r.strength + value, weaponBonus := value))
    else ApplyStatEffectStep(r, stat, value)
  }

  method WeaponEffect(c: Character, stat: string, value: int) returns (o: Result<()>)
    modifies c
    ensures Step(o, c.Snapshot()) == WeaponEffectStep(old(c.Snapshot()), stat, value)
  {
    KeyOfStats(stat);
    if KeyOf(stat) == StrengthKey {
      c.strength, c.weaponBonus := c.strength + value, value;
      o := Ok(());
    } else {
      o := ApplyStatEffect(c, stat, value);
    }
  }

  /** `equip_weapon`: ItemNotFoundError and InvalidItemTypeError before any
      change; then the old weapon comes off, the new effect goes on, the
      slot takes the id and one copy leaves the list. A failure part-way
      keeps what was changed before it. */
  function EquipWeaponStep(r: Record, itemId: string, item: Item): (s: Step<string>)
    ensures !HasItem(r, itemId) ==> s == Step(Err(ItemNotFound), r)
    ensures HasItem(r, itemId) && item.itemType != "weapon" ==> s == Step(Err(InvalidItemType), r)
    ensures s.result.Ok? ==> s.after.equippedWeapon == Some(itemId)
  {
    if !HasItem(r, itemId) then Step(Err(ItemNotFound), r)
    else if item.itemType != "weapon" then Step(Err(InvalidItemType), r)
    else
      var cleared := if r.equippedWeapon.Some? then StripWeaponStep(r) else Step(Ok(true), r);
      if cleared.result.Err? then Step(Err(cleared.result.error), cleared.after)
      else WearWeaponStep(cleared.after, itemId, ParseItemEffect(item.effect))
  }

  /** The second half of `equip_weapon`, given the parsed effect of the new
      weapon: the effect goes on, the slot takes the id and one copy leaves
      the list. */
  function WearWeaponStep(r: Record, itemId: string, effect: Result<(string, int)>): (s: Step<string>)
    requires itemId in r.inventory
    ensures effect.Err? ==> s == Step(Err(effect.error), r)
    ensures s.result.Ok? ==> s.after.equippedWeapon == Some(itemId)
  {
    match effect
    case Err(e) => Step(Err(e), r)
    case Ok(e) =>
      var applied := WeaponEffectStep(r, e.0, e.1);
      if applied.result.Err? then Step(Err(applied.result.error), applied.after)
      else
        var worn := applied.after.(equippedWeapon := Some(itemId));
        Step(Ok("Equipped weapon " + itemId + "."), worn.(inventory := RemoveFirst(worn.inventory, itemId)))
  }

  method WearWeapon(c: Character, itemId: string, effect: Result<(string, int)>) returns (o: Result<string>)
    requires itemId in c.inventory
    modifies c
    ensures Step(o, c.Snapshot()) == WearWeaponStep(old(c.Snapshot()), itemId, effect)
  {
    if effect.Err? {
      return Err(effect.error);
    }
    var applied := WeaponEffect(c, effect.value.0, effect.value.1);
    if applied.Err? {
      return Err(applied.error);
    }
    c.equippedWeapon := Some(itemId);
    var removed := RemoveItemFromInventory(c, itemId);
    o := Ok("Equipped weapon " + itemId + ".");
  }

  method EquipWeapon(c: Character, itemId: string, item: Item) returns (o: Result<string>)
    modifies c
    ensures Step(o, c.Snapshot()) == EquipWeaponStep(old(c.Snapshot()), itemId, item)
  {
    if itemId !in c.inventory {
      return Err(ItemNotFound);
    }
    if item.itemType != "weapon" {
      return Err(InvalidItemType);
    }
    if c.equippedWeapon.Some? {
      var added := StripWeapon(c);
      if added.Err? {
        return Err(added.error);
      }
    }
    o := WearWeapon(c, itemId, ParseItemEffect(item.effect));
  }

  /** The first half of `equip_armor` when armor is already worn: its bonus
      leaves max_health, health is clamped, the slot is emptied, the bonus
      reset, and the old armor is added back to the list. */
  function StripArmorStep(r: Record): (s: Step<bool>)
    requires r.equippedArmor.Some?
    ensures s.after.maxHealth == r.maxHealth - r.armorBonus && s.after.equippedArmor.None?
    ensures s.after.health == Min(r.health, s.after.maxHealth) && s.after.armorBonus == 0
    ensures s.result.Ok? <==> |r.inventory| < MaxInventorySize
    ensures s.after.(maxHealth := r.maxHealth, health := r.health, equippedArmor := r.equippedArmor,
                     armorBonus := r.armorBonus, inventory := r.inventory) == r
    ensures s.after.inventory ==
      if s.result.Ok? then r.inventory + [r.equippedArmor.value] else r.inventory
  {
    var m := r.maxHealth - r.armorBonus;
    var stripped := r.(maxHealth := m, health := if r.health > m then m else r.health,
                       equippedArmor := None, armorBonus := 0);
    AddItemStep(stripped, r.equippedArmor.value)
  }

  method StripArmor(c: Character) returns (o: Result<bool>)
    requires c.equippedArmor.Some?
    modifies c
    ensures Step(o, c.Snapshot()) == StripArmorStep(old(c.Snapshot()))
  {
    ghost var r := c.Snapshot();
    var oldArmor := c.equippedArmor.value;
    var m := c.maxHealth - c.armorBonus;
    c.maxHealth, c.health := m, if c.health > m then m else c.health;
    c.equippedArmor, c.armorBonus := None, 0;
    assert c.Snapshot() == r.(maxHealth := m, health := if r.health > m then m else r.health,
                              equippedArmor := None, armorBonus := 0);
    o := AddItemToInventory(c, oldArmor);
  }

  /** The effect of the new armor: a max_health effect raises max_health,
      is kept as the armor's bonus and clamps health; any other goes
      through `apply_stat_effect`. */
  function ArmorEffectStep(r: Record, stat: string, value: int): (s: Step<()>)
    ensures stat == "max_health" ==>
      s == Step(Ok(()), r.(maxHealth := r.maxHealth + value, armorBonus := value,
                           health := Min(r.health, r.maxHealth + value)))
    ensures stat != "max_health" ==> s == ApplyStatEffectStep(r, stat, value)
    ensures s.after.inventory == r.inventory
  {
    KeyOfStats(stat);
    ApplyStatEffectKeeps(r, stat, value);
    if KeyOf(stat) == MaxHealthKey then
      var m := r.maxHealth + value;
      Step(Ok(()), r.(maxHealth := m, armorBonus := value, health := if r.health > m then m else r.health))
    else ApplyStatEffectStep(r, stat, value)
  }

  method ArmorEffect(c: Character, stat: string, value: int) returns (o: Result<()>)
    modifies c
    ensures Step(o, c.Snapshot()) == ArmorEffectStep(old(c.Snapshot()), stat, value)
  {
    KeyOfStats(stat);
    if KeyOf(stat) == MaxHealthKey {
      var m := c.maxHealth + value;
      c.maxHealth, c.armorBonus := m, value;
      c.health := if c.health > m then m else c.health;
      o := Ok(());
    } else {
      o := ApplyStatEffect(c, stat, value);
    }
  }

  /** `equip_armor`, the armor counterpart of `equip_weapon`. */
  function EquipArmorStep(r: Record, itemId: string, item: Item): (s: Step<string>)
    ensures !HasItem(r, itemId) ==> s == Step(Err(ItemNotFound), r)
    ensures HasItem(r, itemId) && item.itemType != "armor" ==> s == Step(Err(InvalidItemType), r)
    ensures s.result.Ok? ==> s.after.equippedArmor == Some(itemId)
  {
    if !HasItem(r, itemId) then Step(Err(ItemNotFound), r)
    else if item.itemType != "armor" then Step(Err(InvalidItemType), r)
    else
      var cleared := if r.equippedArmor.Some? then StripArmorStep(r) else Step(Ok(true), r);
      if cleared.result.Err? then Step(Err(cleared.result.error), cleared.after)
      else WearArmorStep(cleared.after, itemId, ParseItemEffect(item.effect))
  }

  /** The second half of `equip_armor`, given the parsed effect of the new
      armor: the effect goes on, the slot takes the id and one copy leaves
      the list. */
  function WearArmorStep(r: Record, itemId: string, effect: Result<(string, int)>): (s: Step<string>)
    requires itemId in r.inventory
    ensures effect.Err? ==> s == Step(Err(effect.error), r)
    ensures s.result.Ok? ==> s.after.equippedArmor == Some(itemId)
  {
    match effect
    case Err(e) => Step(Err(e), r)
    case Ok(e) =>
      var applied := ArmorEffectStep(r, e.0, e.1);
      if applied.result.Err? then Step(Err(applied.result.error), applied.after)
      else
        var worn := applied.after.(equippedArmor := Some(itemId));
        Step(Ok("Equipped armor " + itemId + "."), worn.(inventory := RemoveFirst(worn.inventory, itemId)))
  }

  method WearArmor(c: Character, itemId: string, effect: Result<(string, int)>) returns (o: Result<string>)
    requires itemId in c.inventory
    modifies c
    ensures Step(o, c.Snapshot()) == WearArmorStep(old(c.Snapshot()), itemId, effect)
  {
    if effect.Err? {
      return Err(effect.error);
    }
    var applied := ArmorEffect(c, effect.value.0, effect.value.1);
    if applied.Err? {
      return Err(applied.error);
    }
    c.equippedArmor := Some(itemId);
    var removed := RemoveItemFromInventory(c, itemId);
    o := Ok("Equipped armor " + itemId + ".");
  }

  method EquipArmor(c: Character, itemId: string, item: Item) returns (o: Result<string>)
    modifies c
    ensures Step(o, c.Snapshot()) == EquipArmorStep(old(c.Snapshot()), itemId, item)
  {
    if itemId !in c.inventory {
      return Err(ItemNotFound);
    }
    if item.itemType != "armor" {
      return Err(InvalidItemType);
    }
    if c.equippedArmor.Some? {
      var added := StripArmor(c);
      if added.Err? {
        return Err(added.error);
      }
    }
    o := WearArmor(c, itemId, ParseItemEffect(item.effect));
  }

  /** `unequip_weapon`: `None` with nothing equipped; InventoryFullError on
      a full list before any change; otherwise the bonus leaves strength
      and the weapon goes back to the end of the list. */
  function UnequipWeaponStep(r: Record): (s: Step<Option<string>>)
    ensures r.equippedWeapon.None? ==> s == Step(Ok(None), r)
    ensures r.equippedWeapon.Some? && |r.inventory| >= MaxInventorySize ==> s == Step(Err(InventoryFull), r)
    ensures r.equippedWeapon.Some? && |r.inventory| < MaxInventorySize ==>
      s == Step(Ok(r.equippedWeapon),
                r.(strength := r.strength - r.weaponBonus, equippedWeapon := None, weaponBonus := 0,
                   inventory := r.inventory + [r.equippedWeapon.value]))
  {
    if r.equippedWeapon.None? then Step(Ok(None), r)
    else if |r.inventory| >= MaxInventorySize then Step(Err(InventoryFull), r)
    else Step(Ok(r.equippedWeapon), StripWeaponStep(r).after)
  }

  method UnequipWeapon(c: Character) returns (o: Result<Option<string>>)
    modifies c
    ensures Step(o, c.Snapshot()) == UnequipWeaponStep(old(c.Snapshot()))
  {
    if c.equippedWeapon.None? {
      return Ok(None);
    }
    if |c.inventory| >= MaxInventorySize {
      return Err(InventoryFull);
    }
    var itemId := c.equippedWeapon.value;
    var added := StripWeapon(c);
    o := Ok(Some(itemId));
  }

  /** `unequip_armor`: like `unequip_weapon`, with the bonus leaving
      max_health and health clamped to the new maximum. */
  function UnequipArmorStep(r: Record): (s: Step<Option<string>>)
    ensures r.equippedArmor.None? ==> s == Step(Ok(None), r)
    ensures r.equippedArmor.Some? && |r.inventory| >= MaxInventorySize ==> s == Step(Err(InventoryFull), r)
    ensures r.equippedArmor.Some? && |r.inventory| < MaxInventorySize ==>
      var m := r.maxHealth - r.armorBonus;
      s == Step(Ok(r.equippedArmor),
                r.(maxHealth := m, health := Min(r.health, m), equippedArmor := None, armorBonus := 0,
                   inventory := r.inventory + [r.equippedArmor.value]))
  {
    if r.equippedArmor.None? then Step(Ok(None), r)
    else if |r.inventory| >= MaxInventorySize then Step(Err(InventoryFull), r)
    else Step(Ok(r.equippedArmor), StripArmorStep(r).after)
  }

  method UnequipArmor(c: Character) returns (o: Result<Option<string>>)
    modifies c
    ensures Step(o, c.Snapshot()) == UnequipArmorStep(old(c.Snapshot()))
  {
    if c.equippedArmor.None? {
      return Ok(None);
    }
    if |c.inventory| >= MaxInventorySize {
      return Err(InventoryFull);
    }
    var itemId := c.equippedArmor.value;
    var added := StripArmor(c);
    o := Ok(Some(itemId));
  }

  /** A strength weapon adds its value to strength, records it as the
      bonus, and moves from the list to the slot. */
  lemma WearStrengthWeapon(r: Record, itemId: string, bonus: int)
    requires itemId in r.inventory
    ensures WearWeaponStep(r, itemId, Ok(("strength", bonus))) ==
      Step(Ok("Equipped weapon " + itemId + "."),
           r.(strength := r.strength + bonus, weaponBonus := bonus, equippedWeapon := Some(itemId),
              inventory := RemoveFirst(r.inventory, itemId)))
  {
  }

  /** Equipping a strength weapon into an empty slot. */
  lemma EquipFreshWeapon(r: Record, itemId: string, item: Item, bonus: int)
    requires r.equippedWeapon.None? && HasItem(r, itemId) && item.itemType == "weapon"
    requires ParseItemEffect(item.effect) == Ok(("strength", bonus))
    ensures var s := EquipWeaponStep(r, itemId, item);
      && s.result.Ok?
      && s.after.strength == r.strength + bonus && s.after.weaponBonus == bonus
      && s.after.equippedWeapon == Some(itemId)
      && s.after.inventory == RemoveFirst(r.inventory, itemId)
  {
    WearStrengthWeapon(r, itemId, bonus);
  }

  /** Equipping a strength weapon over a worn one: the old bonus leaves
      strength, the new one is added and kept, and the old weapon goes back
      to the list before one copy of the new one leaves it. */
  lemma EquipOverWornWeapon(r: Record, itemId: string, item: Item, bonus: int)
    requires r.equippedWeapon.Some? && |r.inventory| < MaxInventorySize
    requires HasItem(r, itemId) && item.itemType == "weapon"
    requires ParseItemEffect(item.effect) == Ok(("strength", bonus))
    ensures var s := EquipWeaponStep(r, itemId, item);
      && s.result.Ok?
      && s.after == r.(strength := r.strength - r.weaponBonus + bonus, weaponBonus := bonus,
                       equippedWeapon := Some(itemId),
                       inventory := RemoveFirst(r.inventory + [r.equippedWeapon.value], itemId))
  {
    var cleared := r.(strength := r.strength - r.weaponBonus, equippedWeapon := None, weaponBonus := 0,
                      inventory := r.inventory + [r.equippedWeapon.value]);
    StripWornWeapon(r);
    assert EquipWeaponStep(r, itemId, item) == WearWeaponStep(cleared, itemId, Ok(("strength", bonus)));
    WearStrengthWeapon(cleared, itemId, bonus);
  }

  /** Taking off a worn weapon when the list has room. */
  lemma StripWornWeapon(r: Record)
    requires r.equippedWeapon.Some? && |r.inventory| < MaxInventorySize
    ensures StripWeaponStep(r) ==
      Step(Ok(true), r.(strength := r.strength - r.weaponBonus, equippedWeapon := None, weaponBonus := 0,
                        inventory := r.inventory + [r.equippedWeapon.value]))
  {
  }

  /** Equipping a strength weapon into an empty slot and taking it off
      again gives back strength and the empty slot; the weapon ends at the
      end of the list. */
  lemma EquipThenUnequipWeapon(r: Record, itemId: string, item: Item, bonus: int)
    requires WithinCapacity(r) && r.equippedWeapon.None? && r.weaponBonus == 0
    requires HasItem(r, itemId) && item.itemType == "weapon"
    requires ParseItemEffect(item.effect) == Ok(("strength", bonus))
    ensures EquipWeaponStep(r, itemId, item).result.Ok?
    ensures EquipWeaponStep(r, itemId, item).after.strength == r.strength + bonus
    ensures var u := UnequipWeaponStep(EquipWeaponStep(r, itemId, item).after);
      && u.result == Ok(Some(itemId))
      && u.after.strength == r.strength
      && u.after.inventory == RemoveFirst(r.inventory, itemId) + [itemId]
      && u.after.equippedWeapon.None? && u.after.weaponBonus == 0
  {
    EquipFreshWeapon(r, itemId, item, bonus);
    var e := EquipWeaponStep(r, itemId, item).after;
    assert |e.inventory| < MaxInventorySize;
  }

  /** Max_health armor raises max_health by its value, records it as the
      bonus, keeps health within the maximum, and moves from the list to
      the slot. */
  lemma WearMaxHealthArmor(r: Record, itemId: string, bonus: int)
    requires itemId in r.inventory
    ensures WearArmorStep(r, itemId, Ok(("max_health", bonus))) ==
      Step(Ok("Equipped armor " + itemId + "."),
           r.(maxHealth := r.maxHealth + bonus, armorBonus := bonus, health := Min(r.health, r.maxHealth + bonus),
              equippedArmor := Some(itemId), inventory := RemoveFirst(r.inventory, itemId)))
  {
  }

  /** Equipping a max-health armor into an empty slot. */
  lemma EquipFreshArmor(r: Record, itemId: string, item: Item, bonus: int)
    requires r.equippedArmor.None? && HasItem(r, itemId) && item.itemType == "armor"
    requires ParseItemEffect(item.effect) == Ok(("max_health", bonus))
    ensures var s := EquipArmorStep(r, itemId, item);
      && s.result.Ok?
      && s.after.maxHealth == r.maxHealth + bonus && s.after.armorBonus == bonus
      && s.after.health == Min(r.health, r.maxHealth + bonus)
      && s.after.equippedArmor == Some(itemId)
      && s.after.inventory == RemoveFirst(r.inventory, itemId)
  {
    WearMaxHealthArmor(r, itemId, bonus);
  }

  /** Equipping max_health armor over worn armor: the old bonus leaves
      max_health and health is capped at what is left, then the new bonus
      is added, kept, and caps health again; the old armor goes back to the
      list before one copy of the new one leaves it. */
  lemma EquipOverWornArmor(r: Record, itemId: string, item: Item, bonus: int)
    requires r.equippedArmor.Some? && |r.inventory| < MaxInventorySize
    requires HasItem(r, itemId) && item.itemType == "armor"
    requires ParseItemEffect(item.effect) == Ok(("max_health", bonus))
    ensures var s := EquipArmorStep(r, itemId, item);
      var m := r.maxHealth - r.armorBonus;
      && s.result.Ok?
      && s.after == r.(maxHealth := m + bonus, health := Min(Min(r.health, m), m + bonus),
                       armorBonus := bonus, equippedArmor := Some(itemId),
                       inventory := RemoveFirst(r.inventory + [r.equippedArmor.value], itemId))
  {
    StripWornArmor(r);
    EquipArmorOverWorn(r, itemId, item);
    WearOnStripped(r, StripArmorStep(r).after, itemId, bonus);
  }

  /** Wearing max_health armor on the character its old armor was just
      taken off. */
  lemma WearOnStripped(r: Record, cleared: Record, itemId: string, bonus: int)
    requires r.equippedArmor.Some?
    requires var m := r.maxHealth - r.armorBonus;
      cleared == r.(maxHealth := m, health := Min(r.health, m), equippedArmor := None, armorBonus := 0,
                    inventory := r.inventory + [r.equippedArmor.value])
    requires itemId in r.inventory
    ensures var s := WearArmorStep(cleared, itemId, Ok(("max_health", bonus)));
      var m := r.maxHealth - r.armorBonus;
      && s.result.Ok?
      && s.after == r.(maxHealth := m + bonus, health := Min(Min(r.health, m), m + bonus),
                       armorBonus := bonus, equippedArmor := Some(itemId),
                       inventory := RemoveFirst(r.inventory + [r.equippedArmor.value], itemId))
  {
    WearMaxHealthArmor(cleared, itemId, bonus);
  }

  /** With the old armor taken off successfully, `equip_armor` goes on to
      wear the new one on the stripped character. */
  lemma EquipArmorOverWorn(r: Record, itemId: string, item: Item)
    requires r.equippedArmor.Some? && HasItem(r, itemId) && item.itemType == "armor"
    requires StripArmorStep(r).result.Ok?
    ensures EquipArmorStep(r, itemId, item) == WearArmorStep(StripArmorStep(r).after, itemId, ParseItemEffect(item.effect))
  {
  }

  /** Taking off worn armor when the list has room. */
  lemma StripWornArmor(r: Record)
    requires r.equippedArmor.Some? && |r.inventory| < MaxInventorySize
    ensures var m := r.maxHealth - r.armorBonus;
      StripArmorStep(r) ==
      Step(Ok(true), r.(maxHealth := m, health := Min(r.health, m), equippedArmor := None, armorBonus := 0,
                        inventory := r.inventory + [r.equippedArmor.value]))
  {
  }

  /** Putting max_health armor into an empty slot and taking it off again
      gives back max_health, with health never above it. */
  lemma EquipThenUnequipArmor(r: Record, itemId: string, item: Item, bonus: int)
    requires WithinCapacity(r) && r.equippedArmor.None? && r.armorBonus == 0
    requires HasItem(r, itemId) && item.itemType == "armor"
    requires ParseItemEffect(item.effect) == Ok(("max_health", bonus))
    ensures EquipArmorStep(r, itemId, item).result.Ok?
    ensures EquipArmorStep(r, itemId, item).after.maxHealth == r.maxHealth + bonus
    ensures var u := UnequipArmorStep(EquipArmorStep(r, itemId, item).after);
      && u.result == Ok(Some(itemId))
      && u.after.maxHealth == r.maxHealth && u.after.health <= r.maxHealth
      && u.after.inventory == RemoveFirst(r.inventory, itemId) + [itemId]
      && u.after.equippedArmor.None? && u.after.armorBonus == 0
  {
    EquipFreshArmor(r, itemId, item, bonus);
    var e := EquipArmorStep(r, itemId, item).after;
    assert |e.inventory| < MaxInventorySize;
    UnequipWornArmor(e);
  }

  /** Taking off a worn armor when the bag has room. */
  lemma UnequipWornArmor(e: Record)
    requires e.equippedArmor.Some? && |e.inventory| < MaxInventorySize
    ensures var u := UnequipArmorStep(e);
      && u.result == Ok(e.equippedArmor)
      && u.after.maxHealth == e.maxHealth - e.armorBonus
      && u.after.health == Min(e.health, e.maxHealth - e.armorBonus)
      && u.after.inventory == e.inventory + [e.equippedArmor.value]
      && u.after.equippedArmor.None? && u.after.armorBonus == 0
  {
  }

  /** With a weapon in the slot and twenty items in the list, equipping
      another raises InventoryFullError after the old weapon has left the
      slot and its bonus has left strength: that weapon is then neither
      equipped nor in the list. */
  lemma EquipWeaponFullDropsOldWeapon(r: Record, itemId: string, item: Item)
    requires HasItem(r, itemId) && item.itemType == "weapon"
    requires r.equippedWeapon.Some? && |r.inventory| == MaxInventorySize
    ensures var s := EquipWeaponStep(r, itemId, item);
      && s.result == Err(InventoryFull)
      && s.after == r.(strength := r.strength - r.weaponBonus, equippedWeapon := None, weaponBonus := 0)
  {
  }

  // ---------------------------------------------------------------------
  // Shop
  // ---------------------------------------------------------------------

  /** `purchase_item`: InsufficientResourcesError when gold is below the
      cost, checked first; then InventoryFullError on a full list; both
      before any change. Otherwise gold drops by the cost and the id is
      appended. */
  function PurchaseItemStep(r: Record, itemId: string, item: Item): (s: Step<bool>)
    ensures r.gold < item.cost ==> s == Step(Err(InsufficientResources), r)
    ensures r.gold >= item.cost && |r.inventory| >= MaxInventorySize ==> s == Step(Err(InventoryFull), r)
    ensures s.result.Ok? <==> r.gold >= item.cost && |r.inventory| < MaxInventorySize
    ensures s.result.Ok? ==>
      s.after == r.(gold := r.gold - item.cost, inventory := r.inventory + [itemId])
  {
    if r.gold < item.cost then Step(Err(InsufficientResources), r)
    else if |r.inventory| >= MaxInventorySize then Step(Err(InventoryFull), r)
    else AddItemStep(r.(gold := r.gold - item.cost), itemId)
  }

  method PurchaseItem(c: Character, itemId: string, item: Item) returns (o: Result<bool>)
    modifies c
    ensures Step(o, c.Snapshot()) == PurchaseItemStep(old(c.Snapshot()), itemId, item)
  {
    if c.gold < item.cost {
      return Err(InsufficientResources);
    }
    if |c.inventory| >= MaxInventorySize {
      return Err(InventoryFull);
    }
    c.gold := c.gold - item.cost;
    o := AddItemToInventory(c, itemId);
  }

  /** `sell_item`: ItemNotFoundError when the id is absent; otherwise one
      copy leaves the list and half the cost, rounded down, is paid. */
  function SellItemStep(r: Record, itemId: string, item: Item): (s: Step<int>)
    ensures !HasItem(r, itemId) ==> s == Step(Err(ItemNotFound), r)
    ensures HasItem(r, itemId) ==>
      && s.result.Ok? && 2 * s.result.value <= item.cost < 2 * s.result.value + 2
      && s.after == r.(gold := r.gold + s.result.value, inventory := RemoveFirst(r.inventory, itemId))
  {
    if !HasItem(r, itemId) then Step(Err(ItemNotFound), r)
    else
      var price := item.cost / 2;
      var removed := RemoveItemStep(r, itemId);
      Step(Ok(price), removed.after.(gold := removed.after.gold + price))
  }

  /** Buying an item the list did not hold and selling it back leaves the
      list as it was and costs the buyer half the price, rounded up. */
  lemma BuyThenSell(r: Record, itemId: string, item: Item)
    requires itemId !in r.inventory && item.cost >= 0
    requires PurchaseItemStep(r, itemId, item).result.Ok?
    ensures var sold := SellItemStep(PurchaseItemStep(r, itemId, item).after, itemId, item);
      && sold.result == Ok(item.cost / 2)
      && sold.after == r.(gold := r.gold - (item.cost - item.cost / 2))
  {
    RemoveAppended(r.inventory, itemId);
  }

  method SellItem(c: Character, itemId: string, item: Item) returns (o: Result<int>)
    modifies c
    ensures Step(o, c.Snapshot()) == SellItemStep(old(c.Snapshot()), itemId, item)
  {
    if itemId !in c.inventory {
      return Err(ItemNotFound);
    }
    var price := item.cost / 2;
    var removed := RemoveItemFromInventory(c, itemId);
    c.gold := c.gold + price;
    o := Ok(price);
  }
}
