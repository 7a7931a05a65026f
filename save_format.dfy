/** The save-file text of `save_character` and `load_character`, with the
    file operations taken off: `Serialise` is the text written, `Parse` is
    what loading makes of a text. A save file holds twelve `KEY: value`
    lines; lists are written joined by commas. */
module SaveFormat {
  import opened Wrappers
  import opened Text
  import opened CharacterManager

  /** The keys in the order `save_character` writes them. */
  const KeyName := "NAME"
  const KeyClass := "CLASS"
  const KeyLevel := "LEVEL"
  const KeyHealth := "HEALTH"
  const KeyMaxHealth := "MAX_HEALTH"
  const KeyStrength := "STRENGTH"
  const KeyMagic := "MAGIC"
  const KeyExperience := "EXPERIENCE"
  const KeyGold := "GOLD"
  const KeyInventory := "INVENTORY"
  const KeyActiveQuests := "ACTIVE_QUESTS"
  const KeyCompletedQuests := "COMPLETED_QUESTS"

  const SaveKeys: seq<string> :=
    [KeyName, KeyClass, KeyLevel, KeyHealth, KeyMaxHealth, KeyStrength, KeyMagic,
     KeyExperience, KeyGold, KeyInventory, KeyActiveQuests, KeyCompletedQuests]

  /** Characters a text-mode `readlines` ends a line at (`\r\n` and `\r`
      are read as line ends too). */
  const LineBreaks: set<char> := {'\n', '\r'}

  /** The value written after each key, in `SaveKeys` order. */
  function FieldValues(r: Record): (vs: seq<string>)
    ensures |vs| == |SaveKeys|
  {
    [r.name, r.charClass, IntToString(r.level), IntToString(r.health),
     IntToString(r.maxHealth), IntToString(r.strength), IntToString(r.magic),
     IntToString(r.experience), IntToString(r.gold), Join(r.inventory, ','),
     Join(r.activeQuests, ','), Join(r.completedQuests, ',')]
  }

  function Line(key: string, value: string): string {
    key + ": " + value
  }

  /** One `KEY: value\n` line per pair. */
  function Render(keys: seq<string>, values: seq<string>): string
    requires |keys| == |values|
  {
    if keys == [] then "" else Line(keys[0], values[0]) + "\n" + Render(keys[1..], values[1..])
  }

  /** The text `save_character` writes for a character. */
  function Serialise(r: Record): string {
    Render(SaveKeys, FieldValues(r))
  }

  // ---------------------------------------------------------------------
  // Loading
  // ---------------------------------------------------------------------

  /** The stripped, non-blank lines of a save text. */
  function SaveLines(text: string): seq<string> {
    NonBlank(SplitOn(text, LineBreaks))
  }

  /** The `data` dictionary loop: every line must hold a `:`, else
      InvalidSaveDataError; the text before the first `:` is stripped and
      upper-cased into the key, the rest is stripped into the value, and a
      repeated key keeps its last value. */
  function Collect(lines: seq<string>, data: map<string, string>): Result<map<string, string>> {
    if lines == [] then Ok(data)
    else match SplitOnce(lines[0], ":")
      case None => Err(InvalidSaveData)
      case Some(parts) => Collect(lines[1..], data[Upper(Strip(parts.0)) := Strip(parts.1)])
  }

  /** `int(data[key])`: a missing key (KeyError) or a malformed number
      (ValueError) both become InvalidSaveDataError. */
  function IntField(data: map<string, string>, key: string): Result<int> {
    if key !in data then Err(InvalidSaveData)
    else match ParseInt(data[key])
      case None => Err(InvalidSaveData)
      case Some(n) => Ok(n)
  }

  /** `data[key].split(",") if data.get(key) else []`: a missing or empty
      value is the empty list. */
  function ListField(data: map<string, string>, key: string): seq<string> {
    if key in data && data[key] != "" then SplitOn(data[key], {','}) else []
  }

  /** The seven numeric keys, in the order the character is built. */
  const NumericKeys: seq<string> := SaveKeys[2..9]

  /** `int(data[key])` for each key in turn; the first failure is raised. */
  function IntFields(data: map<string, string>, keys: seq<string>): (r: Result<seq<int>>)
    ensures r.Ok? ==> |r.value| == |keys|
    ensures r.Err? ==> r.error == InvalidSaveData
  {
    if keys == [] then Ok([])
    else match IntField(data, keys[0])
      case Err(e) => Err(e)
      case Ok(n) =>
        match IntFields(data, keys[1..])
        case Err(e) => Err(e)
        case Ok(ns) => Ok([n] + ns)
  }

  /** The character dictionary built from `data`. The keys the inventory
      code adds are not in a save file, so they start out absent. */
  function Build(data: map<string, string>): (r: Result<Record>)
    ensures r.Err? ==> r.error == InvalidSaveData
  {
    if KeyName !in data || KeyClass !in data then Err(InvalidSaveData)
    else match IntFields(data, NumericKeys)
      case Err(e) => Err(e)
      case Ok(n) =>
        Ok(Record(data[KeyName], data[KeyClass], n[0], n[1], n[2], n[3], n[4], n[5], n[6],
                  ListField(data, KeyInventory), ListField(data, KeyActiveQuests),
                  ListField(data, KeyCompletedQuests), None, 0, None, 0, map[]))
  }

  /** The dictionary `validate_character_data` is handed after loading. */
  function LoadedBag(r: Record): map<string, Value> {
    map["name" := StrValue(r.name), "class" := StrValue(r.charClass),
        "level" := IntValue(r.level), "health" := IntValue(r.health),
        "max_health" := IntValue(r.maxHealth), "strength" := IntValue(r.strength),
        "magic" := IntValue(r.magic), "experience" := IntValue(r.experience),
        "gold" := IntValue(r.gold), "inventory" := ListValue(r.inventory),
        "active_quests" := ListValue(r.activeQuests),
        "completed_quests" := ListValue(r.completedQuests)]
  }

  /** Building and validating the character once `data` is filled. */
  function FromData(collected: Result<map<string, string>>): Result<Record> {
    match collected
    case Err(e) => Err(e)
    case Ok(data) =>
      match Build(data)
      case Err(e) => Err(e)
      case Ok(r) => if IsValidCharacterData(LoadedBag(r)) then Ok(r) else Err(InvalidSaveData)
  }

  /** `load_character` on the text of an existing save file. */
  function Parse(text: string): (r: Result<Record>)
    ensures r.Err? ==> r.error == InvalidSaveData
  {
    CollectErrors(SaveLines(text), map[]);
    FromDataErrors(Collect(SaveLines(text), map[]));
    FromData(Collect(SaveLines(text), map[]))
  }

  /** The final validation of a load never fails: the dictionary it is
      given always has every field with the right type. */
  lemma LoadedBagIsValid(r: Record)
    ensures IsValidCharacterData(LoadedBag(r))
  {
    var bag := LoadedBag(r);
    forall j | 0 <= j < |RequiredFields|
      ensures RequiredFields[j] in bag
    {
    }
  }

  lemma FromDataErrors(collected: Result<map<string, string>>)
    requires collected.Err? ==> collected.error == InvalidSaveData
    ensures FromData(collected).Err? ==> FromData(collected).error == InvalidSaveData
  {
  }

  lemma {:induction false} CollectErrors(lines: seq<string>, data: map<string, string>)
    ensures Collect(lines, data).Err? ==> Collect(lines, data).error == InvalidSaveData
  {
    if lines != [] {
      match SplitOnce(lines[0], ":")
      case None =>
      case Some(parts) => CollectErrors(lines[1..], data[Upper(Strip(parts.0)) := Strip(parts.1)]);
    }
  }

  /** A line without a `:` makes the whole load fail. */
  lemma {:induction false} CollectRejectsLineWithoutColon(lines: seq<string>, data: map<string, string>, i: nat)
    requires i < |lines| && !Contains(lines[i], ":")
    ensures Collect(lines, data) == Err(InvalidSaveData)
    decreases i
  {
    if i == 0 {
      assert SplitOnce(lines[0], ":").None?;
    } else {
      assert lines[1..][i - 1] == lines[i];
      match SplitOnce(lines[0], ":")
      case None =>
      case Some(parts) =>
        var next := data[Upper(Strip(parts.0)) := Strip(parts.1)];
        assert Collect(lines, data) == Collect(lines[1..], next);
        CollectRejectsLineWithoutColon(lines[1..], next, i - 1);
    }
  }

  // ---------------------------------------------------------------------
  // The round trip
  // ---------------------------------------------------------------------

  predicate HasLineBreak(s: string) {
    !NoneOf(s, LineBreaks)
  }

  /** A key that survives the load unchanged. */
  predicate KeyShape(k: string) {
    k != [] && forall i :: 0 <= i < |k| ==> 'A' <= k[i] <= 'Z' || k[i] == '_'
  }

  /** A value that survives the load unchanged. */
  predicate ValueShape(v: string) {
    IsStripped(v) && NoneOf(v, LineBreaks)
  }

  /** A list that survives being joined and split again. */
  predicate ListShape(xs: seq<string>) {
    forall k :: 0 <= k < |xs| ==> xs[k] != [] && IsStripped(xs[k]) && NoneOf(xs[k], LineBreaks + {','})
  }

  /** What `Parse(Serialise(r))` gives back: every saved field, with the
      equipment slots, bonuses and other added keys absent again. */
  function Reloaded(r: Record): Record {
    r.(equippedWeapon := None, weaponBonus := 0, equippedArmor := None, armorBonus := 0, extras := map[])
  }

  /** The twelve pairs written into the `data` dictionary in order. */
  function Assign(data: map<string, string>, keys: seq<string>, values: seq<string>): map<string, string>
    requires |keys| == |values|
    decreases |keys|
  {
    if keys == [] then data else Assign(data[keys[0] := values[0]], keys[1..], values[1..])
  }

  /** The lines of a rendered text, before stripping. */
  function Lines(keys: seq<string>, values: seq<string>): seq<string>
    requires |keys| == |values|
  {
    if keys == [] then [] else [Line(keys[0], values[0])] + Lines(keys[1..], values[1..])
  }

  lemma {:induction false} RenderSplits(keys: seq<string>, values: seq<string>)
    requires |keys| == |values|
    requires forall i :: 0 <= i < |keys| ==> NoneOf(Line(keys[i], values[i]), LineBreaks)
    ensures SplitOn(Render(keys, values), LineBreaks) == Lines(keys, values) + [""]
  {
    if keys != [] {
      RenderSplits(keys[1..], values[1..]);
      SplitAtFirst(Line(keys[0], values[0]), '\n', Render(keys[1..], values[1..]), LineBreaks);
      assert Render(keys, values) == Line(keys[0], values[0]) + ['\n'] + Render(keys[1..], values[1..]);
    }
  }

  /** A rendered line is its own strip, except that an empty value loses
      the blank after the colon. */
  lemma StripLine(k: string, v: string)
    requires KeyShape(k) && ValueShape(v)
    ensures v != [] ==> Strip(Line(k, v)) == Line(k, v)
    ensures v == [] ==> Strip(Line(k, v)) == k + ":"
  {
    if v != [] {
      assert Line(k, v) == "" + Line(k, v) + "";
      assert Line(k, v)[0] == k[0];
      assert Line(k, v)[|Line(k, v)| - 1] == v[|v| - 1];
      StripPadded("", Line(k, v), "");
    } else {
      assert Line(k, v) == "" + (k + ":") + " ";
      assert (k + ":")[0] == k[0];
      StripPadded("", k + ":", " ");
    }
  }

  lemma KeyLoads(k: string)
    requires KeyShape(k)
    ensures Upper(Strip(k)) == k
  {
    StripOfStripped(k);
    assert Upper(k) == k;
  }

  lemma SplitLine(k: string, v: string)
    requires KeyShape(k) && ValueShape(v)
    ensures SplitOnce(Strip(Line(k, v)), ":") == Some((k, if v == [] then "" else " " + v))
  {
    StripLine(k, v);
    assert forall i :: 0 <= i < |k| ==> k[i] != ':';
    if v != [] {
      assert Line(k, v) == k + ":" + (" " + v);
      SplitOnceColon(k, " " + v);
    } else {
      assert k + ":" == k + ":" + "";
      SplitOnceColon(k, "");
    }
  }

  /** One rendered line, loaded, sets `data[k]` to `v`. */
  lemma LoadLine(k: string, v: string)
    requires KeyShape(k) && ValueShape(v)
    ensures Strip(Line(k, v)) != []
    ensures SplitOnce(Strip(Line(k, v)), ":").Some?
    ensures var parts := SplitOnce(Strip(Line(k, v)), ":").value;
      Upper(Strip(parts.0)) == k && Strip(parts.1) == v
  {
    StripLine(k, v);
    SplitLine(k, v);
    KeyLoads(k);
    if v != [] {
      StripBlankThen(v);
    }
  }

  /** Loading one rendered line, then the rest. */
  lemma LoadStep(k: string, v: string, rest: seq<string>, data: map<string, string>)
    requires KeyShape(k) && ValueShape(v)
    ensures NonBlank([Line(k, v)] + rest) == [Strip(Line(k, v))] + NonBlank(rest)
    ensures Collect([Strip(Line(k, v))] + NonBlank(rest), data) == Collect(NonBlank(rest), data[k := v])
  {
    LoadLine(k, v);
    assert ([Line(k, v)] + rest)[1..] == rest;
    assert ([Strip(Line(k, v))] + NonBlank(rest))[1..] == NonBlank(rest);
  }

  lemma {:induction false} LoadRendered(keys: seq<string>, values: seq<string>, data: map<string, string>)
    requires |keys| == |values|
    requires forall i :: 0 <= i < |keys| ==> KeyShape(keys[i]) && ValueShape(values[i])
    ensures Collect(NonBlank(Lines(keys, values) + [""]), data) == Ok(Assign(data, keys, values))
  {
    if keys == [] {
      assert Lines(keys, values) + [""] == [""];
    } else {
      LoadRendered(keys[1..], values[1..], data[keys[0] := values[0]]);
      LoadRenderedFirst(keys, values, data);
    }
  }

  /** Loading the first rendered line, given that the rest loads. */
  lemma LoadRenderedFirst(keys: seq<string>, values: seq<string>, data: map<string, string>)
    requires |keys| == |values| && keys != [] && KeyShape(keys[0]) && ValueShape(values[0])
    requires Collect(NonBlank(Lines(keys[1..], values[1..]) + [""]), data[keys[0] := values[0]])
             == Ok(Assign(data[keys[0] := values[0]], keys[1..], values[1..]))
    ensures Collect(NonBlank(Lines(keys, values) + [""]), data) == Ok(Assign(data, keys, values))
  {
    var rest := Lines(keys[1..], values[1..]) + [""];
    assert Lines(keys, values) + [""] == [Line(keys[0], values[0])] + rest;
    LoadStep(keys[0], values[0], rest, data);
  }

  /** With distinct keys, each key ends up holding its own value. */
  lemma {:induction false} AssignLookup(data: map<string, string>, keys: seq<string>, values: seq<string>, i: nat)
    requires |keys| == |values| && i < |keys|
    requires forall a, b :: 0 <= a < b < |keys| ==> keys[a] != keys[b]
    ensures keys[i] in Assign(data, keys, values)
    ensures Assign(data, keys, values)[keys[i]] == values[i]
    decreases |keys|
  {
    if i > 0 {
      AssignLookup(data[keys[0] := values[0]], keys[1..], values[1..], i - 1);
    } else {
      AssignKeeps(data[keys[0] := values[0]], keys[1..], values[1..], keys[0]);
    }
  }

  lemma {:induction false} AssignKeeps(data: map<string, string>, keys: seq<string>, values: seq<string>, k: string)
    requires |keys| == |values| && k in data && k !in keys
    ensures k in Assign(data, keys, values) && Assign(data, keys, values)[k] == data[k]
    decreases |keys|
  {
    if keys != [] {
      AssignKeeps(data[keys[0] := values[0]], keys[1..], values[1..], k);
    }
  }

  lemma SaveKeysShape()
    ensures forall i :: 0 <= i < |SaveKeys| ==> KeyShape(SaveKeys[i])
    ensures forall a, b :: 0 <= a < b < |SaveKeys| ==> SaveKeys[a] != SaveKeys[b]
  {
  }

  lemma IntValueShape(n: int)
    ensures ValueShape(IntToString(n))
  {
    IntToStringStripped(n);
  }

  lemma ListValueShape(xs: seq<string>)
    requires ListShape(xs)
    ensures ValueShape(Join(xs, ','))
    ensures xs == [] <==> Join(xs, ',') == ""
    ensures xs != [] ==> SplitOn(Join(xs, ','), {','}) == xs
  {
    var j := Join(xs, ',');
    assert forall k :: 0 <= k < |xs| ==> NoneOf(xs[k], LineBreaks);
    JoinChars(xs, ',', LineBreaks);
    if xs != [] {
      JoinEnds(xs, ',');
      assert forall k :: 0 <= k < |xs| ==> NoneOf(xs[k], {','});
      SplitJoin(xs, ',', {','});
    }
  }

  lemma LineHasNoBreak(k: string, v: string)
    requires KeyShape(k) && ValueShape(v)
    ensures NoneOf(Line(k, v), LineBreaks)
  {
    var l := Line(k, v);
    forall p | 0 <= p < |l|
      ensures l[p] !in LineBreaks
    {
      if p >= |k| + 2 {
        assert l[p] == v[p - |k| - 2];
      }
    }
  }

  /** Every value written is one that loads back unchanged. */
  lemma FieldValuesShape(r: Record)
    requires ValueShape(r.name) && ValueShape(r.charClass)
    requires ListShape(r.inventory) && ListShape(r.activeQuests) && ListShape(r.completedQuests)
    ensures forall i :: 0 <= i < |SaveKeys| ==> KeyShape(SaveKeys[i]) && ValueShape(FieldValues(r)[i])
  {
    SaveKeysShape();
    IntValueShape(r.level);
    IntValueShape(r.health);
    IntValueShape(r.maxHealth);
    IntValueShape(r.strength);
    IntValueShape(r.magic);
    IntValueShape(r.experience);
    IntValueShape(r.gold);
    ListValueShape(r.inventory);
    ListValueShape(r.activeQuests);
    ListValueShape(r.completedQuests);
  }

  /** Loading the saved lines fills `data` with each key's written value. */
  lemma SavedData(r: Record)
    requires forall i :: 0 <= i < |SaveKeys| ==> KeyShape(SaveKeys[i]) && ValueShape(FieldValues(r)[i])
    ensures Collect(SaveLines(Serialise(r)), map[]).Ok?
    ensures HoldsSaved(r, Collect(SaveLines(Serialise(r)), map[]).value)
  {
    var vs := FieldValues(r);
    forall i | 0 <= i < |SaveKeys|
      ensures NoneOf(Line(SaveKeys[i], vs[i]), LineBreaks)
    {
      LineHasNoBreak(SaveKeys[i], vs[i]);
    }
    RenderSplits(SaveKeys, vs);
    LoadRendered(SaveKeys, vs, map[]);
    SaveKeysShape();
    forall i | 0 <= i < |SaveKeys|
      ensures SaveKeys[i] in Assign(map[], SaveKeys, vs) && Assign(map[], SaveKeys, vs)[SaveKeys[i]] == vs[i]
    {
      AssignLookup(map[], SaveKeys, vs, i);
    }
  }

  lemma IntFieldSaved(data: map<string, string>, key: string, n: int)
    requires key in data && data[key] == IntToString(n)
    ensures IntField(data, key) == Ok(n)
  {
    ParseIntToString(n);
  }

  lemma ListFieldSaved(data: map<string, string>, key: string, xs: seq<string>)
    requires ListShape(xs) && key in data && data[key] == Join(xs, ',')
    ensures ListField(data, key) == xs
  {
    ListValueShape(xs);
  }

  predicate HoldsSaved(r: Record, data: map<string, string>) {
    forall i :: 0 <= i < |SaveKeys| ==> SaveKeys[i] in data && data[SaveKeys[i]] == FieldValues(r)[i]
  }

  /** The numbers a character saves, in `NumericKeys` order. */
  function Numbers(r: Record): seq<int> {
    [r.level, r.health, r.maxHealth, r.strength, r.magic, r.experience, r.gold]
  }

  lemma {:induction false} IntFieldsSaved(data: map<string, string>, keys: seq<string>, ns: seq<int>)
    requires |keys| == |ns|
    requires forall i :: 0 <= i < |keys| ==> keys[i] in data && data[keys[i]] == IntToString(ns[i])
    ensures IntFields(data, keys) == Ok(ns)
  {
    if keys != [] {
      IntFieldSaved(data, keys[0], ns[0]);
      IntFieldsSaved(data, keys[1..], ns[1..]);
      assert [ns[0]] + ns[1..] == ns;
    }
  }

  /** The numbers `Build` reads from a dictionary holding the written values. */
  lemma SavedInts(r: Record, data: map<string, string>)
    requires HoldsSaved(r, data)
    ensures IntFields(data, NumericKeys) == Ok(Numbers(r))
  {
    var vs := FieldValues(r);
    forall i | 0 <= i < |NumericKeys|
      ensures NumericKeys[i] in data && data[NumericKeys[i]] == IntToString(Numbers(r)[i])
    {
      assert NumericKeys[i] == SaveKeys[i + 2];
    }
    IntFieldsSaved(data, NumericKeys, Numbers(r));
  }

  /** The lists `Build` reads from a dictionary holding the written values. */
  lemma SavedLists(r: Record, data: map<string, string>)
    requires ListShape(r.inventory) && ListShape(r.activeQuests) && ListShape(r.completedQuests)
    requires HoldsSaved(r, data)
    ensures ListField(data, KeyInventory) == r.inventory
    ensures ListField(data, KeyActiveQuests) == r.activeQuests
    ensures ListField(data, KeyCompletedQuests) == r.completedQuests
  {
    var vs := FieldValues(r);
    assert data[SaveKeys[9]] == vs[9];
    ListFieldSaved(data, SaveKeys[9], r.inventory);
    assert data[SaveKeys[10]] == vs[10];
    ListFieldSaved(data, SaveKeys[10], r.activeQuests);
    assert data[SaveKeys[11]] == vs[11];
    ListFieldSaved(data, SaveKeys[11], r.completedQuests);
  }

  /** A dictionary holding the written values builds the saved character. */
  lemma BuildSaved(r: Record, data: map<string, string>)
    requires ListShape(r.inventory) && ListShape(r.activeQuests) && ListShape(r.completedQuests)
    requires HoldsSaved(r, data)
    ensures Build(data) == Ok(Reloaded(r))
  {
    assert KeyName in data && data[KeyName] == r.name by {
      assert SaveKeys[0] == KeyName && FieldValues(r)[0] == r.name;
    }
    assert KeyClass in data && data[KeyClass] == r.charClass by {
      assert SaveKeys[1] == KeyClass && FieldValues(r)[1] == r.charClass;
    }
    SavedInts(r, data);
    SavedLists(r, data);
    BuildFrom(data, r);
  }

  /** `Build` on a dictionary whose name, class, numbers and lists are those of `r`. */
  lemma BuildFrom(data: map<string, string>, r: Record)
    requires KeyName in data && data[KeyName] == r.name
    requires KeyClass in data && data[KeyClass] == r.charClass
    requires IntFields(data, NumericKeys) == Ok(Numbers(r))
    requires ListField(data, KeyInventory) == r.inventory
    requires ListField(data, KeyActiveQuests) == r.activeQuests
    requires ListField(data, KeyCompletedQuests) == r.completedQuests
    ensures Build(data) == Ok(Reloaded(r))
  {
  }

  /** Loading the text of a save gives the saved character back, provided
      the name and class have no surrounding blanks or line breaks and no
      list element is empty, padded, or holds a comma or a line break. */
  lemma SerialiseParse(r: Record)
    requires ValueShape(r.name) && ValueShape(r.charClass)
    requires ListShape(r.inventory) && ListShape(r.activeQuests) && ListShape(r.completedQuests)
    ensures Parse(Serialise(r)) == Ok(Reloaded(r))
  {
    FieldValuesShape(r);
    SavedData(r);
    BuildSaved(r, Collect(SaveLines(Serialise(r)), map[]).value);
    LoadedBagIsValid(Reloaded(r));
  }
}
