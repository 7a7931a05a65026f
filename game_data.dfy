/** The content files: quests and items written as blocks of `KEY: value`
    lines separated by blank lines. A block becomes a field dictionary,
    is validated, and is filed under its id; a later block with the same
    id replaces an earlier one. The lines of a file are the input here;
    opening and reading the file is not part of this model. */
module GameData {
  import opened Wrappers
  import opened Text
  import opened Dicts
  import opened Lists

  // ---------------------------------------------------------------------
  // Blank-line block splitting
  // ---------------------------------------------------------------------

  /** The loop of `load_quests`/`load_items`: each line is stripped; a
      blank line closes the current block if it has any lines, any other
      line joins it; after the last line a non-empty block is closed too. */
  function BlocksFrom(lines: seq<string>, current: seq<string>): seq<seq<string>> {
    if lines == [] then (if current == [] then [] else [current])
    else
      var stripped := Strip(lines[0]);
      if stripped == [] then
        (if current == [] then [] else [current]) + BlocksFrom(lines[1..], [])
      else BlocksFrom(lines[1..], current + [stripped])
  }

  /** The blocks of a file: runs of non-blank lines, stripped, keeping
      every non-blank line in order. */
  function Blocks(lines: seq<string>): (bs: seq<seq<string>>)
    ensures forall k :: 0 <= k < |bs| ==> IsBlock(bs[k])
    ensures Flatten(bs) == NonBlank(lines)
  {
    BlocksAreBlocks(lines, []);
    BlocksKeepLines(lines, []);
    assert [] + NonBlank(lines) == NonBlank(lines);
    BlocksFrom(lines, [])
  }

  predicate IsBlock(b: seq<string>) {
    b != [] && forall i :: 0 <= i < |b| ==> b[i] != [] && IsStripped(b[i])
  }

  predicate NonBlankStripped(b: seq<string>) {
    forall i :: 0 <= i < |b| ==> b[i] != [] && IsStripped(b[i])
  }

  function Flatten(bs: seq<seq<string>>): seq<string> {
    if bs == [] then [] else bs[0] + Flatten(bs[1..])
  }

  /** No block is empty, however many blank lines follow one another, and
      every line of a block is stripped and non-blank. */
  lemma {:induction false} BlocksAreBlocks(lines: seq<string>, current: seq<string>)
    requires NonBlankStripped(current)
    ensures forall k :: 0 <= k < |BlocksFrom(lines, current)| ==> IsBlock(BlocksFrom(lines, current)[k])
  {
    if lines != [] {
      var stripped := Strip(lines[0]);
      if stripped == [] {
        BlocksAreBlocks(lines[1..], []);
      } else {
        BlocksAreBlocks(lines[1..], current + [stripped]);
      }
    }
  }

  lemma FlattenAppend(a: seq<seq<string>>, b: seq<seq<string>>)
    ensures Flatten(a + b) == Flatten(a) + Flatten(b)
    decreases |a|
  {
    if a != [] {
      assert (a + b)[0] == a[0];
      assert (a + b)[1..] == a[1..] + b;
      FlattenAppend(a[1..], b);
    } else {
      assert a + b == b;
    }
  }

  /** Splitting loses no line and invents none: the blocks, read one after
      another, are exactly the stripped non-blank lines. */
  lemma {:induction false} BlocksKeepLines(lines: seq<string>, current: seq<string>)
    ensures Flatten(BlocksFrom(lines, current)) == current + NonBlank(lines)
    decreases |lines|, 1
  {
    if lines == [] {
      FlattenOpen(current);
    } else if Strip(lines[0]) == [] {
      BlankLineKeepsLines(lines, current);
    } else {
      TextLineKeepsLines(lines, current);
    }
  }

  lemma {:induction false} BlankLineKeepsLines(lines: seq<string>, current: seq<string>)
    requires lines != [] && Strip(lines[0]) == []
    ensures Flatten(BlocksFrom(lines, current)) == current + NonBlank(lines)
    decreases |lines|, 0
  {
    BlankLineCloses(lines, current);
    BlocksKeepLines(lines[1..], []);
    FlattenAppend(OpenBlock(current), BlocksFrom(lines[1..], []));
    FlattenOpen(current);
  }

  lemma {:induction false} TextLineKeepsLines(lines: seq<string>, current: seq<string>)
    requires lines != [] && Strip(lines[0]) != []
    ensures Flatten(BlocksFrom(lines, current)) == current + NonBlank(lines)
    decreases |lines|, 0
  {
    var stripped := Strip(lines[0]);
    TextLineExtends(lines, current);
    BlocksKeepLines(lines[1..], current + [stripped]);
    AppendAssoc(current, [stripped], NonBlank(lines[1..]));
  }


  /** The block being read, as a list of zero or one blocks. */
  function OpenBlock(current: seq<string>): seq<seq<string>> {
    if current == [] then [] else [current]
  }

  lemma FlattenOpen(current: seq<string>)
    ensures Flatten(OpenBlock(current)) == current
    ensures BlocksFrom([], current) == OpenBlock(current)
  {
    if current != [] {
      assert [current][1..] == [];
    }
  }

  lemma BlankLineCloses(lines: seq<string>, current: seq<string>)
    requires lines != [] && Strip(lines[0]) == []
    ensures BlocksFrom(lines, current) == OpenBlock(current) + BlocksFrom(lines[1..], [])
    ensures NonBlank(lines) == NonBlank(lines[1..])
  {
  }

  lemma TextLineExtends(lines: seq<string>, current: seq<string>)
    requires lines != [] && Strip(lines[0]) != []
    ensures BlocksFrom(lines, current) == BlocksFrom(lines[1..], current + [Strip(lines[0])])
    ensures NonBlank(lines) == [Strip(lines[0])] + NonBlank(lines[1..])
  {
  }



  /** A blank line is a clean cut: the blocks of the text around it are
      the blocks before it followed by the blocks after it. */
  lemma {:induction false} BlocksAtBlank(xs: seq<string>, blank: string, ys: seq<string>, current: seq<string>)
    requires Strip(blank) == []
    ensures BlocksFrom(xs + [blank] + ys, current) == BlocksFrom(xs, current) + Blocks(ys)
  {
    var all := xs + [blank] + ys;
    if xs == [] {
      assert all[1..] == ys && all[0] == blank;
      BlankLineCloses(all, current);
      FlattenOpen(current);
    } else {
      assert all[1..] == xs[1..] + [blank] + ys && all[0] == xs[0];
      var stripped := Strip(xs[0]);
      if stripped == [] {
        BlankLineCloses(all, current);
        BlankLineCloses(xs, current);
        BlocksAtBlank(xs[1..], blank, ys, []);
        AppendAssoc(OpenBlock(current), BlocksFrom(xs[1..], []), Blocks(ys));
      } else {
        TextLineExtends(all, current);
        TextLineExtends(xs, current);
        BlocksAtBlank(xs[1..], blank, ys, current + [stripped]);
      }
    }
  }


  /** Text with no blank line is one block, closed at the end of the file. */
  lemma {:induction false} OneBlockWithoutBlanks(lines: seq<string>, current: seq<string>)
    requires forall i :: 0 <= i < |lines| ==> Strip(lines[i]) != []
    requires current != [] || lines != []
    ensures BlocksFrom(lines, current) == [current + NonBlank(lines)]
  {
    if lines != [] {
      var t := Strip(lines[0]);
      forall i | 0 <= i < |lines[1..]|
        ensures Strip(lines[1..][i]) != []
      {
        assert lines[1..][i] == lines[i + 1];
      }
      assert NonBlank(lines) == [t] + NonBlank(lines[1..]);
      AppendAssoc(current, [t], NonBlank(lines[1..]));
      if lines[1..] == [] {
        assert BlocksFrom(lines[1..], current + [t]) == [current + [t]];
        assert NonBlank(lines[1..]) == [];
        assert current + [t] + [] == current + [t];
      } else {
        OneBlockWithoutBlanks(lines[1..], current + [t]);
      }
    } else {
      assert current + NonBlank(lines) == current;
    }
  }

  // ---------------------------------------------------------------------
  // Field dictionaries
  // ---------------------------------------------------------------------

  /** A dictionary value: the text of a line, or an `int`. */
  datatype Field = Text(text: string) | Num(n: int)

  /** Python's `int(v)`: an int stays as it is, text must be a number. */
  function IntOf(f: Field): Option<int> {
    match f
    case Num(n) => Some(n)
    case Text(s) => ParseInt(s)
  }

  /** Where a recognised key is stored, and whether its value is an int. */
  datatype Slot = Slot(field: string, numeric: bool)

  /** A block line split into its key and value: `None` when the line
      has no `": "`; otherwise the text before the first `": "`, stripped
      and upper-cased, and the text after it, stripped. */
  function LineParts(line: string): Option<(string, string)> {
    match SplitOnce(line, ": ")
    case None => None
    case Some(parts) => Some((Upper(Strip(parts.0)), Strip(parts.1)))
  }

  /** A recognised key stores the value under its field, as `int(value)`
      for a numeric field (whose failure raises ValueError); any other key
      is ignored. */
  function Store(key: string, value: string, slots: string -> Option<Slot>, d: map<string, Field>)
    : (r: Result<map<string, Field>>)
    ensures r.Err? <==> slots(key).Some? && slots(key).value.numeric && ParseInt(value).None?
    ensures r.Err? ==> r.error == ValueError
    ensures r.Ok? && slots(key).None? ==> r.value == d
    ensures r.Ok? && slots(key).Some? ==>
      r.value == d[slots(key).value.field := if slots(key).value.numeric then Num(ParseInt(value).value) else Text(value)]
  {
    match slots(key)
    case None => Ok(d)
    case Some(slot) =>
      if !slot.numeric then Ok(d[slot.field := Text(value)])
      else match ParseInt(value)
        case None => Err(ValueError)
        case Some(n) => Ok(d[slot.field := Num(n)])
  }

  /** Each line of a block split into its key and value. */
  function Parts(lines: seq<string>): (r: seq<Option<(string, string)>>)
    ensures |r| == |lines| && forall i :: 0 <= i < |lines| ==> r[i] == LineParts(lines[i])
  {
    seq(|lines|, i requires 0 <= i < |lines| => LineParts(lines[i]))
  }

  /** The line loop of `parse_quest_block` and `parse_item_block` over the
      split lines: a line without `": "` raises InvalidDataFormatError, the
      first bad line raises, and a key seen again overwrites its field. */
  function ReadParts(parts: seq<Option<(string, string)>>, slots: string -> Option<Slot>, d: map<string, Field>)
    : (r: Result<map<string, Field>>)
    ensures r.Err? ==> r.error == InvalidDataFormat || r.error == ValueError
  {
    if parts == [] then Ok(d)
    else match parts[0]
      case None => Err(InvalidDataFormat)
      case Some(kv) =>
        match Store(kv.0, kv.1, slots, d)
        case Err(e) => Err(e)
        case Ok(d') => ReadParts(parts[1..], slots, d')
  }

  function ReadLines(lines: seq<string>, slots: string -> Option<Slot>, d: map<string, Field>)
    : Result<map<string, Field>>
  {
    ReadParts(Parts(lines), slots, d)
  }

  /** A block line without `": "` fails the whole block. */
  lemma {:induction false} ReadPartsRejects(parts: seq<Option<(string, string)>>, slots: string -> Option<Slot>,
                                            d: map<string, Field>, i: nat)
    requires i < |parts| && parts[i].None?
    ensures ReadParts(parts, slots, d).Err?
    decreases i
  {
    if i > 0 {
      match parts[0]
      case None =>
      case Some(kv) =>
        match Store(kv.0, kv.1, slots, d)
        case Err(_) =>
        case Ok(d') =>
          assert parts[1..][i - 1] == parts[i];
          ReadPartsRejects(parts[1..], slots, d', i - 1);
    }
  }

  /** The line stores nothing under the field `f`. */
  predicate LeavesField(part: Option<(string, string)>, slots: string -> Option<Slot>, f: string) {
    match part
    case None => true
    case Some(kv) => slots(kv.0).None? || slots(kv.0).value.field != f
  }

  /** Lines that store nothing under `f` leave its entry alone. */
  lemma {:induction false} ReadPartsKeeps(parts: seq<Option<(string, string)>>, slots: string -> Option<Slot>,
                                          d: map<string, Field>, f: string)
    requires ReadParts(parts, slots, d).Ok? && f in d
    requires forall j :: 0 <= j < |parts| ==> LeavesField(parts[j], slots, f)
    ensures f in ReadParts(parts, slots, d).value && ReadParts(parts, slots, d).value[f] == d[f]
  {
    if parts != [] {
      var kv := parts[0].value;
      var d' := Store(kv.0, kv.1, slots, d).value;
      assert LeavesField(parts[0], slots, f);
      assert forall j :: 0 <= j < |parts[1..]| ==> parts[1..][j] == parts[j + 1];
      ReadPartsKeeps(parts[1..], slots, d', f);
    }
  }

  /** A later line overwrites an earlier one: a field holds the value of
      the last line that stores into it. */
  lemma {:induction false} ReadPartsLastWins(parts: seq<Option<(string, string)>>, slots: string -> Option<Slot>,
                                             d: map<string, Field>, i: nat, slot: Slot, value: string)
    requires ReadParts(parts, slots, d).Ok?
    requires i < |parts| && parts[i].Some? && parts[i].value.1 == value
    requires slots(parts[i].value.0) == Some(slot)
    requires !slot.numeric || ParseInt(value).Some?
    requires forall j :: i < j < |parts| ==> LeavesField(parts[j], slots, slot.field)
    ensures slot.field in ReadParts(parts, slots, d).value
    ensures ReadParts(parts, slots, d).value[slot.field] ==
      if slot.numeric then Num(ParseInt(value).value) else Text(value)
    decreases i
  {
    var kv := parts[0].value;
    var d' := Store(kv.0, kv.1, slots, d).value;
    assert forall j :: 0 <= j < |parts[1..]| ==> parts[1..][j] == parts[j + 1];
    if i > 0 {
      ReadPartsLastWins(parts[1..], slots, d', i - 1, slot, value);
    } else {
      ReadPartsKeeps(parts[1..], slots, d', slot.field);
    }
  }

  /** Lines whose keys are not in the table change nothing. */
  lemma {:induction false} ReadPartsIgnores(parts: seq<Option<(string, string)>>, slots: string -> Option<Slot>,
                                            d: map<string, Field>)
    requires forall i :: 0 <= i < |parts| ==> parts[i].Some? && slots(parts[i].value.0).None?
    ensures ReadParts(parts, slots, d) == Ok(d)
  {
    if parts != [] {
      assert forall i :: 1 <= i < |parts| ==> parts[1..][i - 1] == parts[i];
      ReadPartsIgnores(parts[1..], slots, d);
    }
  }

  /** A key without a colon is cut off at the `": "` that follows it. */
  lemma SplitAtKey(k: string, v: string)
    requires forall i :: 0 <= i < |k| ==> k[i] != ':'
    ensures SplitOnce(k + ": " + v, ": ") == Some((k, v))
  {
    var s := k + ": " + v;
    assert OccursAt(s, ": ", |k|);
    forall j | 0 <= j < |k|
      ensures !OccursAt(s, ": ", j)
    {
      if j + 2 <= |s| {
        assert s[j..j + 2][0] == s[j] == k[j];
      }
    }
    var r := SplitOnce(s, ": ").value;
    assert |r.0| == |k|;
    assert r.0 == s[..|k|] == k;
    assert r.1 == s[|k| + 2..] == v;
  }

  /** A line splits at its first `": "`: `"EFFECT: health: 5"` reads as the
      key EFFECT with the value `health: 5`. */
  lemma LinePartsFirstSeparator(k: string, v: string)
    requires forall i :: 0 <= i < |k| ==> k[i] != ':'
    requires IsStripped(k) && IsStripped(v)
    ensures LineParts(k + ": " + v) == Some((Upper(k), v))
  {
    SplitAtKey(k, v);
    StripOfStripped(k);
    StripOfStripped(v);
  }

  /** Every entry is an int exactly when `numeric` says its field is one. */
  ghost predicate KindsAgree(d: map<string, Field>, numeric: string -> bool) {
    forall f :: f in d ==> (d[f].Num? <==> numeric(f))
  }

  /** The key table stores ints exactly in the fields `numeric` names. */
  ghost predicate SlotsAgree(slots: string -> Option<Slot>, numeric: string -> bool) {
    forall key :: slots(key).Some? ==> slots(key).value.numeric == numeric(slots(key).value.field)
  }

  /** Reading lines keeps every field holding the kind of value the key
      table gives it. */
  lemma {:induction false} ReadPartsAgree(parts: seq<Option<(string, string)>>, slots: string -> Option<Slot>,
                                          numeric: string -> bool, d: map<string, Field>)
    requires SlotsAgree(slots, numeric) && KindsAgree(d, numeric)
    ensures ReadParts(parts, slots, d).Ok? ==> KindsAgree(ReadParts(parts, slots, d).value, numeric)
  {
    if parts != [] {
      match parts[0]
      case None =>
      case Some(kv) =>
        match Store(kv.0, kv.1, slots, d)
        case Err(_) =>
        case Ok(d') =>
          assert slots(kv.0).Some? ==> slots(kv.0).value.numeric == numeric(slots(kv.0).value.field);
          ReadPartsAgree(parts[1..], slots, numeric, d');
    }
  }

  /** The result of a validator that coerces fields in place: whether it
      raised, and the dictionary as it was left. */
  datatype Validated = Validated(outcome: Outcome, fields: map<string, Field>)

  /** `d[name] = int(d[name])` inside the validators' `try`: a failure is
      InvalidDataFormatError and leaves `d` as it was. */
  function Coerce(d: map<string, Field>, name: string): Validated
    requires name in d
  {
    match IntOf(d[name])
    case None => Validated(Fail(InvalidDataFormat), d)
    case Some(n) => Validated(Pass, d[name := Num(n)])
  }

  // ---------------------------------------------------------------------
  // Quests
  // ---------------------------------------------------------------------

  datatype Quest = Quest(
    questId: string,
    title: string,
    description: string,
    rewardXp: int,
    rewardGold: int,
    requiredLevel: int,
    prerequisite: string)

  /** The seven required quest fields. */
  predicate HasQuestFields(d: map<string, Field>) {
    "quest_id" in d && "title" in d && "description" in d && "reward_xp" in d
    && "reward_gold" in d && "required_level" in d && "prerequisite" in d
  }

  /** The key table of `parse_quest_block`. */
  function QuestSlot(key: string): Option<Slot> {
    if key == "QUEST_ID" then Some(Slot("quest_id", false))
    else if key == "TITLE" then Some(Slot("title", false))
    else if key == "DESCRIPTION" then Some(Slot("description", false))
    else if key == "REWARD_XP" then Some(Slot("reward_xp", true))
    else if key == "REWARD_GOLD" then Some(Slot("reward_gold", true))
    else if key == "REQUIRED_LEVEL" then Some(Slot("required_level", true))
    else if key == "PREREQUISITE" then Some(Slot("prerequisite", false))
    else None
  }

  /** `validate_quest_data`: InvalidDataFormatError if one of the seven
      fields is missing; otherwise reward_xp, reward_gold and
      required_level are made ints in that order, and a field that is not
      a number raises InvalidDataFormatError with the earlier ones already
      converted. */
  function ValidateQuestData(d: map<string, Field>): (v: Validated)
    ensures v.outcome.Fail? ==> v.outcome.error == InvalidDataFormat
    ensures v.outcome == Pass <==>
      HasQuestFields(d)
      && IntOf(d["reward_xp"]).Some? && IntOf(d["reward_gold"]).Some? && IntOf(d["required_level"]).Some?
    ensures v.outcome == Pass ==>
      v.fields == d["reward_xp" := Num(IntOf(d["reward_xp"]).value)]
                   ["reward_gold" := Num(IntOf(d["reward_gold"]).value)]
                   ["required_level" := Num(IntOf(d["required_level"]).value)]
    ensures !HasQuestFields(d) ==> v.fields == d
  {
    if !HasQuestFields(d) then Validated(Fail(InvalidDataFormat), d)
    else
      var xp := Coerce(d, "reward_xp");
      if xp.outcome.Fail? then xp
      else
        var gold := Coerce(xp.fields, "reward_gold");
        if gold.outcome.Fail? then gold
        else Coerce(gold.fields, "required_level")
  }

  /** A failed coercion leaves the earlier conversions in place: a bad
      reward_gold still turns reward_xp into an int. */
  lemma ValidateQuestPartial(d: map<string, Field>)
    requires HasQuestFields(d) && IntOf(d["reward_xp"]).Some? && IntOf(d["reward_gold"]).None?
    ensures ValidateQuestData(d) ==
      Validated(Fail(InvalidDataFormat), d["reward_xp" := Num(IntOf(d["reward_xp"]).value)])
  {
  }

  /** The coercion is idempotent: a dictionary that passed passes again,
      unchanged. */
  lemma ValidateQuestIdempotent(d: map<string, Field>)
    requires ValidateQuestData(d).outcome == Pass
    ensures ValidateQuestData(ValidateQuestData(d).fields) == Validated(Pass, ValidateQuestData(d).fields)
  {
    var f := ValidateQuestData(d).fields;
    assert f["reward_xp" := f["reward_xp"]]["reward_gold" := f["reward_gold"]]
            ["required_level" := f["required_level"]] == f;
  }

  /** Fields that already hold ints are left exactly as they are. */
  lemma ValidateQuestKeepsInts(d: map<string, Field>)
    requires HasQuestFields(d)
    requires d["reward_xp"].Num? && d["reward_gold"].Num? && d["required_level"].Num?
    ensures ValidateQuestData(d) == Validated(Pass, d)
  {
    assert d["reward_xp" := d["reward_xp"]]["reward_gold" := d["reward_gold"]]
            ["required_level" := d["required_level"]] == d;
  }

  /** `parse_quest_block`: read the lines, then validate. A malformed line
      gives InvalidDataFormatError, a numeric field that is not a number
      gives ValueError, and a missing field gives InvalidDataFormatError. */
  function ParseQuestBlock(lines: seq<string>): (r: Result<map<string, Field>>)
    ensures r.Err? ==> r.error == InvalidDataFormat || r.error == ValueError
  {
    match ReadLines(lines, QuestSlot, map[])
    case Err(e) => Err(e)
    case Ok(d) =>
      var v := ValidateQuestData(d);
      if v.outcome.Fail? then Err(InvalidDataFormat) else Ok(v.fields)
  }

  /** The numeric quest fields. */
  predicate QuestNumeric(f: string) {
    f == "reward_xp" || f == "reward_gold" || f == "required_level"
  }

  /** Text in the text fields and ints in the numeric ones, where present. */
  ghost predicate QuestTyped(d: map<string, Field>) {
    KindsAgree(d, QuestNumeric)
  }

  lemma QuestSlotsAgree()
    ensures SlotsAgree(QuestSlot, QuestNumeric)
  {
  }

  /** The shape of a quest dictionary that is ready to use. */
  ghost predicate IsQuestDict(d: map<string, Field>) {
    HasQuestFields(d) && QuestTyped(d)
  }

  function QuestOf(d: map<string, Field>): Quest
    requires IsQuestDict(d)
  {
    Quest(d["quest_id"].text, d["title"].text, d["description"].text, d["reward_xp"].n,
          d["reward_gold"].n, d["required_level"].n, d["prerequisite"].text)
  }

  /** Reading quest lines only ever stores text in the text fields and ints
      in the numeric ones. */
  lemma ReadQuestLinesTyped(lines: seq<string>)
    ensures ReadLines(lines, QuestSlot, map[]).Ok? ==> QuestTyped(ReadLines(lines, QuestSlot, map[]).value)
  {
    QuestSlotsAgree();
    ReadPartsAgree(Parts(lines), QuestSlot, QuestNumeric, map[]);
  }

  /** A parsed quest block is a complete, typed quest dictionary, and
      validating it again passes and changes nothing. */
  lemma ParsedQuestIsQuest(lines: seq<string>)
    requires ParseQuestBlock(lines).Ok?
    ensures IsQuestDict(ParseQuestBlock(lines).value)
    ensures ValidateQuestData(ParseQuestBlock(lines).value) == Validated(Pass, ParseQuestBlock(lines).value)
  {
    ReadQuestLinesTyped(lines);
    ValidateQuestKeepsInts(ReadLines(lines, QuestSlot, map[]).value);
  }

  /** One quest block as `load_quests` handles it: `parse_quest_block`,
      then `validate_quest_data` once more, then the dictionary as a quest. */
  function LoadQuestBlock(block: seq<string>): Result<Quest> {
    match ParseQuestBlock(block)
    case Err(e) => Err(e)
    case Ok(d) =>
      var v := ValidateQuestData(d);
      if v.outcome.Fail? then Err(InvalidDataFormat)
      else
        ParsedQuestIsQuest(block);
        Ok(QuestOf(v.fields))
  }

  function QuestKey(q: Quest): string { q.questId }

  // ---------------------------------------------------------------------
  // Items
  // ---------------------------------------------------------------------

  datatype Item = Item(
    itemId: string,
    name: string,
    itemType: string,
    effect: string,
    cost: int,
    description: string)

  /** The six required item fields. */
  predicate HasItemFields(d: map<string, Field>) {
    "item_id" in d && "name" in d && "type" in d && "effect" in d && "cost" in d && "description" in d
  }

  /** The key table of `parse_item_block`. */
  function ItemSlot(key: string): Option<Slot> {
    if key == "ITEM_ID" then Some(Slot("item_id", false))
    else if key == "NAME" then Some(Slot("name", false))
    else if key == "TYPE" then Some(Slot("type", false))
    else if key == "EFFECT" then Some(Slot("effect", false))
    else if key == "COST" then Some(Slot("cost", true))
    else if key == "DESCRIPTION" then Some(Slot("description", false))
    else None
  }

  /** `item_dict["type"] in ("weapon", "armor", "consumable")`. */
  predicate IsItemType(f: Field) {
    f == Text("weapon") || f == Text("armor") || f == Text("consumable")
  }

  /** `validate_item_data`: InvalidDataFormatError if one of the six
      fields is missing, if the type is not weapon, armor or consumable,
      or if the cost is not a number; otherwise the cost is made an int. */
  function ValidateItemData(d: map<string, Field>): (v: Validated)
    ensures v.outcome.Fail? ==> v == Validated(Fail(InvalidDataFormat), d)
    ensures v.outcome == Pass <==>
      HasItemFields(d) && IsItemType(d["type"]) && IntOf(d["cost"]).Some?
    ensures v.outcome == Pass ==> v.fields == d["cost" := Num(IntOf(d["cost"]).value)]
  {
    if !HasItemFields(d) then Validated(Fail(InvalidDataFormat), d)
    else if !IsItemType(d["type"]) then Validated(Fail(InvalidDataFormat), d)
    else Coerce(d, "cost")
  }

  lemma ValidateItemIdempotent(d: map<string, Field>)
    requires ValidateItemData(d).outcome == Pass
    ensures ValidateItemData(ValidateItemData(d).fields) == Validated(Pass, ValidateItemData(d).fields)
  {
    var f := ValidateItemData(d).fields;
    assert f["cost" := f["cost"]] == f;
  }

  lemma ValidateItemKeepsInts(d: map<string, Field>)
    requires HasItemFields(d) && IsItemType(d["type"]) && d["cost"].Num?
    ensures ValidateItemData(d) == Validated(Pass, d)
  {
    assert d["cost" := d["cost"]] == d;
  }

  /** `parse_item_block`: read the lines, then validate. */
  function ParseItemBlock(lines: seq<string>): (r: Result<map<string, Field>>)
    ensures r.Err? ==> r.error == InvalidDataFormat || r.error == ValueError
  {
    match ReadLines(lines, ItemSlot, map[])
    case Err(e) => Err(e)
    case Ok(d) =>
      var v := ValidateItemData(d);
      if v.outcome.Fail? then Err(InvalidDataFormat) else Ok(v.fields)
  }

  predicate ItemNumeric(f: string) {
    f == "cost"
  }

  ghost predicate ItemTyped(d: map<string, Field>) {
    KindsAgree(d, ItemNumeric)
  }

  lemma ItemSlotsAgree()
    ensures SlotsAgree(ItemSlot, ItemNumeric)
  {
  }

  ghost predicate IsItemDict(d: map<string, Field>) {
    HasItemFields(d) && ItemTyped(d)
  }

  function ItemOf(d: map<string, Field>): Item
    requires IsItemDict(d)
  {
    Item(d["item_id"].text, d["name"].text, d["type"].text, d["effect"].text, d["cost"].n,
         d["description"].text)
  }

  lemma ReadItemLinesTyped(lines: seq<string>)
    ensures ReadLines(lines, ItemSlot, map[]).Ok? ==> ItemTyped(ReadLines(lines, ItemSlot, map[]).value)
  {
    ItemSlotsAgree();
    ReadPartsAgree(Parts(lines), ItemSlot, ItemNumeric, map[]);
  }

  /** A parsed item block is a complete, typed item dictionary whose type
      is one of the three, and validating it again changes nothing. */
  lemma ParsedItemIsItem(lines: seq<string>)
    requires ParseItemBlock(lines).Ok?
    ensures IsItemDict(ParseItemBlock(lines).value)
    ensures IsItemType(ParseItemBlock(lines).value["type"])
    ensures ValidateItemData(ParseItemBlock(lines).value) == Validated(Pass, ParseItemBlock(lines).value)
  {
    ReadItemLinesTyped(lines);
    ValidateItemKeepsInts(ReadLines(lines, ItemSlot, map[]).value);
  }

  /** One item block as `load_items` handles it. */
  function LoadItemBlock(block: seq<string>): Result<Item> {
    match ParseItemBlock(block)
    case Err(e) => Err(e)
    case Ok(d) =>
      var v := ValidateItemData(d);
      if v.outcome.Fail? then Err(InvalidDataFormat)
      else
        ParsedItemIsItem(block);
        Ok(ItemOf(v.fields))
  }

  function ItemKey(i: Item): string { i.itemId }

  // ---------------------------------------------------------------------
  // Loading: blocks filed by id
  // ---------------------------------------------------------------------

  /** Each block parsed and filed under its id, in order; any failure
      inside the loop is raised as InvalidDataFormatError. */
  function FileAll<T>(blocks: seq<seq<string>>, parse: seq<string> -> Result<T>, key: T -> string,
                      acc: OrderedMap<T>): (r: Result<OrderedMap<T>>)
    ensures r.Err? ==> r.error == InvalidDataFormat
  {
    if blocks == [] then Ok(acc)
    else match parse(blocks[0])
      case Err(_) => Err(InvalidDataFormat)
      case Ok(x) => FileAll(blocks[1..], parse, key, Put(acc, key(x), x))
  }

  /** What `load_quests`/`load_items` return for the lines of a file. */
  function Load<T>(rawLines: seq<string>, parse: seq<string> -> Result<T>, key: T -> string)
    : Result<OrderedMap<T>>
  {
    FileAll(Blocks(rawLines), parse, key, Empty())
  }

  /** The load fails exactly when some block fails, and then with
      InvalidDataFormatError. */
  lemma {:induction false} FileAllFails<T>(blocks: seq<seq<string>>, parse: seq<string> -> Result<T>,
                                           key: T -> string, acc: OrderedMap<T>)
    ensures FileAll(blocks, parse, key, acc).Ok? <==> forall k :: 0 <= k < |blocks| ==> parse(blocks[k]).Ok?
    ensures FileAll(blocks, parse, key, acc).Err? ==> FileAll(blocks, parse, key, acc).error == InvalidDataFormat
  {
    if blocks != [] {
      match parse(blocks[0])
      case Err(_) =>
      case Ok(x) =>
        FileAllFails(blocks[1..], parse, key, Put(acc, key(x), x));
        assert forall k :: 1 <= k < |blocks| ==> blocks[k] == blocks[1..][k - 1];
    }
  }

  /** The record filed under an id is the one from the last block with
      that id. */
  lemma {:induction false} LastBlockWins<T>(blocks: seq<seq<string>>, parse: seq<string> -> Result<T>,
                                            key: T -> string, acc: OrderedMap<T>, i: nat)
    requires FileAll(blocks, parse, key, acc).Ok?
    requires i < |blocks| && parse(blocks[i]).Ok?
    requires forall j :: i < j < |blocks| && parse(blocks[j]).Ok? ==>
               key(parse(blocks[j]).value) != key(parse(blocks[i]).value)
    ensures var x := parse(blocks[i]).value;
      key(x) in FileAll(blocks, parse, key, acc).value.entries
      && FileAll(blocks, parse, key, acc).value.entries[key(x)] == x
  {
    var x0 := parse(blocks[0]).value;
    var acc' := Put(acc, key(x0), x0);
    if i == 0 {
      FileAllKeeps(blocks[1..], parse, key, acc', key(x0));
    } else {
      LastBlockWins(blocks[1..], parse, key, acc', i - 1);
    }
  }

  /** Blocks with other ids leave an entry alone. */
  lemma {:induction false} FileAllKeeps<T>(blocks: seq<seq<string>>, parse: seq<string> -> Result<T>,
                                           key: T -> string, acc: OrderedMap<T>, k: string)
    requires FileAll(blocks, parse, key, acc).Ok? && k in acc.entries
    requires forall j :: 0 <= j < |blocks| && parse(blocks[j]).Ok? ==> key(parse(blocks[j]).value) != k
    ensures k in FileAll(blocks, parse, key, acc).value.entries
    ensures FileAll(blocks, parse, key, acc).value.entries[k] == acc.entries[k]
  {
    if blocks != [] {
      var x := parse(blocks[0]).value;
      FileAllKeeps(blocks[1..], parse, key, Put(acc, key(x), x), k);
    }
  }

  /** Closing the open block: nothing to file when it is empty; otherwise
      its record is filed, or the load fails. */
  function CloseBlock<T>(current: seq<string>, parse: seq<string> -> Result<T>, key: T -> string,
                         records: OrderedMap<T>): (r: Result<OrderedMap<T>>)
    ensures r.Err? ==> r.error == InvalidDataFormat
  {
    if current == [] then Ok(records)
    else match parse(current)
      case Err(_) => Err(InvalidDataFormat)
      case Ok(x) => Ok(Put(records, key(x), x))
  }

  /** Filing the blocks of the lines still to read, one line at a time:
      a blank line closes the open block, any other line extends it. */
  lemma ScanStep<T>(line: string, rest: seq<string>, current: seq<string>,
                    parse: seq<string> -> Result<T>, key: T -> string, records: OrderedMap<T>)
    ensures FileAll(BlocksFrom([line] + rest, current), parse, key, records) ==
      if Strip(line) != [] then FileAll(BlocksFrom(rest, current + [Strip(line)]), parse, key, records)
      else if CloseBlock(current, parse, key, records).Err? then Err(InvalidDataFormat)
      else FileAll(BlocksFrom(rest, []), parse, key, CloseBlock(current, parse, key, records).value)
  {
    assert ([line] + rest)[0] == line;
    assert ([line] + rest)[1..] == rest;
    if Strip(line) == [] && current != [] {
      var bs := [current] + BlocksFrom(rest, []);
      assert bs[0] == current;
      assert bs[1..] == BlocksFrom(rest, []);
    }
    if Strip(line) == [] && current == [] {
      assert [] + BlocksFrom(rest, []) == BlocksFrom(rest, []);
    }
  }

  /** The open block at the end of the file is closed too. */
  lemma ScanEnd<T>(current: seq<string>, parse: seq<string> -> Result<T>, key: T -> string,
                   records: OrderedMap<T>)
    ensures FileAll(BlocksFrom([], current), parse, key, records) == CloseBlock(current, parse, key, records)
  {
    if current != [] {
      assert [current][0] == current;
      assert [current][1..] == [];
    }
  }

  /** The loop of `load_quests`/`load_items` over the lines of a file. */
  method LoadRecords<T>(rawLines: seq<string>, parse: seq<string> -> Result<T>, key: T -> string)
    returns (r: Result<OrderedMap<T>>)
    ensures r == Load(rawLines, parse, key)
  {
    ghost var goal := Load(rawLines, parse, key);
    var records: OrderedMap<T> := Empty();
    var current: seq<string> := [];
    for i := 0 to |rawLines|
      invariant FileAll(BlocksFrom(rawLines[i..], current), parse, key, records) == goal
    {
      var line := rawLines[i];
      assert rawLines[i..] == [line] + rawLines[i + 1..];
      ScanStep(line, rawLines[i + 1..], current, parse, key, records);
      var stripped := Strip(line);
      if stripped == [] {
        var closed := CloseBlock(current, parse, key, records);
        if closed.Err? {
          return closed;
        }
        records, current := closed.value, [];
      } else {
        current := current + [stripped];
      }
    }
    assert rawLines[|rawLines|..] == [];
    ScanEnd(current, parse, key, records);
    var closed := CloseBlock(current, parse, key, records);
    if closed.Err? {
      return closed;
    }
    records := closed.value;
    r := Ok(records);
  }

  method LoadQuests(rawLines: seq<string>) returns (r: Result<OrderedMap<Quest>>)
    ensures r == Load(rawLines, LoadQuestBlock, QuestKey)
  {
    r := LoadRecords(rawLines, LoadQuestBlock, QuestKey);
  }

  method LoadItems(rawLines: seq<string>) returns (r: Result<OrderedMap<Item>>)
    ensures r == Load(rawLines, LoadItemBlock, ItemKey)
  {
    r := LoadRecords(rawLines, LoadItemBlock, ItemKey);
  }
}
