/** The quest rules: accepting, completing and abandoning quests on a
    character, the views over its quest lists, the prerequisite chain and
    the statistics. The registry is the quest map the content loader
    builds, keyed by quest id in file order. */
module QuestHandler {
  import opened Wrappers
  import opened Dicts
  import opened CharacterManager
  import opened GameData
  import opened Lists

  type Registry = OrderedMap<Quest>

  /** The prerequisite value that means "none"; compared exactly, so
      "none" or "None" name a quest. */
  const NoPrerequisite: string := "NONE"

  predicate PrerequisiteMet(r: Record, q: Quest) {
    q.prerequisite == NoPrerequisite || q.prerequisite in r.completedQuests
  }

  /** `list.remove(x)` on a list without duplicates takes `x` out for good and
      leaves a list without duplicates. */
  lemma RemoveFirstNoDuplicates(s: seq<string>, x: string)
    requires x in s
    ensures forall y :: y in RemoveFirst(s, x) ==> y in s
    ensures NoDuplicates(s) ==> x !in RemoveFirst(s, x) && NoDuplicates(RemoveFirst(s, x))
  {
    RemoveFirstIndex(s, x);
    var i := FirstIndex(s, x);
    var t := RemoveFirst(s, x);
    forall y | y in t
      ensures y in s
    {
      var k :| 0 <= k < |t| && t[k] == y;
      assert y == s[if k < i then k else k + 1];
    }
    if NoDuplicates(s) {
      forall a, b | 0 <= a < b < |t|
        ensures t[a] != t[b]
      {
        assert t[a] == s[if a < i then a else a + 1];
        assert t[b] == s[if b < i then b else b + 1];
      }
      forall k | 0 <= k < |t|
        ensures t[k] != x
      {
        assert t[k] == s[if k < i then k else k + 1];
      }
    }
  }

  // ---------------------------------------------------------------------
  // accept_quest and can_accept_quest
  // ---------------------------------------------------------------------

  /** `accept_quest`: the checks come in a fixed order and the first to fail
      raises: an unknown quest, a level below the requirement, an unmet
      prerequisite, a quest already completed. An active quest gives
      False with no change; otherwise the id is appended and True is
      returned. */
  function AcceptQuestStep(r: Record, questId: string, quests: Registry): (s: Step<bool>)
    ensures s.result == Err(QuestNotFound) <==> questId !in quests.entries
    ensures questId in quests.entries ==>
      var q := quests.entries[questId];
      && (s.result == Err(InsufficientLevel) <==> r.level < q.requiredLevel)
      && (s.result == Err(QuestRequirementsNotMet) <==> r.level >= q.requiredLevel && !PrerequisiteMet(r, q))
      && (s.result == Err(QuestAlreadyCompleted) <==>
            r.level >= q.requiredLevel && PrerequisiteMet(r, q) && questId in r.completedQuests)
      && (s.result.Ok? <==> r.level >= q.requiredLevel && PrerequisiteMet(r, q) && questId !in r.completedQuests)
    ensures s.result.Ok? ==> (s.result.value <==> questId !in r.activeQuests)
    ensures s.result == Ok(true) ==> s.after == r.(activeQuests := r.activeQuests + [questId])
    ensures s.result != Ok(true) ==> s.after == r
  {
    if questId !in quests.entries then Step(Err(QuestNotFound), r)
    else
      var q := quests.entries[questId];
      if r.level < q.requiredLevel then Step(Err(InsufficientLevel), r)
      else if q.prerequisite != NoPrerequisite && q.prerequisite !in r.completedQuests then
        Step(Err(QuestRequirementsNotMet), r)
      else if questId in r.completedQuests then Step(Err(QuestAlreadyCompleted), r)
      else if questId in r.activeQuests then Step(Ok(false), r)
      else Step(Ok(true), r.(activeQuests := r.activeQuests + [questId]))
  }

  method AcceptQuest(c: Character, questId: string, quests: Registry) returns (o: Result<bool>)
    modifies c
    ensures Step(o, c.Snapshot()) == AcceptQuestStep(old(c.Snapshot()), questId, quests)
  {
    if questId !in quests.entries {
      return Err(QuestNotFound);
    }
    var quest := quests.entries[questId];
    if c.level < quest.requiredLevel {
      return Err(InsufficientLevel);
    }
    var prereq := quest.prerequisite;
    if prereq != NoPrerequisite && prereq !in c.completedQuests {
      return Err(QuestRequirementsNotMet);
    }
    if questId in c.completedQuests {
      return Err(QuestAlreadyCompleted);
    }
    if questId in c.activeQuests {
      return Ok(false);
    }
    c.activeQuests := c.activeQuests + [questId];
    o := Ok(true);
  }

  /** `can_accept_quest`: the same checks answered with a boolean, never
      raising. */
  function CanAcceptQuest(r: Record, questId: string, quests: Registry): bool {
    if questId !in quests.entries then false
    else
      var q := quests.entries[questId];
      if r.level < q.requiredLevel then false
      else if q.prerequisite != NoPrerequisite && q.prerequisite !in r.completedQuests then false
      else if questId in r.completedQuests then false
      else if questId in r.activeQuests then false
      else true
  }

  /** `can_accept_quest` answers True exactly when `accept_quest` would
      append the quest. */
  lemma CanAcceptIffAccepts(r: Record, questId: string, quests: Registry)
    ensures CanAcceptQuest(r, questId, quests) <==> AcceptQuestStep(r, questId, quests).result == Ok(true)
  {
  }

  /** An accepted quest is active exactly once, and accepting it again
      gives False and changes nothing. */
  lemma {:induction false} AcceptOnce(r: Record, questId: string, quests: Registry)
    requires AcceptQuestStep(r, questId, quests).result == Ok(true)
    ensures Count(AcceptQuestStep(r, questId, quests).after.activeQuests, questId) == 1
    ensures var a := AcceptQuestStep(r, questId, quests).after;
      AcceptQuestStep(a, questId, quests) == Step(Ok(false), a)
  {
    InIffCount(r.activeQuests, questId);
    CountAppend(r.activeQuests, questId, questId);
  }

  lemma AcceptPreservesWellFormed(r: Record, questId: string, quests: Registry)
    requires WellFormed(r)
    ensures WellFormed(AcceptQuestStep(r, questId, quests).after)
  {
    var s := AcceptQuestStep(r, questId, quests);
    if s.result == Ok(true) {
      var a := s.after.activeQuests;
      assert forall i :: 0 <= i < |r.activeQuests| ==> a[i] == r.activeQuests[i];
      assert a[|a| - 1] == questId;
    }
  }

  // ---------------------------------------------------------------------
  // complete_quest and abandon_quest
  // ---------------------------------------------------------------------

  datatype QuestRewards = QuestRewards(xp: int, gold: int)

  /** The move from the active to the completed list. */
  function MoveToCompleted(r: Record, questId: string): (m: Record)
    requires questId in r.activeQuests
    ensures m.activeQuests == RemoveFirst(r.activeQuests, questId)
    ensures m.completedQuests == r.completedQuests + [questId]
    ensures m.(activeQuests := r.activeQuests, completedQuests := r.completedQuests) == r
  {
    r.(activeQuests := RemoveFirst(r.activeQuests, questId), completedQuests := r.completedQuests + [questId])
  }

  /** `complete_quest`: an unknown quest and a quest that is not active
      raise before any change. Then the quest moves to the completed list
      before the rewards go through `gain_experience` and `add_gold`, so a
      character at 0 health raises CharacterDeadError with the move already
      made, and a gold reward that would leave gold negative raises
      ValueError with the move and the experience already applied. */
  function CompleteQuestStep(r: Record, questId: string, quests: Registry): (s: Step<QuestRewards>)
    ensures s.result == Err(QuestNotFound) <==> questId !in quests.entries
    ensures s.result == Err(QuestNotActive) <==> questId in quests.entries && questId !in r.activeQuests
    ensures questId !in quests.entries || questId !in r.activeQuests ==> s.after == r
    ensures questId in quests.entries && questId in r.activeQuests ==>
      var q := quests.entries[questId];
      && s.after.activeQuests == RemoveFirst(r.activeQuests, questId)
      && s.after.completedQuests == r.completedQuests + [questId]
      && s.after.inventory == r.inventory && s.after.name == r.name
      && (r.health <= 0 ==> s == Step(Err(CharacterDead), MoveToCompleted(r, questId)))
      && (r.health > 0 && r.gold + q.rewardGold < 0 ==>
            s == Step(Err(ValueError), GainExperienceStep(MoveToCompleted(r, questId), q.rewardXp).after))
      && (s.result.Ok? <==> r.health > 0 && r.gold + q.rewardGold >= 0)
      && (s.result.Ok? ==>
            && s.result.value == QuestRewards(q.rewardXp, q.rewardGold)
            && s.after == GainExperienceStep(MoveToCompleted(r, questId), q.rewardXp).after.(gold := r.gold + q.rewardGold))
  {
    if questId !in quests.entries then Step(Err(QuestNotFound), r)
    else if questId !in r.activeQuests then Step(Err(QuestNotActive), r)
    else
      var q := quests.entries[questId];
      var moved := MoveToCompleted(r, questId);
      var gained := GainExperienceStep(moved, q.rewardXp);
      GainExperienceLaws(moved, q.rewardXp);
      if gained.result.Err? then Step(Err(gained.result.error), gained.after)
      else
        var paid := AddGoldStep(gained.after, q.rewardGold);
        if paid.result.Err? then Step(Err(paid.result.error), paid.after)
        else Step(Ok(QuestRewards(q.rewardXp, q.rewardGold)), paid.after)
  }

  method CompleteQuest(c: Character, questId: string, quests: Registry) returns (o: Result<QuestRewards>)
    modifies c
    ensures Step(o, c.Snapshot()) == CompleteQuestStep(old(c.Snapshot()), questId, quests)
  {
    if questId !in quests.entries {
      return Err(QuestNotFound);
    }
    if questId !in c.activeQuests {
      return Err(QuestNotActive);
    }
    var quest := quests.entries[questId];
    c.activeQuests, c.completedQuests := RemoveFirst(c.activeQuests, questId), c.completedQuests + [questId];
    var gained := GainExperience(c, quest.rewardXp);
    if gained.Err? {
      return Err(gained.error);
    }
    var paid := AddGold(c, quest.rewardGold);
    if paid.Err? {
      return Err(paid.error);
    }
    o := Ok(QuestRewards(quest.rewardXp, quest.rewardGold));
  }

  /** Completing a quest of a well-formed character keeps every record
      invariant when the experience reward is not negative: the quest lists
      stay free of duplicates and disjoint, also on the failure paths. */
  lemma CompletePreservesWellFormed(r: Record, questId: string, quests: Registry)
    requires WellFormed(r)
    requires questId in quests.entries ==> quests.entries[questId].rewardXp >= 0
    ensures WellFormed(CompleteQuestStep(r, questId, quests).after)
  {
    if questId in quests.entries && questId in r.activeQuests {
      var q := quests.entries[questId];
      var moved := MoveToCompleted(r, questId);
      RemoveFirstNoDuplicates(r.activeQuests, questId);
      var done := moved.completedQuests;
      assert forall i :: 0 <= i < |r.completedQuests| ==> done[i] == r.completedQuests[i];
      assert done[|done| - 1] == questId;
      assert WellFormed(moved);
      GainExperiencePreservesWellFormed(moved, q.rewardXp);
      AddGoldPreservesWellFormed(GainExperienceStep(moved, q.rewardXp).after, q.rewardGold);
    }
  }

  /** `abandon_quest`: QuestNotActiveError for a quest that is not active;
      otherwise its first occurrence leaves the active list, and nothing
      else changes. */
  function AbandonQuestStep(r: Record, questId: string): (s: Step<bool>)
    ensures s.result.Err? <==> questId !in r.activeQuests
    ensures s.result.Err? ==> s.result.error == QuestNotActive && s.after == r
    ensures s.result.Ok? ==> s.result.value && s.after == r.(activeQuests := RemoveFirst(r.activeQuests, questId))
  {
    if questId !in r.activeQuests then Step(Err(QuestNotActive), r)
    else Step(Ok(true), r.(activeQuests := RemoveFirst(r.activeQuests, questId)))
  }

  method AbandonQuest(c: Character, questId: string) returns (o: Result<bool>)
    modifies c
    ensures Step(o, c.Snapshot()) == AbandonQuestStep(old(c.Snapshot()), questId)
  {
    if questId !in c.activeQuests {
      return Err(QuestNotActive);
    }
    c.activeQuests := RemoveFirst(c.activeQuests, questId);
    o := Ok(true);
  }

  /** Abandoning a quest just accepted gives back the character as it was. */
  lemma AcceptThenAbandon(r: Record, questId: string, quests: Registry)
    requires AcceptQuestStep(r, questId, quests).result == Ok(true)
    ensures AbandonQuestStep(AcceptQuestStep(r, questId, quests).after, questId) == Step(Ok(true), r)
  {
    RemoveAppended(r.activeQuests, questId);
  }

  lemma AbandonPreservesWellFormed(r: Record, questId: string)
    requires WellFormed(r)
    ensures WellFormed(AbandonQuestStep(r, questId).after)
  {
    if questId in r.activeQuests {
      RemoveFirstNoDuplicates(r.activeQuests, questId);
    }
  }

  // ---------------------------------------------------------------------
  // is_quest_completed, is_quest_active
  // ---------------------------------------------------------------------

  predicate IsQuestCompleted(r: Record, questId: string) {
    questId in r.completedQuests
  }

  predicate IsQuestActive(r: Record, questId: string) {
    questId in r.activeQuests
  }

  /** After a successful accept the quest is active; after a successful
      completion it is completed and, for a well-formed character, no
      longer active. */
  lemma LifecycleQueries(r: Record, questId: string, quests: Registry)
    ensures AcceptQuestStep(r, questId, quests).result.Ok? ==>
      IsQuestActive(AcceptQuestStep(r, questId, quests).after, questId)
    ensures CompleteQuestStep(r, questId, quests).result.Ok? ==>
      IsQuestCompleted(CompleteQuestStep(r, questId, quests).after, questId)
    ensures CompleteQuestStep(r, questId, quests).result.Ok? && WellFormed(r) ==>
      !IsQuestActive(CompleteQuestStep(r, questId, quests).after, questId)
    ensures AbandonQuestStep(r, questId).result.Ok? && WellFormed(r) ==>
      !IsQuestActive(AbandonQuestStep(r, questId).after, questId)
  {
    if questId in r.activeQuests {
      RemoveFirstNoDuplicates(r.activeQuests, questId);
    }
  }

  // ---------------------------------------------------------------------
  // get_active_quests, get_completed_quests
  // ---------------------------------------------------------------------

  /** The registry entries of the ids in `ids` that are registered, in the
      order of `ids`. */
  function QuestsOf(ids: seq<string>, quests: Registry): (r: seq<Quest>)
    ensures |r| <= |ids|
  {
    if ids == [] then []
    else
      var last := ids[|ids| - 1];
      QuestsOf(ids[..|ids| - 1], quests) + (if last in quests.entries then [quests.entries[last]] else [])
  }

  /** When every id is registered, the view is the entries of the ids, one
      for one. */
  lemma {:induction false} QuestsOfAllKnown(ids: seq<string>, quests: Registry)
    requires forall i :: 0 <= i < |ids| ==> ids[i] in quests.entries
    ensures |QuestsOf(ids, quests)| == |ids|
    ensures forall i :: 0 <= i < |ids| ==> QuestsOf(ids, quests)[i] == quests.entries[ids[i]]
  {
    if ids != [] {
      QuestsOfAllKnown(ids[..|ids| - 1], quests);
    }
  }

  /** Every quest in the view is the entry of some id of the list. */
  lemma {:induction false} QuestsOfFromIds(ids: seq<string>, quests: Registry)
    ensures forall q :: q in QuestsOf(ids, quests) ==>
      exists i :: 0 <= i < |ids| && ids[i] in quests.entries && quests.entries[ids[i]] == q
  {
    if ids != [] {
      var front := ids[..|ids| - 1];
      QuestsOfFromIds(front, quests);
      forall q | q in QuestsOf(ids, quests)
        ensures exists i :: 0 <= i < |ids| && ids[i] in quests.entries && quests.entries[ids[i]] == q
      {
        if q in QuestsOf(front, quests) {
          var i :| 0 <= i < |front| && front[i] in quests.entries && quests.entries[front[i]] == q;
          assert ids[i] == front[i];
        } else {
          assert ids[|ids| - 1] in quests.entries && quests.entries[ids[|ids| - 1]] == q;
        }
      }
    }
  }

  /** Every registered id of the list has its quest in the view, even when
      unregistered ids sit beside it. */
  lemma {:induction false} QuestsOfKnownListed(ids: seq<string>, quests: Registry, i: nat)
    requires i < |ids| && ids[i] in quests.entries
    ensures quests.entries[ids[i]] in QuestsOf(ids, quests)
  {
    var front := ids[..|ids| - 1];
    if i < |ids| - 1 {
      assert front[i] == ids[i];
      QuestsOfKnownListed(front, quests, i);
    }
  }

  /** The lookup loop of `get_active_quests` and `get_completed_quests`. */
  method LookUpQuests(ids: seq<string>, quests: Registry) returns (result: seq<Quest>)
    ensures result == QuestsOf(ids, quests)
  {
    result := [];
    var i := 0;
    while i < |ids|
      invariant 0 <= i <= |ids|
      invariant result == QuestsOf(ids[..i], quests)
    {
      assert ids[..i + 1][..i] == ids[..i];
      if ids[i] in quests.entries {
        result := result + [quests.entries[ids[i]]];
      }
      i := i + 1;
    }
    assert ids[..|ids|] == ids;
  }

  method GetActiveQuests(hero: Record, quests: Registry) returns (result: seq<Quest>)
    ensures result == QuestsOf(hero.activeQuests, quests)
  {
    result := LookUpQuests(hero.activeQuests, quests);
  }

  method GetCompletedQuests(hero: Record, quests: Registry) returns (result: seq<Quest>)
    ensures result == QuestsOf(hero.completedQuests, quests)
  {
    result := LookUpQuests(hero.completedQuests, quests);
  }

  // ---------------------------------------------------------------------
  // get_available_quests, get_quests_by_level
  // ---------------------------------------------------------------------

  /** Which registry entries a listing keeps. */
  datatype Criterion = Acceptable(hero: Record) | LevelRange(minLevel: int, maxLevel: int)

  predicate Keeps(c: Criterion, questId: string, quests: Registry)
    requires questId in quests.entries
  {
    match c
    case Acceptable(hero) => CanAcceptQuest(hero, questId, quests)
    case LevelRange(lo, hi) => lo <= quests.entries[questId].requiredLevel <= hi
  }

  /** The entries of `keys` the criterion keeps, in the order of `keys`. */
  function Pick(keys: seq<string>, quests: Registry, c: Criterion): (r: seq<Quest>)
    ensures |r| <= |keys|
  {
    if keys == [] then []
    else
      var last := keys[|keys| - 1];
      Pick(keys[..|keys| - 1], quests, c)
        + (if last in quests.entries && Keeps(c, last, quests) then [quests.entries[last]] else [])
  }

  /** A listing holds exactly the entries the criterion keeps. */
  lemma {:induction false} PickMembers(keys: seq<string>, quests: Registry, c: Criterion)
    ensures forall i :: 0 <= i < |keys| && keys[i] in quests.entries && Keeps(c, keys[i], quests) ==>
      quests.entries[keys[i]] in Pick(keys, quests, c)
    ensures forall q :: q in Pick(keys, quests, c) ==>
      exists i :: 0 <= i < |keys| && keys[i] in quests.entries && Keeps(c, keys[i], quests) && quests.entries[keys[i]] == q
  {
    if keys != [] {
      var front := keys[..|keys| - 1];
      PickMembers(front, quests, c);
      forall i | 0 <= i < |keys| && keys[i] in quests.entries && Keeps(c, keys[i], quests)
        ensures quests.entries[keys[i]] in Pick(keys, quests, c)
      {
        if i < |front| {
          assert front[i] == keys[i];
        }
      }
      forall q | q in Pick(keys, quests, c)
        ensures exists i :: 0 <= i < |keys| && keys[i] in quests.entries && Keeps(c, keys[i], quests)
                            && quests.entries[keys[i]] == q
      {
        if q in Pick(front, quests, c) {
          var i :| 0 <= i < |front| && front[i] in quests.entries && Keeps(c, front[i], quests)
                   && quests.entries[front[i]] == q;
          assert keys[i] == front[i];
        } else {
          var j := |keys| - 1;
          assert keys[j] in quests.entries && Keeps(c, keys[j], quests) && quests.entries[keys[j]] == q;
        }
      }
    }
  }

  /** Every registered quest appears in a listing of the whole registry
      exactly when the criterion keeps it. */
  lemma ListingOfRegistry(quests: Registry, c: Criterion, questId: string)
    requires questId in quests.entries
    ensures Keeps(c, questId, quests) ==> quests.entries[questId] in Pick(quests.keys, quests, c)
  {
    PickMembers(quests.keys, quests, c);
    var i :| 0 <= i < |quests.keys| && quests.keys[i] == questId;
  }

  /** The loop of `get_available_quests` and `get_quests_by_level` over the
      registry in its order. */
  method SelectQuests(quests: Registry, c: Criterion) returns (result: seq<Quest>)
    ensures result == Pick(quests.keys, quests, c)
  {
    result := [];
    var i := 0;
    while i < |quests.keys|
      invariant 0 <= i <= |quests.keys|
      invariant result == Pick(quests.keys[..i], quests, c)
    {
      assert quests.keys[..i + 1][..i] == quests.keys[..i];
      var questId := quests.keys[i];
      if Keeps(c, questId, quests) {
        result := result + [quests.entries[questId]];
      }
      i := i + 1;
    }
    assert quests.keys[..|quests.keys|] == quests.keys;
  }

  method GetAvailableQuests(hero: Record, quests: Registry) returns (available: seq<Quest>)
    ensures available == Pick(quests.keys, quests, Acceptable(hero))
  {
    available := SelectQuests(quests, Acceptable(hero));
  }

  method GetQuestsByLevel(quests: Registry, minLevel: int, maxLevel: int) returns (result: seq<Quest>)
    ensures result == Pick(quests.keys, quests, LevelRange(minLevel, maxLevel))
  {
    result := SelectQuests(quests, LevelRange(minLevel, maxLevel));
  }

  // ---------------------------------------------------------------------
  // get_quest_prerequisite_chain
  // ---------------------------------------------------------------------

  /** `b` is the prerequisite of `a`, and a real one. */
  predicate Link(a: string, b: string, quests: Registry) {
    a in quests.entries && quests.entries[a].prerequisite == b && b != NoPrerequisite
  }

  /** Each element's prerequisite is the next element. */
  predicate Linked(w: seq<string>, quests: Registry) {
    forall i :: 0 <= i < |w| - 1 ==> Link(w[i], w[i + 1], quests)
  }

  function Visited(chain: seq<string>): set<string> {
    set x | x in chain
  }

  lemma VisitedAppend(chain: seq<string>, x: string)
    ensures Visited(chain + [x]) == Visited(chain) + {x}
  {
  }

  /** Passing a registered quest not yet passed leaves fewer to pass. */
  lemma PassOne(keys: set<string>, chain: seq<string>, x: string)
    requires x in keys && x !in chain
    ensures keys - Visited(chain + [x]) < keys - Visited(chain)
  {
    VisitedAppend(chain, x);
  }

  /** ... exactly one fewer. */
  lemma FewerUnvisited(keys: set<string>, chain: seq<string>, x: string)
    requires x in keys && x !in chain
    ensures |keys - Visited(chain + [x])| == |keys - Visited(chain)| - 1
  {
    VisitedAppend(chain, x);
    assert keys - Visited(chain) == (keys - Visited(chain + [x])) + {x};
  }

  /** The walk of `get_quest_prerequisite_chain` from `current`, with the
      quests passed so far in `chain`, latest last. The source has no guard
      against a cycle; this walk stops with PrerequisiteCycle when it comes
      back to a quest it has passed. */
  function Walk(current: string, quests: Registry, chain: seq<string>): (r: Result<seq<string>>)
    requires current in quests.entries
    ensures r.Err? ==> r.error == QuestNotFound || r.error == PrerequisiteCycle
    decreases quests.entries.Keys - Visited(chain)
  {
    if current in chain then Err(PrerequisiteCycle)
    else
      var walked := chain + [current];
      var prereq := quests.entries[current].prerequisite;
      if prereq == NoPrerequisite then Ok(walked)
      else if prereq !in quests.entries then Err(QuestNotFound)
      else
        PassOne(quests.entries.Keys, chain, current);
        Walk(prereq, quests, walked)
  }

  /** `get_quest_prerequisite_chain`: QuestNotFoundError for an unknown
      quest or a missing link, otherwise the walk reversed, earliest
      first. */
  function PrerequisiteChain(questId: string, quests: Registry): (r: Result<seq<string>>)
    ensures questId !in quests.entries ==> r == Err(QuestNotFound)
    ensures r.Err? ==> r.error == QuestNotFound || r.error == PrerequisiteCycle
  {
    if questId !in quests.entries then Err(QuestNotFound)
    else
      match Walk(questId, quests, [])
      case Ok(w) => Ok(Reverse(w))
      case Err(e) => Err(e)
  }

  method GetQuestPrerequisiteChain(questId: string, quests: Registry) returns (o: Result<seq<string>>)
    ensures o == PrerequisiteChain(questId, quests)
  {
    if questId !in quests.entries {
      return Err(QuestNotFound);
    }
    var chain: seq<string> := [];
    var current := questId;
    while true
      invariant current in quests.entries
      invariant Walk(current, quests, chain) == Walk(questId, quests, [])
      decreases quests.entries.Keys - Visited(chain)
    {
      if current in chain {
        return Err(PrerequisiteCycle);
      }
      PassOne(quests.entries.Keys, chain, current);
      chain := chain + [current];
      var prereq := quests.entries[current].prerequisite;
      if prereq == NoPrerequisite {
        break;
      }
      if prereq !in quests.entries {
        return Err(QuestNotFound);
      }
      current := prereq;
    }
    o := Ok(Reverse(chain));
  }

  /** A finished walk extends the chain it started from by linked quests
      without repeats, and its last quest has no prerequisite. */
  lemma {:induction false} WalkShape(current: string, quests: Registry, chain: seq<string>)
    requires current in quests.entries
    requires Linked(chain + [current], quests) && NoDuplicates(chain)
    ensures Walk(current, quests, chain).Ok? ==>
      var w := Walk(current, quests, chain).value;
      && |w| > |chain| && w[..|chain|] == chain && w[|chain|] == current && Linked(w, quests) && NoDuplicates(w)
      && w[|w| - 1] in quests.entries && quests.entries[w[|w| - 1]].prerequisite == NoPrerequisite
    decreases quests.entries.Keys - Visited(chain)
  {
    if current !in chain {
      var walked := chain + [current];
      assert NoDuplicates(walked);
      var prereq := quests.entries[current].prerequisite;
      if prereq != NoPrerequisite && prereq in quests.entries {
        PassOne(quests.entries.Keys, chain, current);
        var next := walked + [prereq];
        assert Linked(next, quests) by {
          assert forall i :: 0 <= i < |walked| ==> next[i] == walked[i];
        }
        WalkShape(prereq, quests, walked);
        if Walk(prereq, quests, walked).Ok? {
          var w := Walk(prereq, quests, walked).value;
          assert w[..|walked|] == walked;
          assert w[..|chain|] == walked[..|chain|] == chain;
        }
      } else if prereq == NoPrerequisite {
        assert walked[..|chain|] == chain;
      }
    }
  }

  /** The chain `get_quest_prerequisite_chain` returns: it ends with the
      quest asked about, starts with a quest without a prerequisite, holds
      registered quests only and no quest twice, and each element is the
      prerequisite of the next. */
  predicate IsChainFor(c: seq<string>, questId: string, quests: Registry) {
    && |c| > 0 && c[|c| - 1] == questId
    && (forall i :: 0 <= i < |c| ==> c[i] in quests.entries)
    && quests.entries[c[0]].prerequisite == NoPrerequisite
    && (forall i :: 0 <= i < |c| - 1 ==> Link(c[i + 1], c[i], quests))
    && NoDuplicates(c)
  }

  lemma ChainShape(questId: string, quests: Registry)
    ensures PrerequisiteChain(questId, quests).Ok? ==> IsChainFor(PrerequisiteChain(questId, quests).value, questId, quests)
  {
    if questId in quests.entries {
      WalkShape(questId, quests, []);
      if Walk(questId, quests, []).Ok? {
        var w := Walk(questId, quests, []).value;
        var c := Reverse(w);
        forall i | 0 <= i < |c| - 1
          ensures Link(c[i + 1], c[i], quests)
        {
          assert Link(w[|w| - 2 - i], w[|w| - 1 - i], quests);
        }
        assert forall i :: 0 <= i < |w| ==> w[i] in quests.entries by {
          forall i | 0 <= i < |w|
            ensures w[i] in quests.entries
          {
            if i < |w| - 1 {
              assert Link(w[i], w[i + 1], quests);
            }
          }
        }
      }
    }
  }

  /** The source's loop, with no guard, cut off after `fuel` links: `None`
      when it is still walking. */
  function SourceWalk(current: string, quests: Registry, chain: seq<string>, fuel: nat): Option<Result<seq<string>>>
    requires current in quests.entries
    decreases fuel
  {
    var walked := chain + [current];
    var prereq := quests.entries[current].prerequisite;
    if prereq == NoPrerequisite then Some(Ok(walked))
    else if prereq !in quests.entries then Some(Err(QuestNotFound))
    else if fuel == 0 then None
    else SourceWalk(prereq, quests, walked, fuel - 1)
  }

  /** The source's `get_quest_prerequisite_chain` allowed `fuel` links. */
  function SourceChain(questId: string, quests: Registry, fuel: nat): Option<Result<seq<string>>> {
    if questId !in quests.entries then Some(Err(QuestNotFound))
    else
      match SourceWalk(questId, quests, [], fuel)
      case None => None
      case Some(Ok(w)) => Some(Ok(Reverse(w)))
      case Some(Err(e)) => Some(Err(e))
  }

  /** Wherever the guarded walk does not stop at a cycle, the source's loop
      returns the same, within as many links as there are unvisited quests. */
  lemma {:induction false} WalkMatchesSource(current: string, quests: Registry, chain: seq<string>)
    requires current in quests.entries
    requires Walk(current, quests, chain) != Err(PrerequisiteCycle)
    ensures SourceWalk(current, quests, chain, |quests.entries.Keys - Visited(chain)|) == Some(Walk(current, quests, chain))
    decreases quests.entries.Keys - Visited(chain)
  {
    var prereq := quests.entries[current].prerequisite;
    if prereq != NoPrerequisite && prereq in quests.entries {
      FollowLink(current, quests, chain);
      WalkMatchesSource(prereq, quests, chain + [current]);
    } else {
      LastLink(current, quests, chain, |quests.entries.Keys - Visited(chain)|);
    }
  }

  /** Where the prerequisite is `NONE` or unknown, both walks stop there. */
  lemma LastLink(current: string, quests: Registry, chain: seq<string>, fuel: nat)
    requires current in quests.entries && current !in chain
    requires quests.entries[current].prerequisite == NoPrerequisite || quests.entries[current].prerequisite !in quests.entries
    ensures SourceWalk(current, quests, chain, fuel) == Some(Walk(current, quests, chain))
  {
  }

  /** Following one link, both walks move on to the prerequisite with the
      same chain, and one unvisited quest fewer is left. */
  lemma FollowLink(current: string, quests: Registry, chain: seq<string>)
    requires current in quests.entries
    requires Link(current, quests.entries[current].prerequisite, quests)
    requires quests.entries[current].prerequisite in quests.entries
    requires Walk(current, quests, chain) != Err(PrerequisiteCycle)
    ensures var prereq, walked, unvisited := quests.entries[current].prerequisite, chain + [current], quests.entries.Keys - Visited(chain);
      && quests.entries.Keys - Visited(walked) < unvisited
      && |quests.entries.Keys - Visited(walked)| == |unvisited| - 1
      && Walk(current, quests, chain) == Walk(prereq, quests, walked)
      && SourceWalk(current, quests, chain, |unvisited|) == SourceWalk(prereq, quests, walked, |unvisited| - 1)
      && Walk(prereq, quests, walked) != Err(PrerequisiteCycle)
  {
    assert current !in chain;
    PassOne(quests.entries.Keys, chain, current);
    FewerUnvisited(quests.entries.Keys, chain, current);
  }

  /** A set of registered quests each of which has a real prerequisite
      inside the set: the source's walk never leaves it. */
  ghost predicate Closed(s: set<string>, quests: Registry) {
    forall x {:trigger ClosedAt(x, s, quests)} :: x in s ==> ClosedAt(x, s, quests)
  }

  predicate ClosedAt(x: string, s: set<string>, quests: Registry) {
    x in quests.entries && quests.entries[x].prerequisite != NoPrerequisite && quests.entries[x].prerequisite in s
  }

  lemma {:induction false} ClosedNeverEnds(current: string, quests: Registry, s: set<string>, chain: seq<string>, fuel: nat)
    requires Closed(s, quests) && current in s && current in quests.entries
    ensures SourceWalk(current, quests, chain, fuel) == None
    decreases fuel
  {
    assert ClosedAt(current, s, quests);
    assert ClosedAt(quests.entries[current].prerequisite, s, quests);
    if fuel > 0 {
      ClosedNeverEnds(quests.entries[current].prerequisite, quests, s, chain + [current], fuel - 1);
    }
  }

  /** Where the guarded walk stops at a cycle, the source's loop never ends:
      the quests from the repeated one onward form a closed set. */
  lemma {:induction false} CycleNeverEnds(current: string, quests: Registry, chain: seq<string>, fuel: nat)
    requires current in quests.entries
    requires Linked(chain + [current], quests)
    requires Walk(current, quests, chain) == Err(PrerequisiteCycle)
    ensures SourceWalk(current, quests, chain, fuel) == None
    decreases quests.entries.Keys - Visited(chain)
  {
    var walked := chain + [current];
    if current in chain {
      var j :| 0 <= j < |chain| && chain[j] == current;
      var loop := set i | j <= i < |chain| :: chain[i];
      forall x | x in loop
        ensures ClosedAt(x, loop, quests)
      {
        var i :| j <= i < |chain| && chain[i] == x;
        assert Link(walked[i], walked[i + 1], quests);
        if i < |chain| - 1 {
          assert walked[i + 1] == chain[i + 1];
        } else {
          assert walked[i + 1] == current == chain[j];
        }
      }
      ClosedNeverEnds(current, quests, loop, chain, fuel);
    } else {
      var prereq := quests.entries[current].prerequisite;
      PassOne(quests.entries.Keys, chain, current);
      if fuel > 0 {
        var next := walked + [prereq];
        assert Linked(next, quests) by {
          assert forall i :: 0 <= i < |walked| ==> next[i] == walked[i];
        }
        CycleNeverEnds(prereq, quests, walked, fuel - 1);
      }
    }
  }

  /** The guarded chain and the source's unguarded one agree: where the
      model reports a cycle the source's loop runs forever, and everywhere
      else the source returns the same result or error once it is allowed
      as many links as there are quests. */
  lemma ChainMatchesSource(questId: string, quests: Registry)
    ensures PrerequisiteChain(questId, quests) != Err(PrerequisiteCycle) ==>
      SourceChain(questId, quests, |quests.entries.Keys|) == Some(PrerequisiteChain(questId, quests))
    ensures PrerequisiteChain(questId, quests) == Err(PrerequisiteCycle) ==>
      forall fuel: nat :: SourceChain(questId, quests, fuel) == None
  {
    if questId in quests.entries {
      assert Visited([]) == {};
      assert quests.entries.Keys - Visited([]) == quests.entries.Keys;
      if Walk(questId, quests, []) == Err(PrerequisiteCycle) {
        forall fuel: nat
          ensures SourceChain(questId, quests, fuel) == None
        {
          CycleNeverEnds(questId, quests, [], fuel);
        }
      } else {
        WalkMatchesSource(questId, quests, []);
      }
    }
  }

  // ---------------------------------------------------------------------
  // validate_quest_prerequisites
  // ---------------------------------------------------------------------

  predicate PrerequisiteKnown(q: Quest, quests: Registry) {
    q.prerequisite == NoPrerequisite || q.prerequisite in quests.entries
  }

  predicate AllPrerequisitesKnown(quests: Registry) {
    forall k :: k in quests.entries ==> PrerequisiteKnown(quests.entries[k], quests)
  }

  /** `validate_quest_prerequisites`: QuestNotFoundError exactly when some
      quest names a prerequisite that is neither "NONE" nor registered. */
  method ValidateQuestPrerequisites(quests: Registry) returns (o: Outcome)
    ensures o.Pass? <==> AllPrerequisitesKnown(quests)
    ensures o.Fail? ==> o.error == QuestNotFound
  {
    var i := 0;
    while i < |quests.keys|
      invariant 0 <= i <= |quests.keys|
      invariant forall j :: 0 <= j < i ==> PrerequisiteKnown(quests.entries[quests.keys[j]], quests)
    {
      var quest := quests.entries[quests.keys[i]];
      if quest.prerequisite != NoPrerequisite && quest.prerequisite !in quests.entries {
        return Fail(QuestNotFound);
      }
      i := i + 1;
    }
    forall k | k in quests.entries
      ensures PrerequisiteKnown(quests.entries[k], quests)
    {
      var j :| 0 <= j < |quests.keys| && quests.keys[j] == k;
    }
    o := Pass;
  }

  lemma {:induction false} WalkFindsEveryLink(current: string, quests: Registry, chain: seq<string>)
    requires current in quests.entries && AllPrerequisitesKnown(quests)
    ensures Walk(current, quests, chain) != Err(QuestNotFound)
    decreases quests.entries.Keys - Visited(chain)
  {
    if current !in chain {
      var prereq := quests.entries[current].prerequisite;
      if prereq != NoPrerequisite {
        PassOne(quests.entries.Keys, chain, current);
        WalkFindsEveryLink(prereq, quests, chain + [current]);
      }
    }
  }

  /** In a registry that passes validation the chain of a registered quest
      never misses a link: it is either a chain or a cycle. */
  lemma ValidatedChainsHaveNoMissingLinks(questId: string, quests: Registry)
    requires AllPrerequisitesKnown(quests) && questId in quests.entries
    ensures PrerequisiteChain(questId, quests).Ok? || PrerequisiteChain(questId, quests) == Err(PrerequisiteCycle)
  {
    WalkFindsEveryLink(questId, quests, []);
  }

  // ---------------------------------------------------------------------
  // Statistics
  // ---------------------------------------------------------------------

  /** A fraction `num / den`, standing in for the source's float. */
  datatype Ratio = Ratio(num: int, den: int)

  /** `get_quest_completion_percentage`: 0 for an empty registry, otherwise
      100 times the length of the completed list over the number of
      registered quests. Every id in the completed list counts, registered
      or not. */
  function CompletionPercentage(hero: Record, quests: Registry): (p: Ratio)
    ensures p.den > 0 && p.num >= 0
    ensures |quests.keys| == 0 ==> p.num == 0
    ensures |quests.keys| > 0 ==> p.num * |quests.keys| == 100 * |hero.completedQuests| * p.den
  {
    var total := |quests.keys|;
    if total == 0 then Ratio(0, 1) else Ratio(100 * |hero.completedQuests|, total)
  }

  /** With no more completed ids than registered quests the percentage is
      between 0 and 100. */
  lemma PercentageInRange(hero: Record, quests: Registry)
    requires |hero.completedQuests| <= |quests.keys|
    ensures 0 <= CompletionPercentage(hero, quests).num <= 100 * CompletionPercentage(hero, quests).den
  {
  }

  /** Completed ids that are no longer registered still count, so the
      percentage can pass 100: one registered quest and two completed ids
      give 200. */
  lemma PercentageCanPassHundred(hero: Record)
    requires hero.completedQuests == ["a", "b"]
    ensures
      var quests: Registry := Dict(["a"], map["a" := Quest("a", "A", "", 0, 0, 1, NoPrerequisite)]);
      CompletionPercentage(hero, quests) == Ratio(200, 1)
  {
  }

  /** The rewards of the registered ids of a list, summed. */
  function RewardTotals(ids: seq<string>, quests: Registry): QuestRewards {
    if ids == [] then QuestRewards(0, 0)
    else
      var front := RewardTotals(ids[..|ids| - 1], quests);
      var last := ids[|ids| - 1];
      if last in quests.entries then
        QuestRewards(front.xp + quests.entries[last].rewardXp, front.gold + quests.entries[last].rewardGold)
      else front
  }

  /** `get_total_quest_rewards_earned`: the sum over the completed list,
      skipping ids that are not registered. */
  method GetTotalQuestRewardsEarned(hero: Record, quests: Registry) returns (totals: QuestRewards)
    ensures totals == RewardTotals(hero.completedQuests, quests)
  {
    var totalXp, totalGold := 0, 0;
    var ids := hero.completedQuests;
    var i := 0;
    while i < |ids|
      invariant 0 <= i <= |ids|
      invariant QuestRewards(totalXp, totalGold) == RewardTotals(ids[..i], quests)
    {
      assert ids[..i + 1][..i] == ids[..i];
      if ids[i] in quests.entries {
        var quest := quests.entries[ids[i]];
        totalXp, totalGold := totalXp + quest.rewardXp, totalGold + quest.rewardGold;
      }
      i := i + 1;
    }
    assert ids[..|ids|] == ids;
    totals := QuestRewards(totalXp, totalGold);
  }

  /** Completing a quest adds exactly its rewards to the totals, and those
      are the rewards it returns. */
  lemma CompleteAddsToTotals(r: Record, questId: string, quests: Registry)
    requires CompleteQuestStep(r, questId, quests).result.Ok?
    ensures
      var s := CompleteQuestStep(r, questId, quests);
      var before := RewardTotals(r.completedQuests, quests);
      RewardTotals(s.after.completedQuests, quests)
        == QuestRewards(before.xp + s.result.value.xp, before.gold + s.result.value.gold)
  {
    var ids := r.completedQuests + [questId];
    assert ids[..|ids| - 1] == r.completedQuests;
  }
}
