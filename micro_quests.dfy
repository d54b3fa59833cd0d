/**
  The quest-picking screen: the three companions most in need, a selection
  of micro-quest keys toggled on and off, and a form for custom quests.
*/
module MicroQuests {

  import opened Wrappers
  import opened Text
  import opened Records
  import opened Companions
  import opened Scoring

  /** `scores.slice(0, 3)`: the companions whose quests are offered. */
  function PriorityCompanions(r: Responses): (p: seq<RankedCompanion>)
    requires AllNumeric(r) || NoAnswers(r)
    ensures |p| == 3 && SortedByAverage(p)
    ensures AllNumeric(r) ==> p == Ranked(SortByScore(ScoreCompanions(r))[..3])
    ensures NoAnswers(r) ==> forall i :: 0 <= i < |p| ==> p[i].id == CompanionOrder[i]
  {
    RankedSplit(SortByScore(ScoreCompanions(r)), 3);
    RankByAverage(r)[..3]
  }

  /** Opened from the map with no answers, as with the empty `responses` of
      a restored session, the picker offers Pip, Luna and Ember. */
  lemma NoAnswersOfferFirstThree(r: Responses)
    requires NoAnswers(r)
    ensures var p := PriorityCompanions(r);
      p[0].id == "pip" && p[1].id == "luna" && p[2].id == "ember"
  {
    var p := PriorityCompanions(r);
    assert p[0].id == CompanionOrder[0] && p[1].id == CompanionOrder[1] && p[2].id == CompanionOrder[2];
  }

  /** `prev.filter(k => k !== key)`. */
  function Without(s: seq<string>, key: string): (r: seq<string>)
    ensures key !in r
    ensures forall x :: x != key ==> (x in r <==> x in s)
    ensures |r| <= |s|
  {
    if s == [] then []
    else if s[0] == key then Without(s[1..], key)
    else [s[0]] + Without(s[1..], key)
  }

  /** Selections of this shape hold each key at most once. */
  predicate NoDuplicates(s: seq<string>) {
    forall i, j :: 0 <= i < j < |s| ==> s[i] != s[j]
  }

  /** Removing keys keeps the rest free of duplicates. */
  lemma {:induction false} WithoutKeepsNoDuplicates(s: seq<string>, key: string)
    requires NoDuplicates(s)
    ensures NoDuplicates(Without(s, key))
  {
    if s != [] {
      assert NoDuplicates(s[1..]);
      WithoutKeepsNoDuplicates(s[1..], key);
      if s[0] != key {
        assert s[0] !in s[1..];
        assert s[0] !in Without(s[1..], key);
      }
    }
  }

  /** Removing a key that is absent changes nothing. */
  lemma {:induction false} WithoutAbsent(s: seq<string>, key: string)
    requires key !in s
    ensures Without(s, key) == s
  {
    if s != [] {
      WithoutAbsent(s[1..], key);
    }
  }

  /** A selection key added at the end is removed again. */
  lemma {:induction false} WithoutAppended(s: seq<string>, key: string)
    requires key !in s
    ensures Without(s + [key], key) == s
  {
    if s == [] {
      assert [key][1..] == [];
    } else {
      assert (s + [key])[1..] == s[1..] + [key];
      WithoutAppended(s[1..], key);
    }
  }

  /** The selection after toggling `key`: removed when present, appended
      otherwise. */
  function Toggle(s: seq<string>, key: string): (r: seq<string>)
    ensures key in r <==> key !in s
    ensures forall x :: x != key ==> (x in r <==> x in s)
  {
    if key in s then Without(s, key) else s + [key]
  }

  /** Toggling flips exactly the membership of `key`, keeps a duplicate-free
      selection duplicate-free, and toggling twice gives back the same keys
      (the very same list when the key was not selected before). */
  lemma ToggleProperties(s: seq<string>, key: string)
    requires NoDuplicates(s)
    ensures key in Toggle(s, key) <==> key !in s
    ensures forall x :: x != key ==> (x in Toggle(s, key) <==> x in s)
    ensures NoDuplicates(Toggle(s, key))
    ensures forall x :: x in Toggle(Toggle(s, key), key) <==> x in s
    ensures key !in s ==> Toggle(Toggle(s, key), key) == s
  {
    WithoutKeepsNoDuplicates(s, key);
    if key !in s {
      WithoutAppended(s, key);
    }
  }

  /** The key of catalog micro-quest `index` of a companion. */
  function SelectionKey(companionId: string, index: nat): string {
    companionId + "-" + NatToString(index)
  }

  /** The default icon of the custom-quest form. */
  const DefaultCustomIcon := "✨"

  class QuestPicker {
    var selectedQuests: seq<string>
    var customQuests: seq<CustomQuest>
    var customQuestText: string
    var customQuestIcon: string
    var customQuestCompanion: string
    var showCustomForm: bool

    ghost predicate Valid()
      reads this
    {
      NoDuplicates(selectedQuests)
    }

    constructor ()
      ensures Valid()
      ensures selectedQuests == [] && customQuests == []
      ensures customQuestText == "" && customQuestIcon == DefaultCustomIcon && customQuestCompanion == ""
      ensures !showCustomForm
    {
      selectedQuests := [];
      customQuests := [];
      customQuestText := "";
      customQuestIcon := DefaultCustomIcon;
      customQuestCompanion := "";
      showCustomForm := false;
    }

    /** `toggleQuest`. */
    method ToggleQuest(companionId: string, questIndex: nat)
      requires Valid()
      modifies this
      ensures Valid()
      ensures selectedQuests == Toggle(old(selectedQuests), SelectionKey(companionId, questIndex))
      ensures customQuests == old(customQuests) && customQuestText == old(customQuestText)
      ensures customQuestIcon == old(customQuestIcon) && customQuestCompanion == old(customQuestCompanion)
      ensures showCustomForm == old(showCustomForm)
    {
      var key := companionId + "-" + NatToString(questIndex);
      ToggleProperties(selectedQuests, key);
      if key in selectedQuests {
        selectedQuests := Without(selectedQuests, key);
      } else {
        selectedQuests := selectedQuests + [key];
      }
    }

    /** `handleAddCustomQuest`: ignored while the trimmed text or the
        companion is empty; otherwise adds the quest with trimmed text,
        selects its `custom-` id and resets the form. The clock reading `now`
        is one not used for an earlier custom id, so the selection stays free
        of duplicates. */
    method HandleAddCustomQuest(now: nat)
      requires Valid()
      requires "custom-" + NatToString(now) !in selectedQuests
      modifies this
      ensures Valid()
      ensures Trim(old(customQuestText)) == [] || old(customQuestCompanion) == [] ==> unchanged(this)
      ensures Trim(old(customQuestText)) != [] && old(customQuestCompanion) != [] ==>
        var id := "custom-" + NatToString(now);
        && customQuests == old(customQuests) +
          [CustomQuest(id, old(customQuestCompanion), Trim(old(customQuestText)), old(customQuestIcon))]
        && selectedQuests == old(selectedQuests) + [id]
        && StartsWith(id, "custom-")
        && customQuestText == "" && customQuestIcon == DefaultCustomIcon && customQuestCompanion == ""
        && !showCustomForm
    {
      if Trim(customQuestText) == [] || customQuestCompanion == [] {
        return;
      }
      var id := "custom-" + NatToString(now);
      var quest := CustomQuest(id, customQuestCompanion, Trim(customQuestText), customQuestIcon);
      customQuests := customQuests + [quest];
      selectedQuests := selectedQuests + [id];
      customQuestText := "";
      customQuestIcon := DefaultCustomIcon;
      customQuestCompanion := "";
      showCustomForm := false;
      assert id[..7] == "custom-";
    }

    /** `removeCustomQuest`: drops the quest and its selection. */
    method RemoveCustomQuest(questId: string)
      requires Valid()
      modifies this
      ensures Valid()
      ensures customQuests == WithoutCustom(old(customQuests), questId)
      ensures selectedQuests == Without(old(selectedQuests), questId)
      ensures customQuestText == old(customQuestText) && customQuestIcon == old(customQuestIcon)
      ensures customQuestCompanion == old(customQuestCompanion) && showCustomForm == old(showCustomForm)
    {
      WithoutKeepsNoDuplicates(selectedQuests, questId);
      customQuests := WithoutCustom(customQuests, questId);
      selectedQuests := Without(selectedQuests, questId);
    }

    /** `handleFinish`: hands the selected keys and the custom quests on. */
    method HandleFinish() returns (keys: seq<string>, customs: seq<CustomQuest>)
      ensures keys == selectedQuests && customs == customQuests
    {
      keys := selectedQuests;
      customs := customQuests;
    }
  }

  /** `prev.filter(q => q.id !== questId)` on custom quests. */
  function WithoutCustom(cs: seq<CustomQuest>, id: string): (r: seq<CustomQuest>)
    ensures forall c :: c in r <==> c in cs && c.id != id
    ensures |r| <= |cs|
  {
    if cs == [] then []
    else if cs[0].id == id then WithoutCustom(cs[1..], id)
    else [cs[0]] + WithoutCustom(cs[1..], id)
  }
}
