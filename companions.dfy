/**
  The catalog of the seven health-domain companions: identifiers, mood
  emojis, questionnaire items and suggested micro-quests (narrative text such
  as blurbs and nudges is not part of the model), with the lookups over it.
*/
module Companions {

  import opened Wrappers
  import opened Text
  import opened Records

  /** A questionnaire item: a 0..100 slider or a choice among labelled options
      (the answer is the option's index). */
  datatype QuestionKind = Slider | Choice(options: seq<string>)

  datatype Question = Question(id: string, kind: QuestionKind)

  datatype MicroQuest = MicroQuest(text: string, icon: string)

  datatype MoodEmojis = MoodEmojis(low: string, medium: string, high: string)

  datatype Companion = Companion(
    id: string,
    name: string,
    emoji: string,
    moodEmojis: MoodEmojis,
    questions: seq<Question>,
    microQuests: seq<MicroQuest>)

  const Pip := Companion("pip", "Pip", "🌱", MoodEmojis("🥀", "🌱", "🌿"),
    [Question("pip-1", Slider)],
    [MicroQuest("Take a 10-minute walk outside", "🚶"),
     MicroQuest("Notice when your energy peaks today", "📝"),
     MicroQuest("Try a 2-minute stretch break", "🧘")])

  const Luna := Companion("luna", "Luna", "🦉", MoodEmojis("😴", "🦉", "🌙"),
    [Question("luna-1", Slider)],
    [MicroQuest("No screens 30 min before bed tonight", "📵"),
     MicroQuest("Try a 5-minute breathing exercise before sleep", "🌬️"),
     MicroQuest("Notice how you feel when you wake up tomorrow", "☀️")])

  const Ember := Companion("ember", "Ember", "🦊", MoodEmojis("🦥", "🦊", "🏃"),
    [Question("ember-1", Slider)],
    [MicroQuest("Do 5 minutes of movement you enjoy", "💃"),
     MicroQuest("Take the stairs today", "🪜"),
     MicroQuest("Stretch for 3 minutes", "🙆")])

  const Sage := Companion("sage", "Sage", "🐘", MoodEmojis("🌫️", "🐘", "🧠"),
    [Question("sage-1", Slider)],
    [MicroQuest("Take 3 deep breaths right now", "🌬️"),
     MicroQuest("Write down one thing on your mind", "📝"),
     MicroQuest("Step outside for 2 minutes", "🌳")])

  const Coral := Companion("coral", "Coral", "🦦", MoodEmojis("😔", "🦦", "😊"),
    [Question("coral-1", Slider),
     Question("coral-2", Choice(["Anxiety or worry", "Sadness or low mood",
       "Frustration or irritation", "Content or calm", "A mix of everything"]))],
    [MicroQuest("Text someone you care about", "💬"),
     MicroQuest("Name 3 things you're grateful for", "🙏"),
     MicroQuest("Do one small thing that makes you smile", "😊")])

  const Brook := Companion("brook", "Brook", "🐻", MoodEmojis("🍂", "🐻", "🍯"),
    [Question("brook-1", Slider)],
    [MicroQuest("Drink a glass of water right now", "🥤"),
     MicroQuest("Eat one more vegetable today", "🥗"),
     MicroQuest("Notice how you feel after your next meal", "🍽️")])

  const Oak := Companion("oak", "Oak", "🐢", MoodEmojis("🌪️", "🐢", "🌳"),
    [Question("oak-1", Slider)],
    [MicroQuest("Take 5 slow breaths", "🌬️"),
     MicroQuest("Step away from screens for 10 minutes", "🚶"),
     MicroQuest("Write down what's weighing on you", "📓")])

  /** `companions`, keyed by id. */
  const Catalog: map<string, Companion> := map[
    "pip" := Pip, "luna" := Luna, "ember" := Ember, "sage" := Sage,
    "coral" := Coral, "brook" := Brook, "oak" := Oak]

  /** `companionOrder`. */
  const CompanionOrder: seq<string> := ["pip", "luna", "ember", "sage", "coral", "brook", "oak"]

  /** The number of companions, `companionOrder.length`. */
  const CompanionCount: nat := 7

  lemma CompanionCountIsOrderLength()
    ensures |CompanionOrder| == CompanionCount
  {
  }

  /** `getCompanion`: `None` for an unknown id. */
  function GetCompanion(id: string): (r: Option<Companion>)
    ensures r.Some? <==> id in CompanionOrder
    ensures r.Some? ==> r.value.id == id
  {
    CatalogKeysAreOrder();
    if id in Catalog then Some(Catalog[id]) else None
  }

  /** `getAllCompanions`: the seven companions in `companionOrder` order. */
  function GetAllCompanions(): (r: seq<Companion>)
    ensures |r| == |CompanionOrder| == 7
    ensures forall i :: 0 <= i < |r| ==> r[i].id == CompanionOrder[i] && r[i] == Catalog[r[i].id]
  {
    CatalogKeysAreOrder();
    seq(|CompanionOrder|, i requires 0 <= i < |CompanionOrder| => Catalog[CompanionOrder[i]])
  }

  /** `getMoodEmoji(companion, level)`: the level's mood emoji when both are
      given, otherwise the companion's own emoji, and the seedling when there
      is no companion. Each `||` falls back past an empty string. */
  function GetMoodEmoji(companion: Option<Companion>, level: Option<Level>): (r: string)
    ensures companion.None? ==> r == "🌱"
    ensures companion.Some? && level.None? && companion.value.emoji != "" ==> r == companion.value.emoji
    ensures companion.Some? && level.Some? ==>
      r == (if MoodFor(companion.value.moodEmojis, level.value) != ""
            then MoodFor(companion.value.moodEmojis, level.value) else companion.value.emoji)
  {
    if companion.None? || level.None? then
      (if companion.Some? && companion.value.emoji != "" then companion.value.emoji else "🌱")
    else
      var mood := MoodFor(companion.value.moodEmojis, level.value);
      if mood != "" then mood else companion.value.emoji
  }

  function MoodFor(m: MoodEmojis, level: Level): string {
    match level
    case Low => m.low
    case Medium => m.medium
    case High => m.high
  }

  // ---------------------------------------------------------------------
  // Catalog invariants
  // ---------------------------------------------------------------------

  /** The keys of the catalog are exactly the ids of `companionOrder`, which
      lists each of them once, and each companion's id equals its key. */
  lemma CatalogKeysAreOrder()
    ensures Catalog.Keys == set id | id in CompanionOrder
    ensures forall i, j :: 0 <= i < j < |CompanionOrder| ==> CompanionOrder[i] != CompanionOrder[j]
    ensures forall id :: id in Catalog ==> Catalog[id].id == id
  {
  }

  /** `qid` is `owner`, a `-`, and one digit. */
  predicate IsQuestionIdOf(owner: string, qid: string) {
    |qid| == |owner| + 2 && qid[..|owner| + 1] == owner + "-" && IsDigit(qid[|owner| + 1])
  }

  predicate QuestionIdsOwned(c: Companion) {
    forall i :: 0 <= i < |c.questions| ==> IsQuestionIdOf(c.id, c.questions[i].id)
  }

  /** Every question id is its companion's id, a `-`, and a digit. */
  lemma QuestionIdsArePrefixed()
    ensures forall id :: id in Catalog ==> QuestionIdsOwned(Catalog[id])
  {
    assert QuestionIdsOwned(Pip);
    assert QuestionIdsOwned(Luna);
    assert QuestionIdsOwned(Ember);
    assert QuestionIdsOwned(Sage);
    assert IsQuestionIdOf("coral", "coral-1");
    assert IsQuestionIdOf("coral", "coral-2");
    assert QuestionIdsOwned(Coral);
    assert QuestionIdsOwned(Brook);
    assert QuestionIdsOwned(Oak);
  }

  /** The seven ids already differ in their first letter. */
  lemma FirstLettersDistinct()
    ensures forall a, b :: a in Catalog && b in Catalog && a != [] && b != [] && a[0] == b[0] ==> a == b
    ensures forall a :: a in Catalog ==> a != []
  {
  }

  /** No companion id is a prefix of another, so prefix grouping sends each
      answer key to at most one companion. */
  lemma NoIdIsPrefixOfAnother()
    ensures forall a, b :: a in Catalog && b in Catalog && a != b ==> !StartsWith(a, b)
  {
    FirstLettersDistinct();
    forall a, b | a in Catalog && b in Catalog && StartsWith(a, b) ensures a == b {
      assert b[0] == a[..|b|][0];
    }
  }

  /** A question id starts with its owner's id and with no other. */
  lemma QuestionBelongsToOwnerOnly(id: string, i: nat, other: string)
    requires id in Catalog && i < |Catalog[id].questions| && other in Catalog
    ensures StartsWith(Catalog[id].questions[i].id, other) <==> other == id
  {
    var qid := Catalog[id].questions[i].id;
    QuestionIdsArePrefixed();
    assert IsQuestionIdOf(id, qid);
    assert qid[..|id|] == (id + "-")[..|id|] == id;
    FirstLettersDistinct();
    if StartsWith(qid, other) {
      assert other[0] == qid[0] == id[0];
    }
  }

  /** Every companion has at least one question and exactly three
      micro-quests: indices 0, 1 and 2 resolve, nothing else does. */
  lemma QuestShapes()
    ensures forall id :: id in Catalog ==> |Catalog[id].questions| >= 1 && |Catalog[id].microQuests| == 3
  {
  }

  /** Companion ids contain no `-`, so a key `id-suffix` splits back into the id. */
  lemma IdsHaveNoHyphen()
    ensures forall id, i :: id in Catalog && 0 <= i < |id| ==> id[i] != '-'
  {
  }
}
