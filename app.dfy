/**
  The application shell: the check-in flow over the seven companions
  (merging each companion's answers, then scoring, ranking and classifying
  after the last one), and the quest list with its garden side effect.
*/
module App {

  import opened Wrappers
  import opened Text
  import opened Records
  import opened Companions
  import opened Scoring
  import opened HealthTypes

  datatype Screen = Landing | Auth | Onboarding | CheckIn | Dashboard | Quests | BloodLayer | Reflection | Map

  // ---------------------------------------------------------------------
  // Quest icons: `getQuestIcon`
  // ---------------------------------------------------------------------

  /** The keyword rules in the order they are tried, with their icons. */
  const IconRules: seq<(seq<string>, string)> := [
    (["walk", "step"], "🚶"),
    (["water", "drink"], "💧"),
    (["breath", "meditation"], "🧘"),
    (["sleep", "bed"], "🌙"),
    (["stretch"], "🙆"),
    (["vegetable", "food", "eat"], "🥗"),
    (["friend", "text", "call"], "💬"),
    (["grateful", "journal"], "📝"),
    (["screen", "phone"], "📵"),
    (["outside", "nature"], "🌳")]

  const DefaultIcon := "✨"

  predicate ContainsAny(t: string, words: seq<string>) {
    exists w :: w in words && Contains(t, w)
  }

  /** The icon of the first rule one of whose keywords occurs in `t`, or
      the default when none does. */
  function FirstRuleIcon(t: string, rules: seq<(seq<string>, string)>): (icon: string)
    ensures (forall k :: 0 <= k < |rules| ==> !ContainsAny(t, rules[k].0)) ==> icon == DefaultIcon
    ensures (exists k :: 0 <= k < |rules| && ContainsAny(t, rules[k].0)) ==>
      exists k :: && 0 <= k < |rules| && ContainsAny(t, rules[k].0) && icon == rules[k].1
                  && forall j :: 0 <= j < k ==> !ContainsAny(t, rules[j].0)
  {
    if rules == [] then DefaultIcon
    else if ContainsAny(t, rules[0].0) then rules[0].1
    else
      var icon := FirstRuleIcon(t, rules[1..]);
      assert forall k :: 1 <= k < |rules| ==> rules[k] == rules[1..][k - 1];
      if exists k :: 0 <= k < |rules| && ContainsAny(t, rules[k].0) then
        var k :| 0 <= k < |rules| && ContainsAny(t, rules[k].0);
        assert ContainsAny(t, rules[1..][k - 1].0);
        var m :| && 0 <= m < |rules[1..]| && ContainsAny(t, rules[1..][m].0) && icon == rules[1..][m].1
                 && forall j :: 0 <= j < m ==> !ContainsAny(t, rules[1..][j].0);
        icon
      else icon
  }

  /** `getQuestIcon`: the keyword tests run on the lower-cased text in a fixed
      order and the first hit decides; with no hit the icon is the sparkle. */
  function GetQuestIcon(questText: string): (icon: string)
    ensures (forall k :: 0 <= k < |IconRules| ==> !ContainsAny(Lower(questText), IconRules[k].0)) ==>
      icon == DefaultIcon
    ensures (exists k :: 0 <= k < |IconRules| && ContainsAny(Lower(questText), IconRules[k].0)) ==>
      exists k :: && 0 <= k < |IconRules| && ContainsAny(Lower(questText), IconRules[k].0)
                  && icon == IconRules[k].1 && icon != DefaultIcon
                  && forall j :: 0 <= j < k ==> !ContainsAny(Lower(questText), IconRules[j].0)
  {
    FirstRuleIcon(Lower(questText), IconRules)
  }

  /** Case does not matter, and the earlier rule wins: any quest that opens
      with "Walk" gets the walking icon, even "Walk outside", which also
      names a nature keyword. */
  lemma WalkQuestIcon(rest: string)
    ensures GetQuestIcon("Walk" + rest) == "🚶"
  {
    var t := Lower("Walk" + rest);
    assert t[..4] == "walk" by {
      assert t[0] == LowerChar('W') == 'w';
    }
    assert StartsWith(t, "walk");
    assert ContainsAny(t, IconRules[0].0) by {
      assert "walk" in IconRules[0].0;
    }
  }

  /** The icon depends on the text only up to ASCII case. */
  lemma IconIgnoresCase(questText: string)
    ensures GetQuestIcon(Lower(questText)) == GetQuestIcon(questText)
  {
    LowerIdempotent(questText);
  }

  // ---------------------------------------------------------------------
  // The garden palette
  // ---------------------------------------------------------------------

  datatype NatureElement = NatureElement(emoji: string, name: string, kind: string)

  /** `natureElements`: the palette a completed quest draws from. */
  const NatureElements: seq<NatureElement> := [
    NatureElement("🌸", "Cherry Blossom", "flower"),
    NatureElement("🌺", "Hibiscus", "flower"),
    NatureElement("🌻", "Sunflower", "flower"),
    NatureElement("🌷", "Tulip", "flower"),
    NatureElement("🌹", "Rose", "flower"),
    NatureElement("💐", "Bouquet", "flower"),
    NatureElement("🪻", "Hyacinth", "flower"),
    NatureElement("🌼", "Daisy", "flower"),
    NatureElement("🌱", "Seedling", "plant"),
    NatureElement("🌿", "Herb", "plant"),
    NatureElement("☘️", "Clover", "plant"),
    NatureElement("🍀", "Four Leaf Clover", "plant"),
    NatureElement("🌲", "Pine Tree", "tree"),
    NatureElement("🌳", "Tree", "tree"),
    NatureElement("🌴", "Palm Tree", "tree"),
    NatureElement("🎋", "Bamboo", "tree"),
    NatureElement("🍄", "Mushroom", "fungi"),
    NatureElement("🦋", "Butterfly", "creature"),
    NatureElement("🐝", "Bee", "creature"),
    NatureElement("🐞", "Ladybug", "creature")]

  // ---------------------------------------------------------------------
  // Quest-list operations
  // ---------------------------------------------------------------------

  /** Some quest has this text and companion. */
  predicate HasQuest(qs: seq<Quest>, text: string, companionId: string) {
    exists i :: 0 <= i < |qs| && qs[i].text == text && qs[i].companionId == companionId
  }

  /** No two quests share their (companion, text) pair. */
  predicate PairsUnique(qs: seq<Quest>) {
    forall i, j :: 0 <= i < j < |qs| ==> !(qs[i].text == qs[j].text && qs[i].companionId == qs[j].companionId)
  }

  /** The duplicate check of the add handlers: unchanged when the pair is
      already there, otherwise `q` appended. */
  function AddIfNew(qs: seq<Quest>, q: Quest): (r: seq<Quest>)
    ensures HasQuest(r, q.text, q.companionId)
    ensures |qs| <= |r| <= |qs| + 1 && r[..|qs|] == qs
    ensures |r| == |qs| + 1 <==> !HasQuest(qs, q.text, q.companionId)
    ensures |r| == |qs| + 1 ==> r[|qs|] == q
  {
    assert (qs + [q])[|qs|] == q;
    if HasQuest(qs, q.text, q.companionId) then qs else qs + [q]
  }

  /** Adding never creates a second quest with the same pair, and grows the
      list by exactly one exactly when the pair is new. */
  lemma AddIfNewKeepsPairsUnique(qs: seq<Quest>, q: Quest)
    requires PairsUnique(qs)
    ensures PairsUnique(AddIfNew(qs, q))
    ensures |AddIfNew(qs, q)| == |qs| + (if HasQuest(qs, q.text, q.companionId) then 0 else 1)
    ensures HasQuest(AddIfNew(qs, q), q.text, q.companionId)
  {
    if !HasQuest(qs, q.text, q.companionId) {
      var r := qs + [q];
      assert r[|qs|] == q;
    }
  }

  /** `activeQuests.find(q => q.id === questId)`. */
  function FindQuest(qs: seq<Quest>, id: string): (r: Option<Quest>)
    ensures r.None? <==> forall i :: 0 <= i < |qs| ==> qs[i].id != id
    ensures r.Some? ==> exists i :: && 0 <= i < |qs| && qs[i] == r.value && r.value.id == id
                                   && forall j :: 0 <= j < i ==> qs[j].id != id
  {
    if qs == [] then None
    else if qs[0].id == id then Some(qs[0])
    else
      var r := FindQuest(qs[1..], id);
      if r.Some? then
        var i :| && 0 <= i < |qs[1..]| && qs[1..][i] == r.value && r.value.id == id
                 && forall j :: 0 <= j < i ==> qs[1..][j].id != id;
        assert qs[i + 1] == r.value;
        r
      else r
  }

  /** The quests with `id` marked completed at `now`. */
  function MarkCompleted(qs: seq<Quest>, id: string, now: int): (r: seq<Quest>)
    ensures |r| == |qs|
    ensures forall i :: 0 <= i < |qs| && qs[i].id != id ==> r[i] == qs[i]
    ensures forall i :: 0 <= i < |qs| && qs[i].id == id ==>
      r[i] == qs[i].(status := Completed, completedAt := Some(now))
  {
    if qs == [] then []
    else
      var head := if qs[0].id == id then qs[0].(status := Completed, completedAt := Some(now)) else qs[0];
      [head] + MarkCompleted(qs[1..], id, now)
  }

  /** `activeQuests.filter(q => q.id !== questId)`. */
  function RemoveQuestById(qs: seq<Quest>, id: string): (r: seq<Quest>)
    ensures |r| <= |qs|
    ensures forall i :: 0 <= i < |r| ==> r[i].id != id
    ensures (forall i :: 0 <= i < |qs| ==> qs[i].id != id) ==> r == qs
    ensures forall q :: q in r <==> q in qs && q.id != id
  {
    if qs == [] then []
    else if qs[0].id == id then RemoveQuestById(qs[1..], id)
    else [qs[0]] + RemoveQuestById(qs[1..], id)
  }

  /** Removal keeps the remaining quests in order: it works piece by piece. */
  lemma {:induction false} RemoveDistributes(a: seq<Quest>, b: seq<Quest>, id: string)
    ensures RemoveQuestById(a + b, id) == RemoveQuestById(a, id) + RemoveQuestById(b, id)
  {
    if a != [] {
      assert (a + b)[1..] == a[1..] + b;
      RemoveDistributes(a[1..], b, id);
    } else {
      assert a + b == b;
    }
  }

  /** Every quest that does not carry `id` survives removal. */
  lemma {:induction false} RemoveKeepsOthers(qs: seq<Quest>, id: string, q: Quest)
    requires q in qs && q.id != id
    ensures q in RemoveQuestById(qs, id)
  {
    if qs[0] != q {
      RemoveKeepsOthers(qs[1..], id, q);
    }
  }

  // ---------------------------------------------------------------------
  // From selected keys to quests: `handleQuestsFinish`
  // ---------------------------------------------------------------------

  /** The micro-quest a selection key names: the key's first `-` piece is the
      companion id, the second its index (`parseInt`); `None` when either
      does not resolve. The third result is the raw index piece. */
  function ResolveKey(key: string): (r: Option<(string, string, MicroQuest)>)
    ensures r.Some? ==>
      && r.value.0 == Split(key, '-')[0] && r.value.0 in Catalog
      && ParseIndex(r.value.1).Some? && ParseIndex(r.value.1).value < |Catalog[r.value.0].microQuests|
      && r.value.2 == Catalog[r.value.0].microQuests[ParseIndex(r.value.1).value]
  {
    var parts := Split(key, '-');
    var companionId := parts[0];
    var segment := if |parts| > 1 then parts[1] else "";
    var companion := GetCompanion(companionId);
    var index := if |parts| > 1 then ParseIndex(segment) else None;
    if companion.Some? && index.Some? && index.value < |companion.value.microQuests| then
      Some((companionId, segment, companion.value.microQuests[index.value]))
    else None
  }

  /** A key built as companion id, `-`, index splits back into the two. */
  lemma SplitOfToggleKey(id: string, i: nat)
    requires id in Catalog
    ensures Split(id + "-" + NatToString(i), '-') == [id, NatToString(i)]
  {
    IdsHaveNoHyphen();
    var s := NatToString(i);
    assert forall k :: 0 <= k < |s| ==> s[k] != '-' by {
      assert forall k :: 0 <= k < |s| ==> IsDigit(s[k]);
    }
    assert id + "-" + s == id + ['-'] + s;
    SplitOfJoined(id, '-', s);
    SplitOfPlain(s, '-');
  }

  /** A selection key built as companion id, `-`, micro-quest index resolves
      to exactly that micro-quest. */
  lemma ResolveToggleKey(id: string, i: nat)
    requires id in Catalog && i < |Catalog[id].microQuests|
    ensures ResolveKey(id + "-" + NatToString(i)) == Some((id, NatToString(i), Catalog[id].microQuests[i]))
  {
    SplitOfToggleKey(id, i);
    ParseIndexOfNatToString(i);
    CatalogKeysAreOrder();
  }

  /** The quest a key becomes, stamped with `now`. */
  function QuestFromKey(key: string, now: nat): (r: Option<Quest>)
    ensures r.Some? <==> ResolveKey(key).Some?
    ensures r.Some? ==>
      && r.value.companionId in Catalog && r.value.status == Active && !r.value.isCustom
      && MicroQuest(r.value.text, r.value.icon) in Catalog[r.value.companionId].microQuests
  {
    match ResolveKey(key)
    case None => None
    case Some((companionId, segment, mq)) =>
      Some(Quest(companionId + "-" + NatToString(now) + "-" + segment, companionId, mq.text, mq.icon,
                 Active, now, None, false))
  }

  /** Skip `custom-` keys, convert the rest, drop those that do not resolve.
      A quest is in the result exactly when some non-custom key converts to
      it. */
  function KeysToQuests(keys: seq<string>, now: nat): (r: seq<Quest>)
    ensures |r| <= |keys|
    ensures forall i :: 0 <= i < |keys| && !StartsWith(keys[i], "custom-") && QuestFromKey(keys[i], now).Some? ==>
      QuestFromKey(keys[i], now).value in r
    ensures forall q :: q in r ==>
      exists i :: 0 <= i < |keys| && !StartsWith(keys[i], "custom-") && QuestFromKey(keys[i], now) == Some(q)
  {
    if keys == [] then []
    else
      assert forall i :: 0 < i < |keys| ==> keys[i] == keys[1..][i - 1];
      KeyToQuests(keys[0], now) + KeysToQuests(keys[1..], now)
  }

  /** The conversion of one key: nothing for a `custom-` key or one that
      does not resolve, else its quest. */
  function KeyToQuests(key: string, now: nat): (r: seq<Quest>)
    ensures |r| <= 1
    ensures StartsWith(key, "custom-") ==> r == []
    ensures !StartsWith(key, "custom-") ==> (r == [] <==> QuestFromKey(key, now).None?)
    ensures r != [] ==> Some(r[0]) == QuestFromKey(key, now)
  {
    if StartsWith(key, "custom-") then []
    else match QuestFromKey(key, now)
      case None => []
      case Some(q) => [q]
  }

  /** The conversion works key by key and keeps the keys' order: it is the
      order-preserving filter-map of `KeyToQuests`. */
  lemma {:induction false} KeysToQuestsAppend(a: seq<string>, b: seq<string>, now: nat)
    ensures KeysToQuests(a + b, now) == KeysToQuests(a, now) + KeysToQuests(b, now)
  {
    if a != [] {
      assert (a + b)[1..] == a[1..] + b;
      KeysToQuestsAppend(a[1..], b, now);
    } else {
      assert a + b == b;
    }
  }

  /** Every converted quest is an active, non-custom copy of one of its
      companion's catalog micro-quests. */
  lemma {:induction false} KeysToQuestsAreCatalogQuests(keys: seq<string>, now: nat)
    ensures forall q :: q in KeysToQuests(keys, now) ==>
      q.companionId in Catalog && q.status == Active && !q.isCustom &&
      exists k :: 0 <= k < |Catalog[q.companionId].microQuests| &&
        Catalog[q.companionId].microQuests[k] == MicroQuest(q.text, q.icon)
  {
    if keys != [] {
      KeysToQuestsAreCatalogQuests(keys[1..], now);
      CatalogKeysAreOrder();
    }
  }

  /** Keys that start with `custom-` never become quests, wherever they sit
      among the selected keys. */
  lemma CustomKeysAreSkipped(a: seq<string>, custom: seq<string>, b: seq<string>, now: nat)
    requires forall i :: 0 <= i < |custom| ==> StartsWith(custom[i], "custom-")
    ensures KeysToQuests(a + custom + b, now) == KeysToQuests(a + b, now)
  {
    KeysToQuestsAppend(a + custom, b, now);
    KeysToQuestsAppend(a, custom, now);
    KeysToQuestsAppend(a, b, now);
    CustomKeysOnly(custom, now);
  }

  lemma {:induction false} CustomKeysOnly(custom: seq<string>, now: nat)
    requires forall i :: 0 <= i < |custom| ==> StartsWith(custom[i], "custom-")
    ensures KeysToQuests(custom, now) == []
  {
    if custom != [] {
      CustomKeysOnly(custom[1..], now);
    }
  }

  /** A key built from a companion id never starts with `custom-`. */
  lemma CatalogKeyIsNotCustom(id: string, rest: string)
    requires id in Catalog
    ensures !StartsWith(id + "-" + rest, "custom-")
  {
    CatalogKeysAreOrder();
    assert id in CompanionOrder;
    var k := id + "-" + rest;
    assert |id| >= 2 && (id[0] != 'c' || id[1] != 'u');
    assert k[0] == id[0] && k[1] == id[1];
    assert |k| >= 7 ==> k[..7][0] == k[0] && k[..7][1] == k[1];
  }

  /** Selecting micro-quest `i` of a companion in the picker appends exactly
      that micro-quest, stamped with `now`, to the converted quests. */
  lemma PickedKeyAppends(keys: seq<string>, id: string, i: nat, now: nat)
    requires id in Catalog && i < |Catalog[id].microQuests|
    ensures var mq := Catalog[id].microQuests[i];
      KeysToQuests(keys + [id + "-" + NatToString(i)], now) == KeysToQuests(keys, now) +
        [Quest(id + "-" + NatToString(now) + "-" + NatToString(i), id, mq.text, mq.icon, Active, now, None, false)]
  {
    var key := id + "-" + NatToString(i);
    var mq := Catalog[id].microQuests[i];
    var q := Quest(id + "-" + NatToString(now) + "-" + NatToString(i), id, mq.text, mq.icon, Active, now, None, false);
    assert KeyToQuests(key, now) == [q] by {
      ResolveToggleKey(id, i);
      CatalogKeyIsNotCustom(id, NatToString(i));
    }
    assert KeysToQuests([key], now) == KeyToQuests(key, now) by {
      assert [key][1..] == [];
    }
    KeysToQuestsAppend(keys, [key], now);
  }

  function CustomToQuest(c: CustomQuest, now: nat): Quest {
    Quest(c.id, c.companionId, c.text, c.icon, Active, now, None, true)
  }

  function CustomsToQuests(cs: seq<CustomQuest>, now: nat): (r: seq<Quest>)
    ensures |r| == |cs|
    ensures forall i :: 0 <= i < |cs| ==> r[i] == CustomToQuest(cs[i], now)
  {
    if cs == [] then [] else [CustomToQuest(cs[0], now)] + CustomsToQuests(cs[1..], now)
  }

  /** `${companionId}-${text}`. */
  function QuestKey(q: Quest): string {
    q.companionId + "-" + q.text
  }

  /** For companion ids without `-`, equal keys mean equal pairs. */
  lemma QuestKeyInjective(a: Quest, b: Quest)
    requires forall i :: 0 <= i < |a.companionId| ==> a.companionId[i] != '-'
    requires forall i :: 0 <= i < |b.companionId| ==> b.companionId[i] != '-'
    requires QuestKey(a) == QuestKey(b)
    ensures a.companionId == b.companionId && a.text == b.text
  {
    var ka, kb := QuestKey(a), QuestKey(b);
    if |a.companionId| != |b.companionId| {
      HyphenEndsId(a);
      HyphenEndsId(b);
      assert false;
    } else {
      assert a.companionId == ka[..|a.companionId|] == kb[..|b.companionId|] == b.companionId;
      assert a.text == ka[|a.companionId| + 1..] == kb[|b.companionId| + 1..] == b.text;
    }
  }

  /** In a key, the first `-` is the one after the companion id. */
  lemma HyphenEndsId(q: Quest)
    requires forall i :: 0 <= i < |q.companionId| ==> q.companionId[i] != '-'
    ensures QuestKey(q)[|q.companionId|] == '-'
    ensures forall i :: 0 <= i < |q.companionId| ==> QuestKey(q)[i] != '-'
  {
  }

  function KeysOf(qs: seq<Quest>): (ks: seq<string>)
    ensures |ks| == |qs| && forall i :: 0 <= i < |qs| ==> ks[i] == QuestKey(qs[i])
  {
    if qs == [] then [] else [QuestKey(qs[0])] + KeysOf(qs[1..])
  }

  /** `allNewQuests.filter(q => !existingTexts.includes(…))`. */
  function UniqueNew(existing: seq<string>, news: seq<Quest>): (r: seq<Quest>)
    ensures |r| <= |news|
    ensures forall i :: 0 <= i < |r| ==> QuestKey(r[i]) !in existing
    ensures forall q :: q in news && QuestKey(q) !in existing ==> q in r
    ensures forall q :: q in r ==> q in news
  {
    if news == [] then []
    else
      var rest := UniqueNew(existing, news[1..]);
      if QuestKey(news[0]) in existing then rest else [news[0]] + rest
  }

  /** `[...prev, ...uniqueNew]`: the existing quests first and unchanged, then
      the new ones whose key no existing quest has. */
  function AppendNewQuests(prev: seq<Quest>, news: seq<Quest>): (r: seq<Quest>)
    ensures |prev| <= |r| && r[..|prev|] == prev
    ensures forall i :: |prev| <= i < |r| ==> QuestKey(r[i]) !in KeysOf(prev) && r[i] in news
    ensures forall q :: q in news && QuestKey(q) !in KeysOf(prev) ==> q in r[|prev|..]
  {
    prev + UniqueNew(KeysOf(prev), news)
  }

  /** Finishing twice with the same selection adds nothing the second time. */
  lemma AppendNewQuestsTwice(prev: seq<Quest>, news: seq<Quest>)
    ensures AppendNewQuests(AppendNewQuests(prev, news), news) == AppendNewQuests(prev, news)
  {
    var added := UniqueNew(KeysOf(prev), news);
    var once := prev + added;
    forall q | q in news ensures QuestKey(q) in KeysOf(once) {
      if QuestKey(q) in KeysOf(prev) {
        var j :| 0 <= j < |prev| && KeysOf(prev)[j] == QuestKey(q);
        assert once[j] == prev[j];
        KeyInKeysOf(once, prev[j]);
      } else {
        KeyInKeysOf(once, q);
      }
    }
    NothingNew(KeysOf(once), news);
    assert once + [] == once;
  }

  lemma KeyInKeysOf(qs: seq<Quest>, q: Quest)
    requires q in qs
    ensures QuestKey(q) in KeysOf(qs)
  {
    var i :| 0 <= i < |qs| && qs[i] == q;
    assert KeysOf(qs)[i] == QuestKey(q);
  }

  lemma {:induction false} NothingNew(existing: seq<string>, news: seq<Quest>)
    requires forall q :: q in news ==> QuestKey(q) in existing
    ensures UniqueNew(existing, news) == []
  {
    if news != [] {
      NothingNew(existing, news[1..]);
    }
  }

  // ---------------------------------------------------------------------
  // The application state
  // ---------------------------------------------------------------------

  class AppState {
    var screen: Screen
    var currentCompanionIndex: nat
    var responses: Responses
    var selectedQuests: seq<string>
    var sortedCompanions: seq<ScoredCompanion>
    var activeQuests: seq<Quest>
    var healthType: Option<HealthType>
    var gardenElements: seq<GardenElement>

    ghost predicate Valid()
      reads this
    {
      currentCompanionIndex < CompanionCount
    }

    constructor ()
      ensures Valid()
      ensures screen == Landing && currentCompanionIndex == 0 && responses == []
      ensures selectedQuests == [] && sortedCompanions == [] && activeQuests == []
      ensures healthType.None? && gardenElements == []
    {
      screen := Landing;
      currentCompanionIndex := 0;
      responses := [];
      selectedQuests := [];
      sortedCompanions := [];
      activeQuests := [];
      healthType := None;
      gardenElements := [];
    }

    /** `handleBeginCheckIn`. */
    method HandleBeginCheckIn()
      modifies this
      ensures Valid()
      ensures currentCompanionIndex == 0 && responses == [] && screen == CheckIn
      ensures selectedQuests == old(selectedQuests) && sortedCompanions == old(sortedCompanions)
      ensures activeQuests == old(activeQuests) && healthType == old(healthType)
      ensures gardenElements == old(gardenElements)
    {
      currentCompanionIndex := 0;
      responses := [];
      screen := CheckIn;
    }

    /** `handleCompanionComplete`: merge the companion's answers (later keys
        overwrite); before the last companion, advance; after the last,
        score every companion, rank them ascending, classify, and show the
        dashboard. */
    method HandleCompanionComplete(companionAnswers: Responses)
      requires Valid()
      modifies this
      ensures Valid()
      ensures responses == Merge(old(responses), companionAnswers)
      ensures old(currentCompanionIndex) < CompanionCount - 1 ==>
        && currentCompanionIndex == old(currentCompanionIndex) + 1
        && sortedCompanions == old(sortedCompanions) && healthType == old(healthType)
        && screen == old(screen)
      ensures old(currentCompanionIndex) == CompanionCount - 1 ==>
        && currentCompanionIndex == old(currentCompanionIndex)
        && sortedCompanions == SortByScore(ScoreCompanions(responses))
        && healthType == Some(Classify(None, Some(ScoreCompanions(responses))).primary)
        && screen == Dashboard
      ensures selectedQuests == old(selectedQuests) && activeQuests == old(activeQuests)
      ensures gardenElements == old(gardenElements)
    {
      var newResponses := Merge(responses, companionAnswers);
      responses := newResponses;
      if currentCompanionIndex < CompanionCount - 1 {
        currentCompanionIndex := currentCompanionIndex + 1;
      } else {
        var scores := ScoreCompanions(newResponses);
        sortedCompanions := SortByScore(scores);
        var typeResult := CalculateHealthType(None, Some(scores));
        healthType := Some(typeResult.primary);
        screen := Dashboard;
      }
    }

    /** `handleBackFromCompanion`. */
    method HandleBackFromCompanion()
      requires Valid()
      modifies this
      ensures Valid()
      ensures old(currentCompanionIndex) > 0 ==>
        currentCompanionIndex == old(currentCompanionIndex) - 1 && screen == old(screen)
      ensures old(currentCompanionIndex) == 0 ==> currentCompanionIndex == 0 && screen == Onboarding
      ensures responses == old(responses) && selectedQuests == old(selectedQuests)
      ensures sortedCompanions == old(sortedCompanions) && activeQuests == old(activeQuests)
      ensures healthType == old(healthType) && gardenElements == old(gardenElements)
    {
      if currentCompanionIndex > 0 {
        currentCompanionIndex := currentCompanionIndex - 1;
      } else {
        screen := Onboarding;
      }
    }

    /** `handleAddQuest` (from the dashboard's community tips): always records
        the `<companion>-community` selection; adds a quest only when its
        (text, companion) pair is new. */
    method HandleAddQuest(quest: string, companionId: string, now: nat)
      modifies this
      ensures selectedQuests == old(selectedQuests) + [companionId + "-community"]
      ensures activeQuests == AddIfNew(old(activeQuests),
        Quest(companionId + "-" + NatToString(now), companionId, quest, GetQuestIcon(quest), Active, now, None, false))
      ensures HasQuest(old(activeQuests), quest, companionId) ==> activeQuests == old(activeQuests)
      ensures screen == old(screen) && currentCompanionIndex == old(currentCompanionIndex)
      ensures responses == old(responses) && sortedCompanions == old(sortedCompanions)
      ensures healthType == old(healthType) && gardenElements == old(gardenElements)
    {
      selectedQuests := selectedQuests + [companionId + "-community"];
      var newQuest := Quest(companionId + "-" + NatToString(now), companionId, quest, GetQuestIcon(quest),
                            Active, now, None, false);
      activeQuests := AddIfNew(activeQuests, newQuest);
    }

    /** `handleCompleteQuest`: marks every quest with the id completed and,
        when one exists, plants the palette element `pick` (the random draw)
        in the garden. The prior status is not checked. */
    method HandleCompleteQuest(questId: string, pick: nat, now: nat)
      requires pick < |NatureElements|
      modifies this
      ensures activeQuests == MarkCompleted(old(activeQuests), questId, now)
      ensures FindQuest(old(activeQuests), questId).None? ==> gardenElements == old(gardenElements)
      ensures FindQuest(old(activeQuests), questId).Some? ==>
        var q := FindQuest(old(activeQuests), questId).value;
        var e := NatureElements[pick];
        gardenElements == old(gardenElements) +
          [GardenElement("garden-" + NatToString(now), e.emoji, e.name, e.kind, q.companionId, q.text, now)]
      ensures screen == old(screen) && currentCompanionIndex == old(currentCompanionIndex)
      ensures responses == old(responses) && selectedQuests == old(selectedQuests)
      ensures sortedCompanions == old(sortedCompanions) && healthType == old(healthType)
    {
      var quest := FindQuest(activeQuests, questId);
      if quest.Some? {
        var e := NatureElements[pick];
        var element := GardenElement("garden-" + NatToString(now), e.emoji, e.name, e.kind,
                                     quest.value.companionId, quest.value.text, now);
        gardenElements := gardenElements + [element];
      }
      activeQuests := MarkCompleted(activeQuests, questId, now);
    }

    /** `handleRemoveQuest`. */
    method HandleRemoveQuest(questId: string)
      modifies this
      ensures activeQuests == RemoveQuestById(old(activeQuests), questId)
      ensures screen == old(screen) && currentCompanionIndex == old(currentCompanionIndex)
      ensures responses == old(responses) && selectedQuests == old(selectedQuests)
      ensures sortedCompanions == old(sortedCompanions) && healthType == old(healthType)
      ensures gardenElements == old(gardenElements)
    {
      activeQuests := RemoveQuestById(activeQuests, questId);
    }

    /** `handleAddCustomQuest` (from the map): adds the quest unless its
        (text, companion) pair is already present. */
    method HandleAddCustomQuest(quest: Quest)
      modifies this
      ensures activeQuests == AddIfNew(old(activeQuests), quest)
      ensures screen == old(screen) && currentCompanionIndex == old(currentCompanionIndex)
      ensures responses == old(responses) && selectedQuests == old(selectedQuests)
      ensures sortedCompanions == old(sortedCompanions) && healthType == old(healthType)
      ensures gardenElements == old(gardenElements)
    {
      activeQuests := AddIfNew(activeQuests, quest);
    }

    /** `handleQuestsFinish`: keeps the selection, converts the catalog keys
        and the custom quests to active quests, appends those whose
        companion-and-text key is not already present, and moves on to the
        reflection. */
    method HandleQuestsFinish(quests: seq<string>, customQuests: seq<CustomQuest>, now: nat)
      modifies this
      ensures selectedQuests == quests
      ensures activeQuests == AppendNewQuests(old(activeQuests),
        KeysToQuests(quests, now) + CustomsToQuests(customQuests, now))
      ensures screen == Reflection
      ensures currentCompanionIndex == old(currentCompanionIndex) && responses == old(responses)
      ensures sortedCompanions == old(sortedCompanions) && healthType == old(healthType)
      ensures gardenElements == old(gardenElements)
    {
      selectedQuests := quests;
      var newActiveQuests := KeysToQuests(quests, now);
      var customActiveQuests := CustomsToQuests(customQuests, now);
      activeQuests := AppendNewQuests(activeQuests, newActiveQuests + customActiveQuests);
      screen := Reflection;
    }
  }
}
