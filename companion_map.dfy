/**
  The map screen's derived data: each companion's evolution level from the
  check-in history, the quest list grouped by companion and filtered by
  status, the companions enriched with their last scores, and the three
  lowest-scored "main" companions.
*/
module CompanionMap {

  import opened Wrappers
  import opened Text
  import opened Records
  import opened Companions
  import opened Scoring

  // ---------------------------------------------------------------------
  // Evolution level: `getEvolutionLevel`
  // ---------------------------------------------------------------------

  /** The highest evolution level. */
  const MaxEvolution: nat := 5

  /** A check-in "helped" a companion when one of its selected quest keys
      starts with the companion's id; a check-in without selected quests
      helped nobody. */
  predicate Helped(c: CheckInRecord, companionId: string) {
    match c.data.selectedQuests
    case None => false
    case Some(keys) => exists k :: k in keys && StartsWith(k, companionId)
  }

  /** How many check-ins helped the companion, each counted once. */
  function HelpCount(history: seq<CheckInRecord>, companionId: string): (n: nat)
    ensures n <= |history|
  {
    if history == [] then 0
    else
      HelpCount(history[..|history| - 1], companionId) +
      (if Helped(history[|history| - 1], companionId) then 1 else 0)
  }

  function MinNat(a: nat, b: nat): nat {
    if a < b then a else b
  }

  /** The level the map shows: one point per helping check-in plus one per
      three check-ins, capped at 5; no history means level 0. */
  function EvolutionLevel(companionId: string, history: Option<seq<CheckInRecord>>): (level: nat)
    ensures level <= MaxEvolution
    ensures history.None? || history.value == [] ==> level == 0
  {
    match history
    case None => 0
    case Some(h) =>
      if h == [] then 0
      else MinNat(HelpCount(h, companionId) + |h| / 3, MaxEvolution)
  }

  /** Appending a check-in adds one exactly when it helped the companion. */
  lemma HelpCountAppend(history: seq<CheckInRecord>, c: CheckInRecord, companionId: string)
    ensures HelpCount(history + [c], companionId) ==
      HelpCount(history, companionId) + (if Helped(c, companionId) then 1 else 0)
  {
    assert (history + [c])[..|history|] == history;
  }

  /** One more check-in never lowers a companion's level. */
  lemma EvolutionMonotone(history: seq<CheckInRecord>, c: CheckInRecord, companionId: string)
    ensures EvolutionLevel(companionId, Some(history)) <= EvolutionLevel(companionId, Some(history + [c]))
  {
    HelpCountAppend(history, c, companionId);
  }

  /** Check-ins without selected quests help nobody. */
  lemma {:induction false} NoSelectionsNoHelp(history: seq<CheckInRecord>, companionId: string)
    requires forall i :: 0 <= i < |history| ==> history[i].data.selectedQuests.None?
    ensures HelpCount(history, companionId) == 0
  {
    if history != [] {
      NoSelectionsNoHelp(history[..|history| - 1], companionId);
    }
  }

  /** Three check-ins that helped nobody still raise a companion to level 1:
      the streak bonus alone counts. */
  lemma StreakBonusAlone(history: seq<CheckInRecord>, companionId: string)
    requires |history| == 3
    requires forall i :: 0 <= i < 3 ==> history[i].data.selectedQuests.None?
    ensures EvolutionLevel(companionId, Some(history)) == 1
  {
    NoSelectionsNoHelp(history, companionId);
  }

  /** `getEvolutionLevel`: counts the helping check-ins in one pass. */
  method GetEvolutionLevel(companionId: string, history: Option<seq<CheckInRecord>>) returns (level: nat)
    ensures level == EvolutionLevel(companionId, history)
  {
    if history.None? || history.value == [] {
      return 0;
    }
    var h := history.value;
    var helpCount: nat := 0;
    var i := 0;
    while i < |h|
      invariant 0 <= i <= |h|
      invariant helpCount == HelpCount(h[..i], companionId)
    {
      var keys := h[i].data.selectedQuests;
      if keys.Some? && exists k :: k in keys.value && StartsWith(k, companionId) {
        helpCount := helpCount + 1;
      }
      HelpCountAppend(h[..i], h[i], companionId);
      assert h[..i + 1] == h[..i] + [h[i]];
      i := i + 1;
    }
    assert h[..i] == h;
    var streakBonus := |h| / 3;
    level := MinNat(helpCount + streakBonus, MaxEvolution);
  }

  // ---------------------------------------------------------------------
  // Grouping and filtering the quest list
  // ---------------------------------------------------------------------

  /** The quests of one companion, in list order. */
  function QuestsOf(qs: seq<Quest>, companionId: string): (r: seq<Quest>)
    ensures |r| <= |qs|
    ensures forall q :: q in r ==> q in qs && q.companionId == companionId
    ensures forall q :: q in qs && q.companionId == companionId ==> q in r
  {
    if qs == [] then []
    else
      var rest := QuestsOf(qs[..|qs| - 1], companionId);
      if qs[|qs| - 1].companionId == companionId then rest + [qs[|qs| - 1]] else rest
  }

  /** The accumulator after one more quest: appended to its companion's
      group, which is created on first use. */
  function AddToGroup(groups: seq<Entry<seq<Quest>>>, q: Quest): seq<Entry<seq<Quest>>> {
    Put(groups, q.companionId, Get(groups, q.companionId).GetOr([]) + [q])
  }

  /** The grouping of a list, built left to right as the `reduce` does. */
  function Grouped(qs: seq<Quest>): (g: seq<Entry<seq<Quest>>>)
    ensures |g| <= |qs|
    ensures g == [] <==> qs == []
  {
    if qs == [] then []
    else
      var init := Grouped(qs[..|qs| - 1]);
      var q := qs[|qs| - 1];
      PutKeys(init, q.companionId, Get(init, q.companionId).GetOr([]) + [q]);
      AddToGroup(init, q)
  }

  /** Each companion that has quests has exactly one group, holding all its
      quests in list order; a companion without quests has no group. */
  lemma {:induction false} GroupedAreQuestsOf(qs: seq<Quest>, companionId: string)
    ensures DistinctKeys(Grouped(qs))
    ensures Get(Grouped(qs), companionId) ==
      if QuestsOf(qs, companionId) == [] then None else Some(QuestsOf(qs, companionId))
  {
    if qs != [] {
      var init, q := qs[..|qs| - 1], qs[|qs| - 1];
      GroupedAreQuestsOf(init, companionId);
      GroupedAreQuestsOf(init, q.companionId);
      PutDistinct(Grouped(init), q.companionId, Get(Grouped(init), q.companionId).GetOr([]) + [q]);
      PutGet(Grouped(init), q.companionId, Get(Grouped(init), q.companionId).GetOr([]) + [q], companionId);
    }
  }

  /** The `questsByCompanion` reduction. */
  method GroupByCompanion(qs: seq<Quest>) returns (groups: seq<Entry<seq<Quest>>>)
    ensures groups == Grouped(qs)
  {
    groups := [];
    var i := 0;
    while i < |qs|
      invariant 0 <= i <= |qs|
      invariant groups == Grouped(qs[..i])
    {
      assert qs[..i + 1][..i] == qs[..i];
      var q := qs[i];
      var group := Get(groups, q.companionId).GetOr([]);
      groups := Put(groups, q.companionId, group + [q]);
      i := i + 1;
    }
    assert qs[..i] == qs;
  }

  /** The status filter of the quest panel. */
  datatype QuestFilter = AllQuests | OnlyStatus(status: QuestStatus)

  /** The quests with the given status, in list order. */
  function WithStatus(qs: seq<Quest>, status: QuestStatus): (r: seq<Quest>)
    ensures |r| <= |qs|
    ensures forall q :: q in r ==> q in qs && q.status == status
    ensures forall q :: q in qs && q.status == status ==> q in r
  {
    if qs == [] then []
    else
      var rest := WithStatus(qs[1..], status);
      assert forall q :: q in qs[1..] ==> q in qs;
      if qs[0].status == status then [qs[0]] + rest else rest
  }

  /** `filteredQuests`. */
  function FilterQuests(qs: seq<Quest>, filter: QuestFilter): (r: seq<Quest>)
    ensures filter.AllQuests? ==> r == qs
    ensures filter.OnlyStatus? ==>
      (forall q :: q in r ==> q in qs && q.status == filter.status) &&
      (forall q :: q in qs && q.status == filter.status ==> q in r)
  {
    match filter
    case AllQuests => qs
    case OnlyStatus(s) => WithStatus(qs, s)
  }

  /** The active and completed counts add up to the whole list, since a
      quest has one of the two statuses. */
  lemma {:induction false} CountsPartition(qs: seq<Quest>)
    ensures |WithStatus(qs, Active)| + |WithStatus(qs, Completed)| == |qs|
  {
    if qs != [] {
      CountsPartition(qs[1..]);
    }
  }

  // ---------------------------------------------------------------------
  // Enriched companions and the main three
  // ---------------------------------------------------------------------

  /** `xs.find(s => s.id === id)`. */
  function FindById(xs: seq<ScoredCompanion>, id: string): (r: Option<ScoredCompanion>)
    ensures r.Some? ==> r.value.id == id && r.value in xs
    ensures r.None? ==> forall s :: s in xs ==> s.id != id
  {
    if xs == [] then None
    else if xs[0].id == id then Some(xs[0])
    else
      assert forall s :: s in xs[1..] ==> s in xs;
      assert forall s :: s in xs ==> s == xs[0] || s in xs[1..];
      FindById(xs[1..], id)
  }

  /** `companionScores?.find(s => s.id === id)`: nothing when there are no
      scores. */
  function FindScore(scores: Option<seq<ScoredCompanion>>, id: string): (r: Option<ScoredCompanion>)
    ensures r.Some? ==> scores.Some? && r.value.id == id && r.value in scores.value
    ensures r.None? ==> scores.None? || forall s :: s in scores.value ==> s.id != id
  {
    match scores
    case None => None
    case Some(xs) => FindById(xs, id)
  }

  /** The score and band shown for one companion: the stored ones, or 50
      and medium when it has no entry. */
  function Enrich(scores: Option<seq<ScoredCompanion>>, id: string): (c: ScoredCompanion)
    ensures c.id == id
    ensures FindScore(scores, id).None? ==> c.score == NeutralScore && c.level == Medium
    ensures FindScore(scores, id).Some? ==>
      c.score == FindScore(scores, id).value.score && c.level == FindScore(scores, id).value.level
  {
    match FindScore(scores, id)
    case None => ScoredCompanion(id, NeutralScore, Medium)
    case Some(s) => ScoredCompanion(id, s.score, s.level)
  }

  function EnrichAll(scores: Option<seq<ScoredCompanion>>, ids: seq<string>): (r: seq<ScoredCompanion>)
    ensures |r| == |ids|
    ensures forall i :: 0 <= i < |ids| ==> r[i] == Enrich(scores, ids[i])
    ensures forall i :: 0 <= i < |ids| ==> r[i].id == ids[i]
    ensures scores.None? ==> forall i :: 0 <= i < |r| ==> r[i].score == NeutralScore && r[i].level == Medium
  {
    if ids == [] then [] else [Enrich(scores, ids[0])] + EnrichAll(scores, ids[1..])
  }

  /** `enrichedCompanions`, in catalog order. */
  function EnrichCompanions(scores: Option<seq<ScoredCompanion>>): (r: seq<ScoredCompanion>)
    ensures |r| == |CompanionOrder|
    ensures forall i :: 0 <= i < |r| ==> r[i].id == CompanionOrder[i]
    ensures scores.None? ==> forall i :: 0 <= i < |r| ==> r[i].score == NeutralScore && r[i].level == Medium
  {
    EnrichAll(scores, CompanionOrder)
  }

  function IdsOf(cs: seq<ScoredCompanion>): (ids: seq<string>)
    ensures |ids| == |cs| && forall i :: 0 <= i < |cs| ==> ids[i] == cs[i].id
  {
    if cs == [] then [] else [cs[0].id] + IdsOf(cs[1..])
  }

  /** `mainCompanions`: the ids of the three lowest-scored companions. */
  function MainCompanions(scores: Option<seq<ScoredCompanion>>): (ids: seq<string>)
    ensures |ids| == 3
  {
    var enriched := EnrichCompanions(scores);
    LowestSplit(enriched, 3);
    IdsOf(Lowest(enriched, 3))
  }

  /** A main companion never scores above a companion that is not main. */
  lemma MainCompanionsNeedMost(scores: Option<seq<ScoredCompanion>>)
    ensures var enriched := EnrichCompanions(scores);
      var main := Lowest(enriched, 3);
      var rest := AfterLowest(enriched, 3);
      && |main| == 3 && |rest| == 4
      && (forall i, j :: 0 <= i < 3 && 0 <= j < 4 ==> main[i].score <= rest[j].score)
      && multiset(main) + multiset(rest) == multiset(enriched)
      && MainCompanions(scores) == IdsOf(main)
  {
    LowestSplit(EnrichCompanions(scores), 3);
  }

  /** When all scores tie, the three main companions are the first three
      in the given order. */
  lemma TiedMainAreFirst(e: seq<ScoredCompanion>)
    requires |e| >= 3
    requires forall i :: 0 <= i < |e| ==> e[i].score == e[0].score
    ensures IdsOf(Lowest(e, 3)) == [e[0].id, e[1].id, e[2].id]
  {
    AllTiedKeepsOrder(e);
    var ids := IdsOf(e[..3]);
    assert ids == [ids[0], ids[1], ids[2]];
  }

  /** With no stored scores every companion is tied at 50, and the stable
      sort keeps catalog order: the main companions are the first three. */
  lemma NoScoresGivesFirstThree()
    ensures MainCompanions(None) == ["pip", "luna", "ember"]
  {
    var enriched := EnrichCompanions(None);
    CompanionCountIsOrderLength();
    TiedMainAreFirst(enriched);
    assert enriched[0].id == "pip" && enriched[1].id == "luna" && enriched[2].id == "ember";
  }
}
