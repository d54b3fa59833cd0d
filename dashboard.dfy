/**
  The results dashboard: the companions ranked by their unguarded average
  answer, split into the three that need attention and the four that are
  supporting, and the "try this quest" action of the community tips.
*/
module Dashboard {

  import opened Wrappers
  import opened Records
  import opened Companions
  import opened Scoring

  /** The number of companions shown as needing attention. */
  const AttentionCount: nat := 3

  /** `needsAttention`: the first three of the ranking. */
  function NeedsAttention(r: Responses): (n: seq<RankedCompanion>)
    requires AllNumeric(r) || NoAnswers(r)
    ensures |n| == AttentionCount && SortedByAverage(n)
    ensures AllNumeric(r) ==> n == Ranked(SortByScore(ScoreCompanions(r))[..AttentionCount])
    ensures NoAnswers(r) ==> forall i :: 0 <= i < |n| ==> n[i].id == CompanionOrder[i] && n[i].average == NaN
  {
    RankedSplit(SortByScore(ScoreCompanions(r)), AttentionCount);
    RankByAverage(r)[..AttentionCount]
  }

  /** `supporting`: the other four, none ranked before a companion that
      needs attention. */
  function Supporting(r: Responses): (s: seq<RankedCompanion>)
    requires AllNumeric(r) || NoAnswers(r)
    ensures |s| == CompanionCount - AttentionCount && SortedByAverage(s)
    ensures forall i, j :: 0 <= i < |NeedsAttention(r)| && 0 <= j < |s| ==>
      NotAfter(NeedsAttention(r)[i].average, s[j].average)
    ensures AllNumeric(r) ==> s == Ranked(SortByScore(ScoreCompanions(r))[AttentionCount..])
    ensures NoAnswers(r) ==> forall i :: 0 <= i < |s| ==>
      s[i].id == CompanionOrder[AttentionCount + i] && s[i].average == NaN
  {
    CompanionCountIsOrderLength();
    RankedSplit(SortByScore(ScoreCompanions(r)), AttentionCount);
    RankByAverage(r)[AttentionCount..]
  }

  /** The two groups put back together are the whole ranking: three need
      attention, four support, no supporting companion is ranked before one
      that needs attention, and together they hold every companion's average
      once. With an answer for every companion this is the ranking the
      check-in flow stored; with no answers it is the catalog split after
      its third companion. */
  lemma DashboardPartition(r: Responses)
    requires AllNumeric(r) || NoAnswers(r)
    ensures NeedsAttention(r) + Supporting(r) == RankByAverage(r)
    ensures |NeedsAttention(r)| == 3 && |Supporting(r)| == 4
    ensures forall i, j :: 0 <= i < 3 && 0 <= j < 4 ==>
      NotAfter(NeedsAttention(r)[i].average, Supporting(r)[j].average)
    ensures multiset(NeedsAttention(r)) + multiset(Supporting(r)) == multiset(Averages(r))
    ensures AllNumeric(r) ==> NeedsAttention(r) + Supporting(r) == Ranked(SortByScore(ScoreCompanions(r)))
    ensures NoAnswers(r) ==> NeedsAttention(r) + Supporting(r) == Averages(r)
  {
    CompanionCountIsOrderLength();
    var t := RankByAverage(r);
    assert NeedsAttention(r) + Supporting(r) == t[..3] + t[3..] == t;
  }

  /** What `handleTryQuest` triggers: the add-quest callback, when the
      dashboard was given one, and always the move to the quest screen. */
  datatype TryQuestEffects = TryQuestEffects(addQuest: Option<(string, string)>, viewQuests: bool)

  /** `handleTryQuest`. */
  function HandleTryQuest(quest: string, companionId: string, hasOnAddQuest: bool): (e: TryQuestEffects)
    ensures e.viewQuests
    ensures e.addQuest.Some? <==> hasOnAddQuest
    ensures e.addQuest.Some? ==> e.addQuest.value == (quest, companionId)
  {
    TryQuestEffects(if hasOnAddQuest then Some((quest, companionId)) else None, true)
  }
}
