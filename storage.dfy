/**
  The browser-local store of the anonymous flow: the check-in history
  (capped at a year of weekly entries), the last companion scores and the
  completed-quest log, with the evolution levels and the weekly streak
  derived from them. Each storage key is a field; a removed key reads as
  its getter's default.
*/
module Storage {

  import opened Wrappers
  import opened Records
  import opened Companions

  /** The ids the evolution table is filled for. */
  const EvolutionIds: seq<string> := ["pip", "luna", "ember", "sage", "coral", "brook", "oak"]

  /** The store's own id list is the companion order. */
  lemma EvolutionIdsAreOrder()
    ensures EvolutionIds == CompanionOrder
  {
  }

  /** One week in milliseconds. */
  const OneWeek: int := 7 * 24 * 60 * 60 * 1000

  /** The largest gap between consecutive check-ins that keeps a streak
      going: one and a half weeks. */
  const StreakTolerance: int := OneWeek * 3 / 2

  const MaxEvolution: nat := 5

  /** How many completed-quest records name the companion. */
  function QuestCount(log: seq<CompletedQuest>, companionId: string): (n: nat)
    ensures n <= |log|
  {
    if log == [] then 0
    else QuestCount(log[..|log| - 1], companionId) + (if log[|log| - 1].companionId == companionId then 1 else 0)
  }

  /** Logging one completion raises that companion's count by one and leaves
      every other companion's count alone. */
  lemma QuestCountAppend(log: seq<CompletedQuest>, q: CompletedQuest, companionId: string)
    ensures QuestCount(log + [q], companionId) ==
      QuestCount(log, companionId) + (if q.companionId == companionId then 1 else 0)
  {
    assert (log + [q])[..|log|] == log;
  }

  /** The stored evolution level: completed quests plus one per three
      check-ins, capped at 5. */
  function Evolution(log: seq<CompletedQuest>, checkIns: nat, companionId: string): (level: nat)
    ensures level <= MaxEvolution
    ensures checkIns < 3 ==> level == if QuestCount(log, companionId) < 5 then QuestCount(log, companionId) else 5
  {
    var n := QuestCount(log, companionId) + checkIns / 3;
    if n < MaxEvolution then n else MaxEvolution
  }

  /** A completed quest raises the companion's level by one until it reaches
      5, and never changes another companion's level. */
  lemma CompletionRaisesEvolution(log: seq<CompletedQuest>, q: CompletedQuest, checkIns: nat, companionId: string)
    ensures var before := Evolution(log, checkIns, companionId);
      var after := Evolution(log + [q], checkIns, companionId);
      if q.companionId == companionId then
        after == (if before < MaxEvolution then before + 1 else MaxEvolution)
      else after == before
  {
    QuestCountAppend(log, q, companionId);
  }

  /** The number of consecutive gaps of at most the tolerance, walking back
      from entry `i` of the history. */
  function RunBack(history: seq<CheckInRecord>, i: nat): (n: nat)
    requires i < |history|
    ensures n <= i
  {
    if i == 0 then 0
    else if history[i].date - history[i - 1].date <= StreakTolerance then 1 + RunBack(history, i - 1)
    else 0
  }

  /** The weekly streak: 0 with no check-ins, else the newest stored entry
      plus the unbroken run of close-enough gaps before it, in stored order. */
  function Streak(history: seq<CheckInRecord>): (n: nat)
    ensures history == [] <==> n == 0
    ensures n <= |history|
  {
    if history == [] then 0 else 1 + RunBack(history, |history| - 1)
  }

  /** Check-ins at most a week and a half apart form one streak. */
  lemma {:induction false} CloseCheckInsFormOneStreak(history: seq<CheckInRecord>, i: nat)
    requires i < |history|
    requires forall k :: 0 < k <= i ==> history[k].date - history[k - 1].date <= StreakTolerance
    ensures RunBack(history, i) == i
  {
    if i > 0 {
      CloseCheckInsFormOneStreak(history, i - 1);
    }
  }

  /** A gap longer than the tolerance before the newest entry ends the
      streak at 1, however long the history before it. */
  lemma LongGapResetsStreak(history: seq<CheckInRecord>)
    requires |history| >= 2
    requires history[|history| - 1].date - history[|history| - 2].date > StreakTolerance
    ensures Streak(history) == 1
  {
  }

  /** The store. */
  class LocalStore {
    var history: seq<CheckInRecord>
    var lastScores: Option<(seq<ScoredCompanion>, int)>
    var completedQuests: seq<CompletedQuest>

    /** A store with nothing saved. */
    constructor ()
      ensures history == [] && lastScores.None? && completedQuests == []
    {
      history := [];
      lastScores := None;
      completedQuests := [];
    }

    /** `saveCheckIn`: stamps the entry with `now` (a `date` in the data
        overrides it), appends it and keeps the newest 52 entries. */
    method SaveCheckIn(data: CheckInData, now: int) returns (entry: CheckInRecord)
      modifies this
      ensures entry == StampCheckIn(data, now)
      ensures history == LastN(old(history) + [entry], HistoryCap)
      ensures |history| == if |old(history)| + 1 < HistoryCap then |old(history)| + 1 else HistoryCap
      ensures history[|history| - 1] == entry
      ensures history[..|history| - 1] == old(history)[|old(history)| + 1 - |history|..]
      ensures lastScores == old(lastScores) && completedQuests == old(completedQuests)
    {
      entry := StampCheckIn(data, now);
      var appended := history + [entry];
      AppendCapped(history, entry);
      history := LastN(appended, HistoryCap);
    }

    /** `saveCompanionScores`. */
    method SaveCompanionScores(scores: seq<ScoredCompanion>, now: int)
      modifies this
      ensures lastScores == Some((scores, now))
      ensures history == old(history) && completedQuests == old(completedQuests)
    {
      lastScores := Some((scores, now));
    }

    /** `completeQuest`: appends one record to the log. */
    method CompleteQuest(questId: string, companionId: string, now: int)
      modifies this
      ensures completedQuests == old(completedQuests) + [CompletedQuest(questId, companionId, now)]
      ensures QuestCount(completedQuests, companionId) == QuestCount(old(completedQuests), companionId) + 1
      ensures forall id :: id != companionId ==>
        QuestCount(completedQuests, id) == QuestCount(old(completedQuests), id)
      ensures history == old(history) && lastScores == old(lastScores)
    {
      var record := CompletedQuest(questId, companionId, now);
      forall id {
        QuestCountAppend(completedQuests, record, id);
      }
      completedQuests := completedQuests + [record];
    }

    /** `getCompanionQuestCount`. */
    method GetCompanionQuestCount(companionId: string) returns (n: nat)
      ensures n == QuestCount(completedQuests, companionId)
    {
      n := QuestCount(completedQuests, companionId);
    }

    /** `getCompanionEvolution`. */
    method GetCompanionEvolution(companionId: string) returns (level: nat)
      ensures level == Evolution(completedQuests, |history|, companionId)
      ensures level <= MaxEvolution
    {
      var questCount := GetCompanionQuestCount(companionId);
      var streakBonus := |history| / 3;
      level := if questCount + streakBonus < MaxEvolution then questCount + streakBonus else MaxEvolution;
    }

    /** `getAllCompanionEvolutions`: one entry per companion, in catalog
        order. */
    method GetAllCompanionEvolutions() returns (evolutions: seq<Entry<nat>>)
      ensures Keys(evolutions) == CompanionOrder
      ensures forall i :: 0 <= i < |evolutions| ==>
        evolutions[i].value == Evolution(completedQuests, |history|, evolutions[i].key)
    {
      EvolutionIdsAreOrder();
      CatalogKeysAreOrder();
      var ids := EvolutionIds;
      evolutions := [];
      var i := 0;
      while i < |ids|
        invariant 0 <= i <= |ids|
        invariant Keys(evolutions) == ids[..i]
        invariant forall j :: 0 <= j < i ==>
          evolutions[j].value == Evolution(completedQuests, |history|, ids[j])
      {
        var level := GetCompanionEvolution(ids[i]);
        PutNextId(evolutions, ids, i, level);
        evolutions := Put(evolutions, ids[i], level);
        i := i + 1;
      }
      assert ids[..i] == ids;
    }

    /** `getCheckInStreak`: walks back from the newest stored entry while
        the gaps stay within a week and a half. */
    method GetCheckInStreak() returns (streak: nat)
      ensures streak == Streak(history)
    {
      if |history| == 0 {
        return 0;
      }
      streak := 1;
      var i := |history| - 1;
      while i > 0
        invariant 0 <= i < |history|
        invariant streak + RunBack(history, i) == Streak(history)
        decreases i
      {
        var diff := history[i].date - history[i - 1].date;
        if diff <= StreakTolerance {
          streak := streak + 1;
        } else {
          break;
        }
        i := i - 1;
      }
    }

    /** `clearAllData`: removes every key, so each getter reads its
        default: no history, no scores, no completed quests, a streak of 0
        and level 0 for everybody. */
    method ClearAllData()
      modifies this
      ensures history == [] && lastScores.None? && completedQuests == []
      ensures Streak(history) == 0
      ensures forall id :: QuestCount(completedQuests, id) == 0 && Evolution(completedQuests, |history|, id) == 0
    {
      history := [];
      lastScores := None;
      completedQuests := [];
    }
  }

  /** Filling a table in the order of a list of distinct ids: the next id
      is new, so it is appended. */
  lemma PutNextId<V>(d: seq<Entry<V>>, ids: seq<string>, i: nat, v: V)
    requires i < |ids| && Keys(d) == ids[..i]
    requires forall a, b :: 0 <= a < b < |ids| ==> ids[a] != ids[b]
    ensures Put(d, ids[i], v) == d + [Entry(ids[i], v)]
    ensures Keys(d + [Entry(ids[i], v)]) == ids[..i + 1]
  {
    forall j | 0 <= j < |d| ensures d[j].key != ids[i] {
      assert d[j].key == ids[..i][j];
    }
    PutAppends(d, ids[i], v);
    var e := d + [Entry(ids[i], v)];
    assert Keys(e) == ids[..i + 1] by {
      forall j | 0 <= j < |e| ensures Keys(e)[j] == ids[..i + 1][j] {
        if j < |d| {
          assert Keys(e)[j] == d[j].key == ids[..i][j];
        }
      }
    }
  }

  /** A new key is appended at the end. */
  lemma {:induction false} PutAppends<V>(d: seq<Entry<V>>, k: string, v: V)
    requires !HasKey(d, k)
    ensures Put(d, k, v) == d + [Entry(k, v)]
  {
    if d != [] {
      assert forall i :: 0 <= i < |d[1..]| ==> d[1..][i] == d[i + 1];
      PutAppends(d[1..], k, v);
    }
  }
}
