/**
  The community-tips carousel of the dashboard: a wrap-around index over the
  priority companions' patterns and the list of tips already added.
*/
module CommunityInsights {

  import opened Wrappers

  /** The carousel over `count` patterns. */
  class Carousel {
    const count: nat
    var currentIndex: nat
    var addedQuests: seq<string>
    var showAddedFeedback: Option<string>

    ghost predicate Valid()
      reads this
    {
      && currentIndex < count
      && (forall i, j :: 0 <= i < j < |addedQuests| ==> addedQuests[i] != addedQuests[j])
    }

    constructor (n: nat)
      requires n > 0
      ensures Valid() && count == n && currentIndex == 0 && addedQuests == [] && showAddedFeedback.None?
    {
      count := n;
      currentIndex := 0;
      addedQuests := [];
      showAddedFeedback := None;
    }

    /** `handlePrev`: from the first pattern to the last, else one back. */
    method HandlePrev()
      requires Valid()
      modifies this
      ensures Valid()
      ensures currentIndex == PrevIndex(old(currentIndex), count)
      ensures addedQuests == old(addedQuests) && showAddedFeedback == old(showAddedFeedback)
    {
      currentIndex := if currentIndex == 0 then count - 1 else currentIndex - 1;
    }

    /** `handleNext`: from the last pattern to the first, else one on. */
    method HandleNext()
      requires Valid()
      modifies this
      ensures Valid()
      ensures currentIndex == NextIndex(old(currentIndex), count)
      ensures addedQuests == old(addedQuests) && showAddedFeedback == old(showAddedFeedback)
    {
      currentIndex := if currentIndex == count - 1 then 0 else currentIndex + 1;
    }

    /** `handleAddQuest`: a tip already added changes nothing and calls
        nobody; a new one is recorded once, flagged for feedback, and passed
        to `onTryQuest` when there is one. */
    method HandleAddQuest(action: string, companionId: string, hasOnTryQuest: bool)
      returns (tried: Option<(string, string)>)
      requires Valid()
      modifies this
      ensures Valid()
      ensures currentIndex == old(currentIndex)
      ensures companionId + "-" + action in old(addedQuests) ==>
        tried.None? && addedQuests == old(addedQuests) && showAddedFeedback == old(showAddedFeedback)
      ensures companionId + "-" + action !in old(addedQuests) ==>
        && addedQuests == old(addedQuests) + [companionId + "-" + action]
        && showAddedFeedback == Some(companionId + "-" + action)
        && (tried.Some? <==> hasOnTryQuest)
        && (tried.Some? ==> tried.value == (action, companionId))
    {
      var questKey := companionId + "-" + action;
      if questKey in addedQuests {
        return None;
      }
      addedQuests := addedQuests + [questKey];
      showAddedFeedback := Some(questKey);
      tried := if hasOnTryQuest then Some((action, companionId)) else None;
    }
  }

  /** The index `handleNext` moves to: one on, wrapping from the last
      pattern to the first. */
  function NextIndex(i: nat, n: nat): (j: nat)
    requires i < n
    ensures j < n
    ensures j == 0 <==> i == n - 1
    ensures j != 0 ==> j == i + 1
  {
    if i == n - 1 then 0 else i + 1
  }

  /** The index `handlePrev` moves to: the one whose next is `i`. */
  function PrevIndex(i: nat, n: nat): (j: nat)
    requires i < n
    ensures j < n
    ensures NextIndex(j, n) == i
  {
    if i == 0 then n - 1 else i - 1
  }

  /** Next undoes previous and previous undoes next, so either step can be
      taken back. */
  lemma PrevNextInverse(i: nat, n: nat)
    requires i < n
    ensures NextIndex(PrevIndex(i, n), n) == i
    ensures PrevIndex(NextIndex(i, n), n) == i
  {
  }
}
