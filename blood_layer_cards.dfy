/**
  The optional blood-layer exploration: one card per priority companion (the
  four with the lowest average answer), stepped through with next, previous
  and the dot indicators.
*/
module BloodLayerCards {

  import opened Records
  import opened Companions
  import opened Scoring

  /** `scores.slice(0, 4)`: the companions that get a card, none ranked
      after a companion left without one. */
  function PriorityCompanions(r: Responses): (p: seq<RankedCompanion>)
    requires AllNumeric(r) || NoAnswers(r)
    ensures |p| == 4 && SortedByAverage(p)
    ensures forall i, j :: 0 <= i < 4 && 4 <= j < |RankByAverage(r)| ==>
      NotAfter(p[i].average, RankByAverage(r)[j].average)
    ensures AllNumeric(r) ==> p == Ranked(SortByScore(ScoreCompanions(r))[..4])
    ensures NoAnswers(r) ==> forall i :: 0 <= i < |p| ==> p[i].id == CompanionOrder[i]
  {
    RankedSplit(SortByScore(ScoreCompanions(r)), 4);
    RankByAverage(r)[..4]
  }

  /** The card stepper over `count` cards. */
  class CardDeck {
    const count: nat
    var currentCard: nat

    ghost predicate Valid()
      reads this
    {
      currentCard < count
    }

    constructor (n: nat)
      requires n > 0
      ensures Valid() && count == n && currentCard == 0
    {
      count := n;
      currentCard := 0;
    }

    /** `handleNext`: the next card, or on the last card `onContinue`. */
    method HandleNext() returns (continued: bool)
      requires Valid()
      modifies this
      ensures Valid()
      ensures old(currentCard) < count - 1 ==> currentCard == old(currentCard) + 1 && !continued
      ensures old(currentCard) == count - 1 ==> currentCard == old(currentCard) && continued
    {
      if currentCard < count - 1 {
        currentCard := currentCard + 1;
        continued := false;
      } else {
        continued := true;
      }
    }

    /** `handlePrev`: the previous card, if there is one. */
    method HandlePrev()
      requires Valid()
      modifies this
      ensures Valid()
      ensures old(currentCard) > 0 ==> currentCard == old(currentCard) - 1
      ensures old(currentCard) == 0 ==> currentCard == 0
    {
      if currentCard > 0 {
        currentCard := currentCard - 1;
      }
    }

    /** A dot indicator: jumps to its card. */
    method SelectCard(i: nat)
      requires Valid() && i < count
      modifies this
      ensures Valid() && currentCard == i
    {
      currentCard := i;
    }

    /** The left button: "Back" (`onBack`) on the first card, "Previous"
        elsewhere. */
    method PressBackButton() returns (calledOnBack: bool)
      requires Valid()
      modifies this
      ensures Valid()
      ensures old(currentCard) == 0 ==> calledOnBack && currentCard == 0
      ensures old(currentCard) > 0 ==> !calledOnBack && currentCard == old(currentCard) - 1
    {
      if currentCard == 0 {
        calledOnBack := true;
      } else {
        calledOnBack := false;
        HandlePrev();
      }
    }
  }

  /** Pressing next through a full deck of four priority cards visits each
      card once and continues on the fourth press. */
  method WalkThroughFourCards() returns (deck: CardDeck, continued: bool)
    ensures deck.count == 4 && deck.currentCard == 3 && continued
  {
    deck := new CardDeck(4);
    var c := deck.HandleNext();
    c := deck.HandleNext();
    c := deck.HandleNext();
    assert deck.currentCard == 3 && !c;
    continued := deck.HandleNext();
  }
}
