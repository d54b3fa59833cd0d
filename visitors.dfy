/**
  Forest visiting: the shareable forest code, visitors' gifts shown as
  garden elements, and the reactions visitors left on a quest. Visit times
  are display strings and are carried along unchanged.
*/
module Visitors {

  import opened Text
  import opened Companions

  datatype Gift = Gift(id: string, emoji: string, name: string, message: string, leftAt: string)

  /** A visitor's reaction to one of the quests; `reactionId` names the
      reaction option used. */
  datatype Reaction = Reaction(questId: string, reactionId: string, timestamp: string)

  datatype Visitor = Visitor(id: string, name: string, avatar: string, visitedAt: string,
                             gift: Gift, reactions: seq<Reaction>)

  // ---------------------------------------------------------------------
  // Forest codes: `generateForestCode`
  // ---------------------------------------------------------------------

  /** The code alphabet: capitals and digits without the look-alikes
      I, O, 0 and 1. */
  const CodeChars: string := "ABCDEFGHJKLMNPQRSTUVWXYZ23456789"

  const CodeLength: nat := 6

  /** Builds the code from the six random draws `picks`, each an index into
      the alphabet. */
  method GenerateForestCode(picks: seq<nat>) returns (code: string)
    requires |picks| == CodeLength
    requires forall i :: 0 <= i < |picks| ==> picks[i] < |CodeChars|
    ensures |code| == CodeLength
    ensures forall i :: 0 <= i < |code| ==> code[i] in CodeChars && code[i] == CodeChars[picks[i]]
  {
    code := "";
    var i := 0;
    while i < CodeLength
      invariant 0 <= i <= CodeLength
      invariant |code| == i
      invariant forall k :: 0 <= k < i ==> code[k] == CodeChars[picks[k]]
    {
      code := code + [CodeChars[picks[i]]];
      i := i + 1;
    }
  }

  // ---------------------------------------------------------------------
  // Gifts in the garden: `getVisitorGiftsAsGardenElements`
  // ---------------------------------------------------------------------

  /** A gift drawn in the garden. The scatter offsets are not modelled. */
  datatype GiftElement = GiftElement(
    id: string, emoji: string, name: string, kind: string,
    visitorName: string, visitorAvatar: string, message: string, leftAt: string,
    companionId: string)

  const GiftPrefix := "visitor-gift-"

  function GiftElementOf(v: Visitor, index: nat): GiftElement {
    GiftElement(GiftPrefix + v.id, v.gift.emoji, v.gift.name, "visitor-gift",
                v.name, v.avatar, v.gift.message, v.gift.leftAt,
                CompanionOrder[index % |CompanionOrder|])
  }

  /** One element per visitor, in visitor order, each carrying its visitor's
      gift and name and placed next to the companions in turn. */
  function GiftsAsGardenElements(visitors: seq<Visitor>): (r: seq<GiftElement>)
    ensures |r| == |visitors|
    ensures forall i :: 0 <= i < |r| ==>
      && r[i].id == GiftPrefix + visitors[i].id
      && r[i].emoji == visitors[i].gift.emoji && r[i].name == visitors[i].gift.name
      && r[i].visitorName == visitors[i].name
      && r[i].companionId == CompanionOrder[i % 7]
  {
    seq(|visitors|, i requires 0 <= i < |visitors| => GiftElementOf(visitors[i], i))
  }

  /** Gift elements of visitors with distinct ids have distinct ids. */
  lemma GiftIdsDistinct(visitors: seq<Visitor>)
    requires forall i, j :: 0 <= i < j < |visitors| ==> visitors[i].id != visitors[j].id
    ensures var r := GiftsAsGardenElements(visitors);
      forall i, j :: 0 <= i < j < |r| ==> r[i].id != r[j].id
  {
    var r := GiftsAsGardenElements(visitors);
    forall i, j | 0 <= i < j < |r| ensures r[i].id != r[j].id {
      assert r[i].id[|GiftPrefix|..] == visitors[i].id;
      assert r[j].id[|GiftPrefix|..] == visitors[j].id;
    }
  }

  /** Seven visitors on, the gift sits by the same companion again; the
      first seven gifts go to seven different companions. */
  lemma GiftCompanionsCycle(visitors: seq<Visitor>)
    ensures var r := GiftsAsGardenElements(visitors);
      && (forall i :: 0 <= i && i + 7 < |r| ==> r[i + 7].companionId == r[i].companionId)
      && (forall i, j :: 0 <= i < j < |r| && j < 7 ==> r[i].companionId != r[j].companionId)
  {
    var r := GiftsAsGardenElements(visitors);
    forall i | 0 <= i && i + 7 < |r| ensures r[i + 7].companionId == r[i].companionId {
      assert (i + 7) % 7 == i % 7;
    }
  }

  // ---------------------------------------------------------------------
  // Reactions: `getQuestReactions`, `countQuestReactions`
  // ---------------------------------------------------------------------

  /** A reaction with its visitor's name and avatar. */
  datatype TaggedReaction = TaggedReaction(reaction: Reaction, visitorName: string, visitorAvatar: string)

  function Tag(v: Visitor, r: Reaction): TaggedReaction {
    TaggedReaction(r, v.name, v.avatar)
  }

  /** The reactions among `rs` (the first part of `v`'s list) that are on
      quest `questId`, tagged with `v`, in order. */
  function MatchingOf(v: Visitor, rs: seq<Reaction>, questId: string): (r: seq<TaggedReaction>)
    ensures |r| <= |rs|
    ensures forall t :: t in r ==>
      && t.reaction.questId == questId && t.reaction in rs
      && t.visitorName == v.name && t.visitorAvatar == v.avatar
  {
    if rs == [] then []
    else
      var last := rs[|rs| - 1];
      var init := MatchingOf(v, rs[..|rs| - 1], questId);
      assert forall x :: x in rs[..|rs| - 1] ==> x in rs;
      init + (if last.questId == questId then [Tag(v, last)] else [])
  }

  /** The reactions on quest `questId`, visitor by visitor. */
  function ReactionsOf(visitors: seq<Visitor>, questId: string): (r: seq<TaggedReaction>)
    ensures forall t :: t in r ==> t.reaction.questId == questId
  {
    if visitors == [] then []
    else
      var v := visitors[|visitors| - 1];
      ReactionsOf(visitors[..|visitors| - 1], questId) + MatchingOf(v, v.reactions, questId)
  }

  /** A quest nobody reacted to has no reactions. */
  lemma {:induction false} UnknownQuestHasNoReactions(visitors: seq<Visitor>, questId: string)
    requires forall i, j :: 0 <= i < |visitors| && 0 <= j < |visitors[i].reactions| ==>
      visitors[i].reactions[j].questId != questId
    ensures ReactionsOf(visitors, questId) == []
  {
    if visitors != [] {
      UnknownQuestHasNoReactions(visitors[..|visitors| - 1], questId);
      var n := |visitors| - 1;
      var v := visitors[n];
      forall x | x in v.reactions ensures x.questId != questId {
        var j :| 0 <= j < |v.reactions| && v.reactions[j] == x;
        assert visitors[n].reactions[j] == x;
      }
      NoMatchIsEmpty(v, v.reactions, questId);
    }
  }

  lemma {:induction false} NoMatchIsEmpty(v: Visitor, rs: seq<Reaction>, questId: string)
    requires forall x :: x in rs ==> x.questId != questId
    ensures MatchingOf(v, rs, questId) == []
  {
    if rs != [] {
      assert forall x :: x in rs[..|rs| - 1] ==> x in rs;
      NoMatchIsEmpty(v, rs[..|rs| - 1], questId);
    }
  }

  /** Every reaction on the quest is found, tagged with its visitor. */
  lemma {:induction false} EveryReactionIsFound(visitors: seq<Visitor>, questId: string, i: nat, j: nat)
    requires i < |visitors| && j < |visitors[i].reactions|
    requires visitors[i].reactions[j].questId == questId
    ensures Tag(visitors[i], visitors[i].reactions[j]) in ReactionsOf(visitors, questId)
  {
    var n := |visitors|;
    if i < n - 1 {
      assert visitors[..n - 1][i] == visitors[i];
      EveryReactionIsFound(visitors[..n - 1], questId, i, j);
    } else {
      MatchingFinds(visitors[i], visitors[i].reactions, questId, j);
    }
  }

  lemma {:induction false} MatchingFinds(v: Visitor, rs: seq<Reaction>, questId: string, j: nat)
    requires j < |rs| && rs[j].questId == questId
    ensures Tag(v, rs[j]) in MatchingOf(v, rs, questId)
  {
    if j < |rs| - 1 {
      assert rs[..|rs| - 1][j] == rs[j];
      MatchingFinds(v, rs[..|rs| - 1], questId, j);
    }
  }

  lemma MatchingStep(v: Visitor, rs: seq<Reaction>, j: nat, questId: string)
    requires j < |rs|
    ensures MatchingOf(v, rs[..j + 1], questId) ==
      MatchingOf(v, rs[..j], questId) + (if rs[j].questId == questId then [Tag(v, rs[j])] else [])
  {
    assert rs[..j + 1][..j] == rs[..j];
  }

  lemma ReactionsStep(visitors: seq<Visitor>, i: nat, questId: string)
    requires i < |visitors|
    ensures ReactionsOf(visitors[..i + 1], questId) ==
      ReactionsOf(visitors[..i], questId) + MatchingOf(visitors[i], visitors[i].reactions, questId)
  {
    assert visitors[..i + 1][..i] == visitors[..i];
  }

  /** `getQuestReactions`: the nested walk over visitors and their
      reactions; `found` holds what the current visitor adds. */
  method GetQuestReactions(questId: string, visitors: seq<Visitor>) returns (reactions: seq<TaggedReaction>)
    ensures reactions == ReactionsOf(visitors, questId)
  {
    reactions := [];
    var i := 0;
    while i < |visitors|
      invariant 0 <= i <= |visitors|
      invariant reactions == ReactionsOf(visitors[..i], questId)
    {
      var v := visitors[i];
      var found := [];
      var j := 0;
      while j < |v.reactions|
        invariant 0 <= j <= |v.reactions|
        invariant found == MatchingOf(v, v.reactions[..j], questId)
      {
        var r := v.reactions[j];
        MatchingStep(v, v.reactions, j, questId);
        if r.questId == questId {
          found := found + [TaggedReaction(r, v.name, v.avatar)];
        }
        j := j + 1;
      }
      assert v.reactions[..j] == v.reactions;
      ReactionsStep(visitors, i, questId);
      reactions := reactions + found;
      i := i + 1;
    }
    assert visitors[..i] == visitors;
  }

  /** `countQuestReactions`: the same walk, counting; `found` counts what
      the current visitor adds. */
  method CountQuestReactions(questId: string, visitors: seq<Visitor>) returns (count: nat)
    ensures count == |ReactionsOf(visitors, questId)|
  {
    count := 0;
    var i := 0;
    while i < |visitors|
      invariant 0 <= i <= |visitors|
      invariant count == |ReactionsOf(visitors[..i], questId)|
    {
      var v := visitors[i];
      var found := 0;
      var j := 0;
      while j < |v.reactions|
        invariant 0 <= j <= |v.reactions|
        invariant found == |MatchingOf(v, v.reactions[..j], questId)|
      {
        MatchingStep(v, v.reactions, j, questId);
        if v.reactions[j].questId == questId {
          found := found + 1;
        }
        j := j + 1;
      }
      assert v.reactions[..j] == v.reactions;
      ReactionsStep(visitors, i, questId);
      count := count + found;
      i := i + 1;
    }
    assert visitors[..i] == visitors;
  }
}
