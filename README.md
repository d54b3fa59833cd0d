# Health Companions: a verified model of the check-in core

Health Companions is a weekly wellness check-in app. Seven animal companions
each stand for one health domain: Pip for energy, Luna for sleep, Ember for
movement, Sage for focus, Coral for mood, Brook for nutrition and Oak for
stress. Each check-in works like this:

- The user answers each companion's questions: sliders from 0 to 100 and
  choice buttons.
- Each domain is scored as the mean of its answers and placed in a band:
  low, medium or high.
- The companions are ranked, and the lowest three (or four) get attention.
- A four-letter "health type" is derived from an assessment or from the
  domain scores.
- The user picks micro-quests, which appear on a map. Completing a quest
  grows a garden.
- The check-in is stored in a capped log. The log drives the companions'
  evolution levels and a weekly streak.

This project models that logic in Dafny and proves what the code promises about it.

There is one module per source file, plus two shared modules:

- `Text` holds ASCII lower-casing, JavaScript `trim`, `startsWith`,
  `includes`, `split`, decimal printing and `parseInt`.
- `Records` holds the shared records and the insertion-ordered
  dictionary that stands for JavaScript objects.

The modules follow the source's own form:

- **Pure code becomes functions and lemmas:**
  - scoring and banding, sorting and slicing;
  - the health-type lookups;
  - the companion catalog;
  - quest icons;
  - quest-list filters.
- **State that the source updates in place becomes classes with `modifies` clauses:**
  - the app's React state (`App.AppState`);
  - the local store (`Storage.LocalStore`);
  - the account store (`Auth.AccountStore`);
  - the questionnaire form (`DomainCheckIn.CheckInForm`);
  - the assessment (`MbtiAssessment.Assessment`);
  - the quest picker (`MicroQuests.QuestPicker`);
  - the card deck (`BloodLayerCards.CardDeck`);
  - the tips carousel (`CommunityInsights.Carousel`).
- **Loops in the source become methods with loop invariants, proved equal to a specification function:**
  - the domain rule loop of the classifier;
  - the evolution count;
  - the quest grouping;
  - both streak walks;
  - the evolution table;
  - the forest code;
  - the reaction walks.

Several environment-dependent inputs become parameters:

- Dates and `Date.now()` become integer milliseconds.
- Random draws become index parameters bounded by the ranges the source
  draws from.
- `localStorage` becomes fields of the store classes.

## Model

| member | source | states |
|---|---|---|
| Text.Lower | src/App.jsx:501 | lower-casing keeps the length and maps each character through the ASCII case map |
| Text.LowerIdempotent | src/App.jsx:501 | lower-casing a lower-cased string changes nothing |
| Text.LowerAppend | src/utils/auth.js:27 | lower-casing distributes over concatenation |
| Text.Trim | src/components/MicroQuests.jsx:42 | the trimmed text is no longer than the input, neither starts nor ends with white space, and is empty for an all-white-space input |
| Text.TrimIsSlice | src/components/MicroQuests.jsx:42 | the trimmed text is a contiguous slice of the input with only white space before and after it |
| Text.TrimIgnoresLeadingWhitespace | src/utils/auth.js:27 | white space added in front never changes the trimmed text |
| Text.TrimIgnoresTrailingWhitespace | src/utils/auth.js:27 | white space added at the end never changes the trimmed text |
| Text.TrimIgnoresSurroundingWhitespace | src/utils/auth.js:27 | white space added on either side never changes the trimmed text |
| Text.LowerKeepsWhitespace | src/utils/auth.js:27 | lower-casing leaves white space unchanged |
| Text.NatToString | src/components/MicroQuests.jsx:31 | the decimal text of a number is non-empty and all digits |
| Text.ParseIndexOfNatToString | src/App.jsx:316-318 | parsing the printed index gives the index back |
| Text.ParseIndexOfDigits | src/App.jsx:318 | `parseInt` of a non-empty run of digits is the digits' value |
| Text.ParseIndex | src/App.jsx:318 | an empty string, or one opening with a character that is neither white space, `+` nor a digit, parses to `NaN` |
| Text.ParseIndexOfHex | src/App.jsx:318 | `0x` followed by hexadecimal digits parses to their base-16 value, and `0x` with no digit after it to `NaN`, as `parseInt` without a radix does |
| Text.Split | src/App.jsx:316 | a split has at least one piece, and no piece contains the separator |
| Text.SplitOfJoined | src/App.jsx:316 | the first piece of `a-b` is `a` when `a` has no separator |
| Records.Get | src/App.jsx:154 | a lookup is absent exactly when no entry has the key, and otherwise returns the value of an entry with that key |
| Records.PutGet | src/components/DomainCheckIn.jsx:12 | writing a key changes that key's value and no other |
| Records.PutKeys | src/components/DomainCheckIn.jsx:12 | an existing key keeps its place and a new key is appended |
| Records.PutDistinct | src/components/DomainCheckIn.jsx:12 | writing keeps the keys distinct |
| Records.MergeGet | src/App.jsx:154 | after `{ ...d, ...e }` every key of `e` has `e`'s value and every other key keeps `d`'s |
| Records.Merge | src/App.jsx:154 | every key of either operand of `{ ...d, ...e }` is a key of the result |
| Records.PutHasKey | src/components/DomainCheckIn.jsx:12 | after a write the keys are the old keys plus the written key |
| Records.MergeDistinct | src/App.jsx:154 | merging keeps the keys distinct |
| Records.DeleteGet | src/components/MBTIAssessment.jsx:58-59 | deleting removes exactly that key |
| Records.StampCheckIn | src/utils/storage.js:13-17 | the entry's id is the time, its data is the payload, and its date is the payload's own date when given (spread order) or else the time |
| Records.LastN | src/utils/storage.js:21 | `slice(-n)` keeps min(len, n) elements and they are the last ones |
| Records.AppendCapped | src/utils/storage.js:18-21 | appending to a 52-capped log gives length min(old+1, 52), puts the new entry last and drops the oldest first |
| Companions.GetCompanion | src/data/companions.js:273-275 | a companion exists exactly for the seven ids, and has the id asked for |
| Companions.GetAllCompanions | src/data/companions.js:277-279 | the seven companions in `companionOrder` order, each the catalog entry |
| Companions.GetMoodEmoji | src/data/companions.js:282-287 | no companion gives 🌱; no level gives the base emoji; a level gives its mood emoji, falling back to the base emoji |
| Companions.CatalogKeysAreOrder | src/data/companions.js:4-271 | the catalog keys are exactly the ids of `companionOrder`, listed once each, and each entry's id is its key |
| Companions.QuestionIdsArePrefixed | src/data/companions.js:27-268 | every question id is its owner's id, a `-`, and a digit |
| Companions.FirstLettersDistinct | src/data/companions.js:271 | the seven ids differ in their first letter |
| Companions.NoIdIsPrefixOfAnother | src/data/companions.js:271 | no id is a prefix of another |
| Companions.QuestionBelongsToOwnerOnly | src/App.jsx:162-163 | a question id starts with its own companion's id and with no other companion's id |
| Companions.QuestShapes | src/data/companions.js:35-39 | every companion has at least one question and exactly three micro-quests |
| Companions.IdsHaveNoHyphen | src/App.jsx:316 | no companion id contains `-` |
| Companions.CompanionCountIsOrderLength | src/data/companions.js:271 | the companion count used by the check-in flow is the length of `companionOrder` |
| Scoring.GetLevel | src/App.jsx:493-497 | below 35 is low, 35 up to below 65 is medium, 65 and above is high (each as an if-and-only-if) |
| Scoring.GetLevelMonotone | src/App.jsx:493-497 | a higher score never gets a lower band |
| Scoring.Selected | src/App.jsx:162-164 | the selected answers are at most as many as all answers |
| Scoring.DomainScore | src/App.jsx:162-168 | a domain with no answers scores the neutral 50 |
| Scoring.DomainScoreIsMean | src/App.jsx:165-167 | with answers, the score times their count is their sum: the score is their mean |
| Scoring.ScoreCompanions | src/App.jsx:161-174 | one entry per companion in catalog order, with the domain score and its band |
| Scoring.DomainScoreWithin | src/App.jsx:165-168 | with every answer in 0..100, every domain score is in 0..100 |
| Scoring.NoAnswersIsNeutral | src/App.jsx:165-168 | a domain with no answers scores 50, which is medium |
| Scoring.MergeOtherKeepsScore | src/App.jsx:154 | merging answers that do not belong to a domain leaves its score unchanged |
| Scoring.ChoiceIndexIsAveraged | src/App.jsx:164 | a choice answer is averaged as its option index |
| Scoring.TwoDomainExample | src/App.jsx:161-174 | answers 20 and 30 score 25 (low) and an answer of 80 scores 80 (high), each for its own domain |
| Scoring.Insert | src/App.jsx:176 | insertion keeps the list sorted and adds exactly the one element |
| Scoring.SortByScore | src/App.jsx:176 | the result is sorted ascending by score and is a permutation of the input; its stability is stated by `SortByScoreIsStable` |
| Scoring.InsertWithScore | src/App.jsx:176 | insertion places the new entry ahead of the entries with its score and keeps the entries of every score in their order |
| Scoring.SortByScoreIsStable | src/App.jsx:176 | for every score, the entries with that score come out in their input order, as the stable `Array.prototype.sort` leaves them |
| Scoring.AllTiedKeepsOrder | src/App.jsx:176 | a list whose entries all have the same score comes back unchanged |
| Scoring.LowestSplit | src/components/Dashboard.jsx:26-28 | the first k and the rest concatenate to the sorted list; the first part has min(k, n) elements, is sorted, scores no higher than any of the rest, and with the rest is a permutation of the input |
| Scoring.SortedSplit | src/components/Dashboard.jsx:26-28 | a sorted list cut in two gives two sorted parts, the first scoring no higher than the second, together holding the list |
| Scoring.UnguardedAgreesWithGuarded | src/components/Dashboard.jsx:11-16 | wherever the unguarded mean is defined, it equals the guarded score |
| Scoring.EmptyResponsesHaveNoAnswers | src/App.jsx:35 | the initial empty responses hold no answer for any companion |
| Scoring.AverageLevel | src/components/Dashboard.jsx:192-196 | low exactly below 35, medium exactly from 35 below 65, high from 65 and for NaN, which fails both tests |
| Scoring.UnguardedAverage | src/components/Dashboard.jsx:12-16 | NaN exactly when the companion has no answers; otherwise the guarded score of the check-in flow |
| Scoring.Averages | src/components/Dashboard.jsx:11-23 | one entry per companion in catalog order; with an answer for every companion they are the check-in flow's scores, and with no answers every average is NaN |
| Scoring.InsertByAverage | src/components/Dashboard.jsx:26 | one more element, and exactly the inserted one |
| Scoring.SortByAverage | src/components/Dashboard.jsx:26 | a permutation of the input |
| Scoring.InsertOfRanked | src/components/Dashboard.jsx:26 | on numeric averages, inserting with the comparator is the check-in flow's insertion |
| Scoring.SortByAverageOfRanked | src/components/Dashboard.jsx:26 | on numeric averages, the comparator sort is the check-in flow's stable sort by score |
| Scoring.AllNaNKeepsOrder | src/components/Dashboard.jsx:26 | when every average is NaN every comparison ties, and the stable sort keeps the input order |
| Scoring.RankByAverage | src/components/Dashboard.jsx:11-26 | the sorted averages, in comparator order and a permutation of all seven; with an answer for every companion the check-in flow's ranking, with no answers the catalog order |
| HealthTypes.CatalogIsComplete | src/data/healthTypes.js:4-283 | the catalog keys are exactly the sixteen codes of `healthTypeOrder`, and every entry's id is its key |
| HealthTypes.OrderIsDistinct | src/data/healthTypes.js:278-283 | `healthTypeOrder` lists each code once |
| HealthTypes.CodeOf | src/data/healthTypes.js:456-460 | the code has four letters; each is the first of its pair exactly when that counter is at least its partner's (ties give E, S, T, J); the code is a catalog key |
| HealthTypes.EveryTypeIsReachable | src/data/healthTypes.js:456-460 | every catalog code is the code of some tally |
| HealthTypes.Classify | src/data/healthTypes.js:400-475 | the classification's code is a catalog key and its entry is that key's, so `primary` is never undefined |
| HealthTypes.ApplyRule | src/data/healthTypes.js:424-453 | one switch step adds exactly the rule's increment for that domain |
| HealthTypes.EffectiveScore | src/data/healthTypes.js:422 | the score used is never 0, and a non-zero score is used as it is |
| HealthTypes.Rule | src/data/healthTypes.js:424-453 | for a known id a high score adds three points and a low score two or three, and a low score raises only the opposite letters of those a high score raises |
| HealthTypes.RuleCoversCompanions | src/data/healthTypes.js:424-453 | the `switch` has a case for exactly the seven companion ids |
| HealthTypes.Increment | src/data/healthTypes.js:422-453 | an unknown id, or an effective score from 40 to 60, adds nothing |
| HealthTypes.DomainTally | src/data/healthTypes.js:419-453 | after n domains the counters total at most 3n |
| HealthTypes.DomainTallySnoc | src/data/healthTypes.js:421-453 | one more domain lowers no counter and adds at most three points |
| HealthTypes.TallyScores | src/data/healthTypes.js:419-454 | the loop over the domain scores builds the tally of the specification |
| HealthTypes.BuildCode | src/data/healthTypes.js:456-460 | the letters appended one by one form the code of the tally |
| HealthTypes.CalculateHealthType | src/data/healthTypes.js:400-475 | the method's result equals the classification function |
| HealthTypes.DirectTallyTakesPrecedence | src/data/healthTypes.js:402-418 | a direct tally decides the code whatever domain scores are given, and is returned unchanged |
| HealthTypes.DefaultIsProtector | src/data/healthTypes.js:469-474 | no tally and no domain scores give ISFJ with the tally E0 I1 S1 N0 T0 F1 J1 P0 |
| HealthTypes.NeutralAddsNothing | src/data/healthTypes.js:424-453 | a score from 40 to 60, or an unknown id, adds nothing |
| HealthTypes.ZeroScoreAddsNothing | src/data/healthTypes.js:422 | a zero score is read as 50 and adds nothing |
| HealthTypes.IncrementAtMostThree | src/data/healthTypes.js:424-453 | one domain adds at most 3 in total |
| HealthTypes.DomainTallyGrowth | src/data/healthTypes.js:419-453 | counters never decrease along the loop, and each remaining domain adds at most 3 |
| HealthTypes.AllNeutralIsPlanner | src/data/healthTypes.js:456-460 | all-neutral domains leave an all-zero tally, whose ties give ESTJ |
| HealthTypes.GetHealthType | src/data/healthTypes.js:572-574 | an entry exists exactly for the sixteen codes, and has the id asked for |
| HealthTypes.GetAllHealthTypes | src/data/healthTypes.js:576-578 | the sixteen entries in `healthTypeOrder` order, all distinct |
| HealthTypes.EveryStyleHasSuggestions | src/data/healthTypes.js:482-570 | every catalog entry's quest style has three suggestions |
| HealthTypes.GetTypeQuestSuggestions | src/data/healthTypes.js:478-570 | an unknown code gives nothing; every known code gives exactly the three suggestions of its style |
| HealthTypes.MessagesCoverCatalog | src/data/healthTypes.js:585-602 | the codes with a message are exactly the catalog codes, so the fallback at line 604 never applies to a known code |
| HealthTypes.GetTypeCompanionMessage | src/data/healthTypes.js:581-605 | an unknown code gives "`name`'s suggestion for you:"; a known one opens with "As the " and names the companion |
| MbtiAssessment.Bump | src/components/MBTIAssessment.jsx:37 | a single-axis answer adds 1 to its letter and leaves the other seven counters alone |
| MbtiAssessment.ScoreAnswer | src/components/MBTIAssessment.jsx:24-38 | an answer lowers no counter and adds at most two points |
| MbtiAssessment.QuestionsMatchAxes | src/data/healthTypes.js:286-397 | every question offers exactly the two letters (or letter pairs) of its axis |
| MbtiAssessment.AxisCountsOfAll | src/data/healthTypes.js:286-397 | two questions feed E/I, two T/F, and four each S/N and J/P |
| MbtiAssessment.ScoreAnswerAxes | src/components/MBTIAssessment.jsx:24-38 | an answer adds exactly one point to each pair its question feeds |
| MbtiAssessment.DualAnswerRaisesTwo | src/components/MBTIAssessment.jsx:26-34 | SJ raises exactly S and J; NP raises exactly N and P |
| MbtiAssessment.TallyOfAnswersAxes | src/components/MBTIAssessment.jsx:24-38 | after k answers each pair's total is the number of the first k questions feeding it |
| MbtiAssessment.CompleteAssessmentTotals | src/data/healthTypes.js:286-397 | answering all ten questions gives E+I = 2, T+F = 2, S+N = 4 and J+P = 4 |
| MbtiAssessment.Assessment.constructor | src/components/MBTIAssessment.jsx:5-9 | the form starts at the intro with all counters 0 |
| MbtiAssessment.Assessment.Begin | src/components/MBTIAssessment.jsx:102 | "Begin" leaves the intro and nothing else |
| MbtiAssessment.Assessment.HandleAnswer | src/components/MBTIAssessment.jsx:14-39 | during a transition nothing changes; otherwise the answer is recorded and the tally updated |
| MbtiAssessment.Assessment.FinishTransition | src/components/MBTIAssessment.jsx:42-51 | before the last question the index advances; after the last, the accumulated tally is classified |
| MbtiAssessment.Assessment.HandleBack | src/components/MBTIAssessment.jsx:54-66 | going back decrements the index and forgets the previous answer without lowering the tally; at 0 it returns to the intro or calls `onBack` |
| DomainCheckIn.ValidAnswersWithinRange | src/components/DomainCheckIn.jsx:113-154 | every value a slider or choice can produce lies in 0..100 |
| DomainCheckIn.SliderDisplay | src/components/DomainCheckIn.jsx:114 | an unset slider shows 50 and a set one shows its value |
| DomainCheckIn.CheckInForm.constructor | src/components/DomainCheckIn.jsx:4-5 | a fresh form has no answers and shows the first question |
| DomainCheckIn.CheckInForm.HandleAnswer | src/components/DomainCheckIn.jsx:11-13 | sets the question's value, leaves the other answers, and enables Next |
| DomainCheckIn.CheckInForm.CanProceed | src/components/DomainCheckIn.jsx:31 | Next is enabled exactly when the question on screen has an answer |
| DomainCheckIn.CheckInForm.HandleNext | src/components/DomainCheckIn.jsx:15-21 | advances before the last question; on the last it completes with the answers, which hold only this companion's question ids |
| DomainCheckIn.CheckInForm.HandlePrev | src/components/DomainCheckIn.jsx:23-29 | steps back above 0; at 0 it calls `onBack` when there is one |
| DomainCheckIn.CheckInForm.ShowCompanionKeepingState | src/App.jsx:443-450 | a new companion prop on the same form keeps the answers and the index |
| DomainCheckIn.PutEntries | src/components/DomainCheckIn.jsx:12 | every entry after a write is the written one or an old one |
| DomainCheckIn.ReusedFormAfterMood | src/App.jsx:443-450 | after Coral's two questions, the reused form shows Brook at an index past Brook's only question |
| DomainCheckIn.EveryCompanionCanOpenAForm | src/data/companions.js:27-268 | every companion has a first question, so a fresh form can open for it |
| App.FirstRuleIcon | src/App.jsx:500-513 | no matching rule gives the default; otherwise the icon is that of the first matching rule |
| App.GetQuestIcon | src/App.jsx:500-513 | the icon of the first keyword rule matching the lower-cased text, or ✨ when none matches |
| App.WalkQuestIcon | src/App.jsx:502 | any quest opening with "Walk" gets 🚶 |
| App.IconIgnoresCase | src/App.jsx:501 | the icon depends on the text only up to case |
| App.AddIfNewKeepsPairsUnique | src/App.jsx:212-218 | a duplicate (companion, text) pair leaves the list unchanged; otherwise exactly one quest is appended; pairs stay unique |
| App.AddIfNew | src/App.jsx:296-306 | afterwards the pair is present; the old list is kept as a prefix; one quest is appended exactly when the pair was absent, and it is the new quest |
| App.FindQuest | src/App.jsx:247 | absent exactly when no quest has the id; otherwise the first quest with it |
| App.MarkCompleted | src/App.jsx:248-250 | same length; quests with the id become completed at `now`; the others are untouched |
| App.RemoveQuestById | src/App.jsx:285 | a quest is in the result exactly when it is in the input and its id differs, so no quest with the id remains and every other quest survives; an absent id changes nothing |
| App.RemoveDistributes | src/App.jsx:285 | removal works piece by piece, so the order of the rest is kept |
| App.RemoveKeepsOthers | src/App.jsx:285 | every quest with another id survives |
| App.ResolveToggleKey | src/App.jsx:316-318 | a key `id-i` built by the picker resolves to micro-quest i of that companion |
| App.SplitOfToggleKey | src/App.jsx:316 | a key `id-i` splits on `-` into exactly the id and the index |
| App.ResolveKey | src/App.jsx:316-318 | a key resolves only to the catalog companion named by its text before the first `-`, and to that companion's micro-quest at the in-range index parsed from the second piece |
| App.QuestFromKey | src/App.jsx:316-327 | a quest is built exactly when the key resolves, and it is an active, non-custom copy of a catalog micro-quest of the companion it names |
| App.KeyToQuests | src/App.jsx:314-330 | a `custom-` key gives nothing; any other key gives its quest when it resolves and nothing when it does not |
| App.KeysToQuests | src/App.jsx:313-330 | at most one quest per key; every non-custom key that resolves contributes its quest, and every quest comes from such a key |
| App.KeysToQuestsAppend | src/App.jsx:313-330 | the conversion works key by key: converting two lists one after the other gives the two conversions one after the other |
| App.KeysToQuestsAreCatalogQuests | src/App.jsx:315-330 | every converted quest is an active, non-custom copy of a catalog micro-quest |
| App.CustomKeysAreSkipped | src/App.jsx:314 | `custom-` keys anywhere in the list are skipped: removing them leaves the conversion unchanged |
| App.CatalogKeyIsNotCustom | src/App.jsx:314 | a key built from a catalog id never starts with `custom-` |
| App.PickedKeyAppends | src/App.jsx:313-330 | appending the picker's key `id-i` appends exactly micro-quest i of that companion, active and with id `id-now-i` |
| App.CustomsToQuests | src/App.jsx:333-341 | one quest per custom quest, in order |
| App.QuestKeyInjective | src/App.jsx:346-347 | for ids without `-`, equal keys mean equal (companion, text) pairs |
| App.UniqueNew | src/App.jsx:347 | keeps exactly the new quests whose key is not already present |
| App.AppendNewQuests | src/App.jsx:345-349 | the existing quests come first and unchanged, followed only by new quests with unseen keys, and every new quest whose key is unseen is among those appended |
| App.AppendNewQuestsTwice | src/App.jsx:345-349 | finishing twice with the same quests adds nothing the second time |
| App.AppState.constructor | src/App.jsx:33-44 | the initial state |
| App.AppState.HandleBeginCheckIn | src/App.jsx:147-151 | resets the index and the answers and opens the check-in |
| App.AppState.HandleCompanionComplete | src/App.jsx:153-185 | merges the answers; before the last companion it advances; after the last it stores the sorted scores and the classified type and opens the dashboard |
| App.AppState.HandleBackFromCompanion | src/App.jsx:187-193 | steps back, or from the first companion returns to onboarding |
| App.AppState.HandleAddQuest | src/App.jsx:200-219 | records the community selection and adds the quest with its icon unless the pair already exists |
| App.AppState.HandleCompleteQuest | src/App.jsx:246-281 | marks the quests completed and adds exactly one garden element, only when the id exists (whatever its status) |
| App.AppState.HandleRemoveQuest | src/App.jsx:284-291 | removes exactly the quests with the id and keeps every other quest |
| App.AppState.HandleAddCustomQuest | src/App.jsx:294-307 | adds the quest unless its pair already exists |
| App.AppState.HandleQuestsFinish | src/App.jsx:309-352 | keeps the selection, appends exactly the converted and custom quests whose keys are new (each of them, and nothing else), and opens the reflection |
| CompanionMap.HelpCount | src/components/CompanionMap.jsx:787-792 | counts each helping check-in once, so the count is at most the history length |
| CompanionMap.EvolutionLevel | src/components/CompanionMap.jsx:783-798 | the level is at most 5, and is 0 for an absent or empty history |
| CompanionMap.HelpCountAppend | src/components/CompanionMap.jsx:787-792 | one more check-in adds one exactly when it helped |
| CompanionMap.EvolutionMonotone | src/components/CompanionMap.jsx:786-797 | appending a check-in never lowers the level |
| CompanionMap.NoSelectionsNoHelp | src/components/CompanionMap.jsx:789 | check-ins without selected quests help nobody |
| CompanionMap.StreakBonusAlone | src/components/CompanionMap.jsx:795-797 | three check-ins that help nobody still give level 1 |
| CompanionMap.GetEvolutionLevel | src/components/CompanionMap.jsx:783-798 | the counting loop gives the specified level |
| CompanionMap.QuestsOf | src/components/CompanionMap.jsx:53-57 | a companion's quests are exactly the list's quests for it |
| CompanionMap.Grouped | src/components/CompanionMap.jsx:53-57 | there are no more groups than quests, and no groups exactly when there are no quests |
| CompanionMap.GroupedAreQuestsOf | src/components/CompanionMap.jsx:53-57 | each companion with quests has exactly one group, which holds all of its quests in list order |
| CompanionMap.GroupByCompanion | src/components/CompanionMap.jsx:53-57 | the reduce loop builds the specified grouping |
| CompanionMap.WithStatus | src/components/CompanionMap.jsx:65-66 | exactly the quests with the status |
| CompanionMap.FilterQuests | src/components/CompanionMap.jsx:60-63 | `all` keeps every quest; any other filter keeps exactly the quests with that status |
| CompanionMap.CountsPartition | src/components/CompanionMap.jsx:65-66 | the active and completed counts add up to the list length |
| CompanionMap.FindById | src/components/CompanionMap.jsx:70 | finds an entry with the id, or none exists |
| CompanionMap.FindScore | src/components/CompanionMap.jsx:70 | absent scores or an unknown id give nothing |
| CompanionMap.Enrich | src/components/CompanionMap.jsx:69-81 | a stored score and band are shown as stored; without one the companion shows 50 and medium |
| CompanionMap.EnrichCompanions | src/components/CompanionMap.jsx:69-81 | one entry per companion in catalog order, all 50 and medium when there are no scores |
| CompanionMap.MainCompanions | src/components/CompanionMap.jsx:84-85 | there are three main companions |
| CompanionMap.MainCompanionsNeedMost | src/components/CompanionMap.jsx:84-85 | the main companions are the ids of the three lowest, and none scores above any of the other four |
| CompanionMap.TiedMainAreFirst | src/components/CompanionMap.jsx:84-85 | when all scores are tied the main companions are the first three in order |
| CompanionMap.NoScoresGivesFirstThree | src/components/CompanionMap.jsx:69-85 | with no stored scores, so that every companion scores 50, the main companions are Pip, Luna and Ember |
| Storage.QuestCount | src/utils/storage.js:77-80 | the count is at most the log length |
| Storage.QuestCountAppend | src/utils/storage.js:56-64 | logging a completion raises that companion's count by one and no other |
| Storage.Evolution | src/utils/storage.js:83-90 | the level is at most 5; with fewer than three check-ins it is the quest count capped at 5 |
| Storage.CompletionRaisesEvolution | src/utils/storage.js:83-90 | a completion raises that companion's level by one until 5 and leaves the others |
| Storage.RunBack | src/utils/storage.js:112-122 | the run back from entry i is at most i |
| Storage.Streak | src/utils/storage.js:105-125 | the streak is 0 exactly for an empty history and never exceeds its length |
| Storage.CloseCheckInsFormOneStreak | src/utils/storage.js:112-122 | with every gap within 1.5 weeks the run reaches the first entry |
| Storage.LongGapResetsStreak | src/utils/storage.js:117-121 | a gap over 1.5 weeks before the newest entry gives streak 1 |
| Storage.LocalStore.constructor | src/utils/storage.js:3-8 | an empty store |
| Storage.EvolutionIdsAreOrder | src/utils/storage.js:94 | the store's own id list is `companionOrder` |
| Storage.LocalStore.SaveCheckIn | src/utils/storage.js:11-25 | stamps and appends the entry, keeps the last 52 with the new entry last, and touches nothing else |
| Storage.LocalStore.SaveCompanionScores | src/utils/storage.js:38-43 | stores the scores with their time |
| Storage.LocalStore.CompleteQuest | src/utils/storage.js:56-64 | appends one record; that companion's count rises by one and every other count is unchanged |
| Storage.LocalStore.GetCompanionQuestCount | src/utils/storage.js:77-80 | the number of log records for the companion |
| Storage.LocalStore.GetCompanionEvolution | src/utils/storage.js:83-90 | min(count + ⌊check-ins/3⌋, 5) |
| Storage.LocalStore.GetAllCompanionEvolutions | src/utils/storage.js:93-102 | exactly the seven ids as keys, in order, each with its evolution |
| Storage.LocalStore.GetCheckInStreak | src/utils/storage.js:105-125 | the walk back from the newest entry gives the specified streak |
| Storage.LocalStore.ClearAllData | src/utils/storage.js:128-132 | every getter reads its empty default: no history, no scores, no completions, streak 0, every evolution 0 |
| Storage.PutAppends | src/utils/storage.js:98 | a key not yet present is appended at the end |
| Storage.PutNextId | src/utils/storage.js:97-99 | filling the table along distinct ids appends each id once, so the keys follow the list |
| Auth.Normalize | src/utils/auth.js:27 | the normalised email is no longer than the input |
| Auth.NormalizeIgnoresCaseAndSpaces | src/utils/auth.js:27 | spellings differing only in case and surrounding white space normalise alike |
| Auth.AccountFoundByVariants | src/utils/auth.js:170-173 | a stored account is found under any such spelling |
| Auth.NewUser | src/utils/auth.js:33-45 | the record has the normalised email, the trimmed name, empty history and quest lists, and no scores |
| Auth.ApplyUpdate | src/utils/auth.js:96-100 | each field the update carries overrides the record; all other fields are kept; the update time is stamped |
| Auth.EmptyUpdateKeepsRecord | src/utils/auth.js:96-100 | an empty update changes only the update time |
| Auth.CheckInUpdateKeeps | src/utils/auth.js:120-130 | the history becomes min(old+1, 52) long with the new check-in last, and the previous quests and type are kept when the check-in omits them |
| Auth.InsertByDate | src/utils/auth.js:187-189 | insertion keeps newest-first order and adds exactly the one entry |
| Auth.SortByDateDesc | src/utils/auth.js:187-189 | the result is sorted newest first and is a permutation of the input |
| Auth.RunForward | src/utils/auth.js:192-200 | the run from entry i never passes the end |
| Auth.UserStreak | src/utils/auth.js:184-201 | the streak is 0 exactly for an empty history and never exceeds its length |
| Auth.InsertOldestGoesLast | src/utils/auth.js:187-189 | an entry older than all others is placed last |
| Auth.SortOfAscendingIsReverse | src/utils/auth.js:187-189 | a log stored oldest first with distinct dates sorts into its reverse |
| Auth.RunForwardOfReverse | src/utils/auth.js:192-200 | walking the reversed log forward is walking the log backward |
| Auth.StreaksAgree | src/utils/auth.js:184-201 | on a log stored oldest first with distinct dates, the account streak equals the local store's streak |
| Auth.AccountStore.constructor | src/utils/auth.js:4-7 | no users and no session |
| Auth.AccountStore.CreateAccount | src/utils/auth.js:25-54 | an address already registered fails with the duplicate message and changes nothing; otherwise the new record is stored under the normalised email and signed in |
| Auth.AccountStore.Login | src/utils/auth.js:57-68 | an unknown address fails and keeps the session; a known one signs in its record |
| Auth.AccountStore.Logout | src/utils/auth.js:71-73 | ends the session and keeps the users |
| Auth.AccountStore.CheckEmailExists | src/utils/auth.js:170-173 | true exactly when the normalised email is registered |
| Auth.AccountStore.UpdateUser | src/utils/auth.js:91-107 | without a session nothing is written; otherwise the merged record is written to the users table and the session alike |
| Auth.AccountStore.SaveUserCheckIn | src/utils/auth.js:110-131 | without a session nothing is written; otherwise the check-in update is applied |
| Auth.AccountStore.SaveUserQuest | src/utils/auth.js:156-167 | without a session nothing is written; otherwise the record with one completion appended (all other fields kept, updatedAt set) is written to the users table under the session's email and becomes the session |
| Auth.AccountStore.GetUserStats | src/utils/auth.js:176-209 | nothing without a session; otherwise the check-in and quest counts, the specified streak and the creation time |
| Dashboard.DashboardPartition | src/components/Dashboard.jsx:26-28 | needs-attention and supporting concatenate to the ranking; there are three and four; no supporting companion is ranked before one that needs attention; together they hold every companion's average once; with an answer for every companion they are the check-in flow's sorted scores, and with no answers the catalog order |
| Dashboard.NeedsAttention | src/components/Dashboard.jsx:25-26 | three companions in ranking order: the three lowest scores when every companion has an answer, the catalog's first three with NaN averages when none has |
| Dashboard.Supporting | src/components/Dashboard.jsx:25-27 | the remaining four, none ranked before a companion that needs attention: the four highest scores, or the catalog's last four when no companion has an answer |
| Dashboard.HandleTryQuest | src/components/Dashboard.jsx:30-35 | always goes to the quests; forwards to `onAddQuest` exactly when one is given |
| MicroQuests.PriorityCompanions | src/components/MicroQuests.jsx:19-28 | three companions in ranking order: the three lowest averages, ascending, or Pip, Luna and Ember when no companion has an answer |
| MicroQuests.NoAnswersOfferFirstThree | src/components/MicroQuests.jsx:19-28 | with no answers the picker offers Pip, Luna and Ember |
| MicroQuests.Without | src/components/MicroQuests.jsx:33 | the key is gone and every other key's membership is unchanged |
| MicroQuests.Toggle | src/components/MicroQuests.jsx:32-34 | the key is selected afterwards exactly when it was not before, and every other key keeps its membership |
| MicroQuests.WithoutKeepsNoDuplicates | src/components/MicroQuests.jsx:33 | removal keeps the selection free of duplicates |
| MicroQuests.WithoutAppended | src/components/MicroQuests.jsx:33 | removing a key appended at the end gives the list back |
| MicroQuests.ToggleProperties | src/components/MicroQuests.jsx:30-35 | toggling flips exactly the key's membership, never creates a duplicate, and toggling twice restores the set of selected keys, and the list itself when the key was absent |
| MicroQuests.QuestPicker.constructor | src/components/MicroQuests.jsx:9-17 | empty selection and an empty form |
| MicroQuests.QuestPicker.ToggleQuest | src/components/MicroQuests.jsx:30-35 | toggles the `companionId-index` key and changes nothing else |
| MicroQuests.QuestPicker.HandleAddCustomQuest | src/components/MicroQuests.jsx:41-60 | blank text or no companion changes nothing; otherwise one quest is appended with the trimmed text, its `custom-` id is selected and the form is reset; the selection stays free of duplicates |
| MicroQuests.QuestPicker.RemoveCustomQuest | src/components/MicroQuests.jsx:62-65 | removes the id from the custom list and from the selection, and nothing else |
| MicroQuests.QuestPicker.HandleFinish | src/components/MicroQuests.jsx:68-71 | hands on the selection and the custom quests |
| MicroQuests.WithoutCustom | src/components/MicroQuests.jsx:63 | exactly the custom quests with another id remain |
| BloodLayerCards.PriorityCompanions | src/components/BloodLayerCards.jsx:10-18 | four companions in ranking order, none ranked after a companion without a card: the four lowest averages, or the catalog's first four when no companion has an answer |
| BloodLayerCards.CardDeck.constructor | src/components/BloodLayerCards.jsx:7 | the first card |
| BloodLayerCards.CardDeck.HandleNext | src/components/BloodLayerCards.jsx:21-27 | advances below the last card; on the last it continues and stays |
| BloodLayerCards.CardDeck.HandlePrev | src/components/BloodLayerCards.jsx:29-33 | steps back only above 0 |
| BloodLayerCards.CardDeck.SelectCard | src/components/BloodLayerCards.jsx:54 | a dot jumps to its card and the index stays in range |
| BloodLayerCards.CardDeck.PressBackButton | src/components/BloodLayerCards.jsx:125 | on the first card it calls `onBack`; elsewhere it goes to the previous card |
| BloodLayerCards.WalkThroughFourCards | src/components/BloodLayerCards.jsx:21-27 | three presses reach the fourth card and the fourth press continues |
| CommunityInsights.Carousel.constructor | src/components/CommunityInsights.jsx:6-8 | the first pattern, nothing added |
| CommunityInsights.Carousel.HandlePrev | src/components/CommunityInsights.jsx:18-20 | wraps from the first to the last pattern, else steps back |
| CommunityInsights.Carousel.HandleNext | src/components/CommunityInsights.jsx:22-24 | wraps from the last to the first pattern, else steps on |
| CommunityInsights.Carousel.HandleAddQuest | src/components/CommunityInsights.jsx:26-39 | a key already added changes nothing and calls nobody; a new key is recorded once, flagged, and passed to `onTryQuest` exactly when one is given |
| CommunityInsights.PrevIndex | src/components/CommunityInsights.jsx:19 | the index stays in range and is the one whose next is the current index |
| CommunityInsights.NextIndex | src/components/CommunityInsights.jsx:23 | the index stays in range, wraps to 0 exactly from the last pattern, and otherwise moves one on |
| CommunityInsights.PrevNextInverse | src/components/CommunityInsights.jsx:18-24 | previous then next, or next then previous, returns to the start |
| Visitors.GenerateForestCode | src/data/visitors.js:75-82 | six characters, each the drawn character of the alphabet |
| Visitors.GiftsAsGardenElements | src/data/visitors.js:96-111 | one element per visitor in order, with id `visitor-gift-` plus the visitor id, the gift and visitor fields, and the companion at index mod 7 |
| Visitors.GiftIdsDistinct | src/data/visitors.js:98 | visitors with distinct ids give gifts with distinct ids |
| Visitors.GiftCompanionsCycle | src/data/visitors.js:109 | the companion repeats every seven visitors, and the first seven differ |
| Visitors.MatchingOf | src/data/visitors.js:117-125 | every reaction kept is on the quest, is one of the visitor's, and is tagged with the visitor's name and avatar |
| Visitors.ReactionsOf | src/data/visitors.js:114-128 | every reaction returned is on the quest |
| Visitors.EveryReactionIsFound | src/data/visitors.js:114-128 | every reaction on the quest is returned, tagged with its visitor |
| Visitors.UnknownQuestHasNoReactions | src/data/visitors.js:114-128 | a quest nobody reacted to gets no reactions |
| Visitors.GetQuestReactions | src/data/visitors.js:114-128 | the nested walk returns the specified reactions in visitor-then-reaction order |
| Visitors.CountQuestReactions | src/data/visitors.js:131-139 | the count is the length of the reaction list for the same inputs |

## Left out

- Browser storage:
  - `localStorage` and JSON are abstracted away: the stores keep records in fields.
  - Parse-failure fallbacks are therefore not modelled.
  - The users table is a map from normalised email to record.
- Thin wrappers are not modelled separately:
  - `getCurrentUser`, `getUserCheckInHistory` and `getUserCompanionScores` are reads of the session field;
  - `updateActiveQuests` and `updateGardenElements` are `updateUser` calls with one field.
- Time is a parameter:
  - `Date.now()` and ISO dates become integer milliseconds.
  - Garden and quest ids are built from the printed time.
- Randomness is a parameter. The palette pick in `handleCompleteQuest`
  and the forest-code characters are indices that callers supply, in the
  source's ranges.
- Floating point is out of scope:
  - The garden and gift offsets (`Math.random`, `sin`/`cos`) are not modelled.
  - Scores are exact reals. NaN appears only as the unguarded average of a
    companion with no answers.
  - Progress percentages are not modelled.
- Scoring.RankByAverage: the unguarded averages of the dashboard, quest
  picker and card deck divide by the number of answers. They are modelled
  when every companion has a numeric answer (`AllNumeric`) and when no
  companion has one (`NoAnswers`). `NoAnswers` covers the empty responses
  that a restored session or a return to the map passes on. With no answers
  every comparison is NaN, which the sort reads as a tie, so the catalog order
  stays. Responses where some companions have answers and others do not
  are not modelled. There the comparator mixes NaN with numbers, is not
  consistent, and the order depends on the engine's sort algorithm.
- Dashboard.NeedsAttention: partly answered responses are not modelled, as
  for Scoring.RankByAverage.
- Dashboard.Supporting: partly answered responses are not modelled, as for
  Scoring.RankByAverage.
- MicroQuests.PriorityCompanions: partly answered responses are not
  modelled, as for Scoring.RankByAverage.
- BloodLayerCards.PriorityCompanions: partly answered responses are not
  modelled, as for Scoring.RankByAverage.
- Text.Lower: lower-cases ASCII letters only. JavaScript's full Unicode case
  mapping is not modelled.
- App.AppState.HandleCompleteQuest: the source completes a quest again when
  asked. Only the map popup's button, shown for active quests, keeps this
  from happening, and that rendering is not modelled.
- MicroQuests.QuestPicker.HandleAddCustomQuest: requires that no selected
  key is already `custom-` followed by the printed clock reading. The
  source relies on `Date.now()` having advanced since the previous custom
  quest; two adds in the same millisecond would give both the same id.
- Records.Merge: its own contract states only that every key of either
  operand is kept. Which value each key gets, and that no other key
  appears, is stated by `Records.MergeGet`.
- Text.ParseIndex: models `parseInt` only for strings without a leading
  `-`, since every argument is a segment of a string split on `-`. The
  loss of precision of `parseInt` beyond 2^53 is not modelled.
- App.AppState: the persistence calls made when signed in are not part of
  the state model. Neither are `handleSave`, the auth handlers, or the
  screen switch. `App.jsx:401-490` is rendering.
- The check-in flow always classifies from the domain scores: its
  `responses` object never has a `scores` key. The direct-tally path is used
  by the assessment.
- The health-type narrative strings are content: descriptions, strengths
  and tips. Only ids, names, critters and quest styles are modelled.
- Visitors: `getShareableLink` reads `window.location`, and `getVisitors`
  returns mock data, so neither is modelled.
- MbtiAssessment.Assessment: the 400 ms timer is split in two steps,
  `HandleAnswer` and `FinishTransition`. The tips carousel's 2-second
  feedback timer is not modelled.
- Auth.StreaksAgree: the two streak computations agree only on a log stored
  oldest first with distinct dates. On other logs the local store's unsorted
  walk and the account's sorted walk may differ, as the source allows.
- CommunityInsights.Carousel: requires at least one pattern, since the
  component renders nothing without one.
- src/components/Reflection.jsx, Landing.jsx, Onboarding.jsx,
  ShareSnapshot.jsx, MapShareCard.jsx, AllCritters.jsx, CompanionPopup.jsx,
  BiomarkerTag.jsx, SpiderChart.jsx, data/biomarkers.js and
  data/communityData.js are presentation or content tables, and are not
  part of this model.

## Findings

| source | as written | input that shows it | evidently intended | confidence | as-written member | corrected member |
|---|---|---|---|---|---|---|
| src/App.jsx:443-450 | The questionnaire form is rendered without a `key`, so React reuses one form, with its answers and question index, for every companion. On a companion's last question Next completes without resetting the index. | Answer both of Coral's questions: the index stays at 1. Brook, which comes next, has one question, so the form looks up question 1 of Brook, which does not exist. | Each companion gets a fresh form that starts at its first question with no answers. | medium, not executed | DomainCheckIn.ReusedFormAfterMood | DomainCheckIn.CheckInForm.constructor |
