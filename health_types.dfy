/**
  The four-axis health-type classifier: an eight-counter tally becomes a
  four-letter code (E/I, S/N, T/F, J/P) that names one of sixteen catalog
  entries. The tally comes either directly from the assessment or from the
  seven domain scores through a fixed rule table; with neither, a fixed
  default applies. Narrative content of the catalog is not modelled: only
  ids, names, critters and quest styles.
*/
module HealthTypes {

  import opened Wrappers
  import opened Text
  import opened Records
  import opened Companions

  /** The eight counters `{ E, I, S, N, T, F, J, P }`. */
  datatype Tally = Tally(E: nat, I: nat, S: nat, N: nat, T: nat, F: nat, J: nat, P: nat)

  const ZeroTally := Tally(0, 0, 0, 0, 0, 0, 0, 0)

  function Total(t: Tally): nat {
    t.E + t.I + t.S + t.N + t.T + t.F + t.J + t.P
  }

  function AddTally(a: Tally, b: Tally): Tally {
    Tally(a.E + b.E, a.I + b.I, a.S + b.S, a.N + b.N, a.T + b.T, a.F + b.F, a.J + b.J, a.P + b.P)
  }

  /** Counter-wise `a <= b`. */
  predicate TallyLe(a: Tally, b: Tally) {
    a.E <= b.E && a.I <= b.I && a.S <= b.S && a.N <= b.N &&
    a.T <= b.T && a.F <= b.F && a.J <= b.J && a.P <= b.P
  }

  datatype HealthType = HealthType(id: string, name: string, critter: string, questStyle: string)

  const ISTJ := HealthType("ISTJ", "The Inspector", "🐢", "structured routines and tracking")
  const ISFJ := HealthType("ISFJ", "The Protector", "🐨", "gentle self-care and nurturing")
  const INFJ := HealthType("INFJ", "The Advocate", "🦢", "mindful and purposeful practices")
  const INTJ := HealthType("INTJ", "The Mastermind", "🦉", "strategic optimization and data")
  const ISTP := HealthType("ISTP", "The Craftsman", "🐱", "practical solo activities")
  const ISFP := HealthType("ISFP", "The Artist", "🦌", "creative and nature-based")
  const INFP := HealthType("INFP", "The Nurturer", "🐰", "gentle and emotionally meaningful")
  const INTP := HealthType("INTP", "The Thinker", "🐙", "research and experimentation")
  const ESTP := HealthType("ESTP", "The Adventurer", "🦦", "active adventures and challenges")
  const ESFP := HealthType("ESFP", "The Performer", "🐬", "fun social activities")
  const ENFP := HealthType("ENFP", "The Explorer", "🦋", "creative exploration and meaning")
  const ENTP := HealthType("ENTP", "The Innovator", "🦊", "innovation and optimization")
  const ESTJ := HealthType("ESTJ", "The Planner", "🦫", "structured planning and tracking")
  const ESFJ := HealthType("ESFJ", "The Caregiver", "🐘", "social and community activities")
  const ENFJ := HealthType("ENFJ", "The Mentor", "🦁", "leadership and group motivation")
  const ENTJ := HealthType("ENTJ", "The Strategist", "🦅", "strategic performance optimization")

  /** `healthTypes`, keyed by code. */
  const Types: map<string, HealthType> := map[
    "ISTJ" := ISTJ, "ISFJ" := ISFJ, "INFJ" := INFJ, "INTJ" := INTJ,
    "ISTP" := ISTP, "ISFP" := ISFP, "INFP" := INFP, "INTP" := INTP,
    "ESTP" := ESTP, "ESFP" := ESFP, "ENFP" := ENFP, "ENTP" := ENTP,
    "ESTJ" := ESTJ, "ESFJ" := ESFJ, "ENFJ" := ENFJ, "ENTJ" := ENTJ]

  /** `healthTypeOrder`. */
  const HealthTypeOrder: seq<string> := [
    "ISTJ", "ISFJ", "INFJ", "INTJ",
    "ISTP", "ISFP", "INFP", "INTP",
    "ESTP", "ESFP", "ENFP", "ENTP",
    "ESTJ", "ESFJ", "ENFJ", "ENTJ"]

  /** The catalog keys are exactly the sixteen codes of the order, and every
      entry's id is its key. */
  lemma CatalogIsComplete()
    ensures |HealthTypeOrder| == 16
    ensures Types.Keys == set c | c in HealthTypeOrder
    ensures forall c :: c in Types ==> Types[c].id == c
  {
  }

  /** `healthTypeOrder` lists each code once. */
  lemma OrderIsDistinct()
    ensures forall a, b :: 0 <= a < b < |HealthTypeOrder| ==> HealthTypeOrder[a] != HealthTypeOrder[b]
  {
  }

  /** The code of a tally: each letter is the first of its pair exactly when
      its counter is at least its partner's, so ties go to E, S, T and J. */
  function CodeOf(t: Tally): (code: string)
    ensures |code| == 4
    ensures code[0] == 'E' <==> t.E >= t.I
    ensures code[1] == 'S' <==> t.S >= t.N
    ensures code[2] == 'T' <==> t.T >= t.F
    ensures code[3] == 'J' <==> t.J >= t.P
    ensures code in Types && Types[code].id == code
  {
    [if t.E >= t.I then 'E' else 'I',
     if t.S >= t.N then 'S' else 'N',
     if t.T >= t.F then 'T' else 'F',
     if t.J >= t.P then 'J' else 'P']
  }

  /** A tally with one point on each letter of `code`. */
  function TallyFor(code: string): Tally
    requires |code| == 4
  {
    Tally(if code[0] == 'E' then 1 else 0, if code[0] == 'I' then 1 else 0,
          if code[1] == 'S' then 1 else 0, if code[1] == 'N' then 1 else 0,
          if code[2] == 'T' then 1 else 0, if code[2] == 'F' then 1 else 0,
          if code[3] == 'J' then 1 else 0, if code[3] == 'P' then 1 else 0)
  }

  /** Every catalog entry is reachable: the code of the tally that marks its
      letters is the entry's own code. */
  lemma EveryTypeIsReachable(code: string)
    requires code in Types
    ensures |code| == 4 && CodeOf(TallyFor(code)) == code
  {
  }

  // ---------------------------------------------------------------------
  // The domain-score rule table
  // ---------------------------------------------------------------------

  /** `companion.score || 50`: a zero score counts as 50. */
  function EffectiveScore(score: real): (r: real)
    ensures r != 0.0
    ensures score != 0.0 ==> r == score
  {
    if score == 0.0 then 50.0 else score
  }

  /** Every counter `low` raises is the opposite letter of one `high` raises:
      a low score pushes the code the other way on the same axes. */
  predicate Opposes(high: Tally, low: Tally) {
    && (low.E > 0 ==> high.I > 0) && (low.I > 0 ==> high.E > 0)
    && (low.S > 0 ==> high.N > 0) && (low.N > 0 ==> high.S > 0)
    && (low.T > 0 ==> high.F > 0) && (low.F > 0 ==> high.T > 0)
    && (low.J > 0 ==> high.P > 0) && (low.P > 0 ==> high.J > 0)
  }

  /** The counters a domain raises for a high (> 60) and a low (< 40) score;
      `None` for an id the table does not know. */
  function Rule(id: string): (r: Option<(Tally, Tally)>)
    ensures r.Some? ==> Total(r.value.0) == 3 && 2 <= Total(r.value.1) <= 3 && Opposes(r.value.0, r.value.1)
  {
    if id == "pip" then Some((Tally(2, 0, 0, 1, 0, 0, 0, 0), Tally(0, 2, 1, 0, 0, 0, 0, 0)))
    else if id == "luna" then Some((Tally(0, 2, 0, 0, 0, 0, 1, 0), Tally(1, 0, 0, 0, 0, 0, 0, 1)))
    else if id == "ember" then Some((Tally(2, 0, 1, 0, 0, 0, 0, 0), Tally(0, 1, 0, 1, 0, 0, 0, 0)))
    else if id == "sage" then Some((Tally(0, 0, 0, 0, 2, 0, 1, 0), Tally(0, 0, 0, 0, 0, 1, 0, 1)))
    else if id == "coral" then Some((Tally(1, 0, 0, 0, 0, 2, 0, 0), Tally(0, 1, 0, 0, 1, 0, 0, 0)))
    else if id == "brook" then Some((Tally(0, 0, 2, 0, 0, 0, 1, 0), Tally(0, 0, 0, 1, 0, 0, 0, 1)))
    else if id == "oak" then Some((Tally(0, 1, 0, 0, 0, 0, 2, 0), Tally(1, 0, 0, 0, 0, 0, 0, 1)))
    else None
  }

  /** The rule table has an entry for exactly the seven companions. */
  lemma RuleCoversCompanions(id: string)
    ensures Rule(id).Some? <==> id in CompanionOrder
  {
  }

  /** What one scored domain adds to the tally. */
  function Increment(c: ScoredCompanion): (r: Tally)
    ensures Rule(c.id).None? || 40.0 <= EffectiveScore(c.score) <= 60.0 ==> r == ZeroTally
  {
    var sc := EffectiveScore(c.score);
    match Rule(c.id)
    case None => ZeroTally
    case Some((high, low)) =>
      if sc > 60.0 then high else if sc < 40.0 then low else ZeroTally
  }

  /** The tally built from the domain scores, one domain after the other. */
  function DomainTally(cs: seq<ScoredCompanion>): (r: Tally)
    ensures Total(r) <= 3 * |cs|
  {
    if cs == [] then ZeroTally
    else AddTally(DomainTally(cs[..|cs| - 1]), Increment(cs[|cs| - 1]))
  }

  /** The default when there is neither a tally nor any domain score. */
  const DefaultTally := Tally(0, 1, 1, 0, 0, 1, 1, 0)

  /** `{ primary, type, scores }`. */
  datatype Classification = Classification(primary: HealthType, code: string, scores: Tally)

  /** `calculateHealthType(responses, companionScores)`: `direct` is
      `responses.scores` when that is present, `companionScores` is `None` for
      `null`. */
  function Classify(direct: Option<Tally>, companionScores: Option<seq<ScoredCompanion>>): (r: Classification)
    ensures r.code in Types && r.primary == Types[r.code]
  {
    if direct.Some? then
      Classification(Types[CodeOf(direct.value)], CodeOf(direct.value), direct.value)
    else if companionScores.Some? && |companionScores.value| > 0 then
      var t := DomainTally(companionScores.value);
      Classification(Types[CodeOf(t)], CodeOf(t), t)
    else
      Classification(Types["ISFJ"], "ISFJ", DefaultTally)
  }

  /** One step of the domain loop: the `switch` on the companion id. */
  method ApplyRule(scores: Tally, c: ScoredCompanion) returns (r: Tally)
    ensures r == AddTally(scores, Increment(c))
  {
    r := scores;
    var score := if c.score == 0.0 then 50.0 else c.score;
    assert score == EffectiveScore(c.score);
    if c.id == "pip" {
      if score > 60.0 { r := r.(E := r.E + 2, N := r.N + 1); }
      else if score < 40.0 { r := r.(I := r.I + 2, S := r.S + 1); }
    } else if c.id == "luna" {
      if score > 60.0 { r := r.(I := r.I + 2, J := r.J + 1); }
      else if score < 40.0 { r := r.(E := r.E + 1, P := r.P + 1); }
    } else if c.id == "ember" {
      if score > 60.0 { r := r.(E := r.E + 2, S := r.S + 1); }
      else if score < 40.0 { r := r.(I := r.I + 1, N := r.N + 1); }
    } else if c.id == "sage" {
      if score > 60.0 { r := r.(T := r.T + 2, J := r.J + 1); }
      else if score < 40.0 { r := r.(F := r.F + 1, P := r.P + 1); }
    } else if c.id == "coral" {
      if score > 60.0 { r := r.(F := r.F + 2, E := r.E + 1); }
      else if score < 40.0 { r := r.(T := r.T + 1, I := r.I + 1); }
    } else if c.id == "brook" {
      if score > 60.0 { r := r.(S := r.S + 2, J := r.J + 1); }
      else if score < 40.0 { r := r.(N := r.N + 1, P := r.P + 1); }
    } else if c.id == "oak" {
      if score > 60.0 { r := r.(J := r.J + 2, I := r.I + 1); }
      else if score < 40.0 { r := r.(P := r.P + 1, E := r.E + 1); }
    }
  }

  /** The classifier as the source runs it: the domain path raises counters
      inside a loop over the scores and builds the code letter by letter. */
  method CalculateHealthType(direct: Option<Tally>, companionScores: Option<seq<ScoredCompanion>>)
    returns (r: Classification)
    ensures r == Classify(direct, companionScores)
  {
    var scores: Tally;
    if direct.Some? {
      scores := direct.value;
    } else if companionScores.Some? && |companionScores.value| > 0 {
      scores := TallyScores(companionScores.value);
    } else {
      return Classification(Types["ISFJ"], "ISFJ", DefaultTally);
    }
    var code := BuildCode(scores);
    r := Classification(Types[code], code, scores);
  }

  /** The `forEach` over the domain scores, from an all-zero tally. */
  method TallyScores(cs: seq<ScoredCompanion>) returns (scores: Tally)
    ensures scores == DomainTally(cs)
  {
    scores := ZeroTally;
    var k := 0;
    while k < |cs|
      invariant 0 <= k <= |cs|
      invariant scores == DomainTally(cs[..k])
    {
      scores := ApplyRule(scores, cs[k]);
      DomainTallyStep(cs, k);
      k := k + 1;
    }
    assert cs[..k] == cs;
  }

  lemma DomainTallyStep(cs: seq<ScoredCompanion>, k: nat)
    requires k < |cs|
    ensures DomainTally(cs[..k + 1]) == AddTally(DomainTally(cs[..k]), Increment(cs[k]))
  {
    assert cs[..k + 1][..k] == cs[..k];
  }

  /** The code built with `type += …`, one letter per axis. */
  method BuildCode(scores: Tally) returns (code: string)
    ensures code == CodeOf(scores)
  {
    code := "";
    code := code + [if scores.E >= scores.I then 'E' else 'I'];
    code := code + [if scores.S >= scores.N then 'S' else 'N'];
    code := code + [if scores.T >= scores.F then 'T' else 'F'];
    code := code + [if scores.J >= scores.P then 'J' else 'P'];
  }

  // ---------------------------------------------------------------------
  // Properties of the classifier
  // ---------------------------------------------------------------------

  /** A direct tally decides the code, is returned unchanged, and wins over
      any domain scores supplied beside it. */
  lemma DirectTallyTakesPrecedence(t: Tally, companionScores: Option<seq<ScoredCompanion>>)
    ensures Classify(Some(t), companionScores) == Classify(Some(t), None)
    ensures Classify(Some(t), companionScores).scores == t
    ensures Classify(Some(t), companionScores).code == CodeOf(t)
  {
  }

  /** With no tally and no domain scores the result is the Protector with the
      fixed default tally, which is itself a tally whose code is ISFJ. */
  lemma DefaultIsProtector(companionScores: Option<seq<ScoredCompanion>>)
    requires companionScores.None? || companionScores.value == []
    ensures Classify(None, companionScores).code == "ISFJ"
    ensures Classify(None, companionScores).scores == Tally(0, 1, 1, 0, 0, 1, 1, 0)
    ensures Classify(None, companionScores).primary.name == "The Protector"
    ensures CodeOf(DefaultTally) == "ISFJ"
  {
  }

  /** A domain adds something only when its effective score is strictly above
      60 or strictly below 40, and only when its id is in the rule table. */
  lemma NeutralAddsNothing(c: ScoredCompanion)
    requires 40.0 <= EffectiveScore(c.score) <= 60.0 || Rule(c.id).None?
    ensures Increment(c) == ZeroTally
  {
  }

  /** A zero score contributes nothing: it is read as 50. */
  lemma ZeroScoreAddsNothing(id: string)
    ensures Increment(ScoredCompanion(id, 0.0, Low)) == ZeroTally
  {
  }

  /** One domain adds at most three points in total. */
  lemma IncrementAtMostThree(c: ScoredCompanion)
    ensures Total(Increment(c)) <= 3
  {
  }

  /** On the domain path the counters start at zero, never decrease, and rise
      by at most three per domain. */
  lemma {:induction false} DomainTallyGrowth(cs: seq<ScoredCompanion>, k: nat)
    requires k <= |cs|
    ensures TallyLe(DomainTally(cs[..k]), DomainTally(cs))
    ensures Total(DomainTally(cs)) <= Total(DomainTally(cs[..k])) + 3 * (|cs| - k)
    decreases |cs| - k
  {
    if k < |cs| {
      var init := cs[..|cs| - 1];
      DomainTallySnoc(cs);
      if k < |init| {
        assert init[..k] == cs[..k];
        DomainTallyGrowth(init, k);
      } else {
        assert init == cs[..k];
      }
    } else {
      assert cs[..k] == cs;
    }
  }

  /** The last domain raises no counter down and adds at most three. */
  lemma DomainTallySnoc(cs: seq<ScoredCompanion>)
    requires cs != []
    ensures var t0, t := DomainTally(cs[..|cs| - 1]), DomainTally(cs);
      TallyLe(t0, t) && Total(t) <= Total(t0) + 3
  {
    var t0, inc := DomainTally(cs[..|cs| - 1]), Increment(cs[|cs| - 1]);
    assert DomainTally(cs) == AddTally(t0, inc);
    IncrementAtMostThree(cs[|cs| - 1]);
    AddTallyGrows(t0, inc);
  }

  /** Adding a tally raises no counter down and adds its total. */
  lemma AddTallyGrows(a: Tally, b: Tally)
    ensures TallyLe(a, AddTally(a, b)) && Total(AddTally(a, b)) == Total(a) + Total(b)
  {
  }

  /** When every domain is neutral the tally stays all zero and every tie
      resolves to the first letter: the Planner. */
  lemma {:induction false} AllNeutralIsPlanner(cs: seq<ScoredCompanion>)
    requires |cs| > 0
    requires forall k :: 0 <= k < |cs| ==> 40.0 <= EffectiveScore(cs[k].score) <= 60.0
    ensures DomainTally(cs) == ZeroTally
    ensures Classify(None, Some(cs)).code == "ESTJ"
  {
    NeutralTallyIsZero(cs);
    assert Classify(None, Some(cs)).code == CodeOf(ZeroTally);
  }

  lemma {:induction false} NeutralTallyIsZero(cs: seq<ScoredCompanion>)
    requires forall k :: 0 <= k < |cs| ==> 40.0 <= EffectiveScore(cs[k].score) <= 60.0
    ensures DomainTally(cs) == ZeroTally
  {
    if cs != [] {
      var init, last := cs[..|cs| - 1], cs[|cs| - 1];
      assert DomainTally(cs) == AddTally(DomainTally(init), Increment(last));
      NeutralTallyIsZero(init);
      NeutralAddsNothing(last);
    }
  }

  // ---------------------------------------------------------------------
  // Lookups
  // ---------------------------------------------------------------------

  /** `getHealthType`. */
  function GetHealthType(id: string): (r: Option<HealthType>)
    ensures r.Some? <==> id in HealthTypeOrder
    ensures r.Some? ==> r.value.id == id
  {
    CatalogIsComplete();
    if id in Types then Some(Types[id]) else None
  }

  /** `getAllHealthTypes`: the sixteen entries in `healthTypeOrder` order. */
  function GetAllHealthTypes(): (r: seq<HealthType>)
    ensures |r| == 16
    ensures forall k :: 0 <= k < |r| ==> r[k].id == HealthTypeOrder[k]
    ensures forall a, b :: 0 <= a < b < |r| ==> r[a] != r[b]
  {
    CatalogIsComplete();
    OrderIsDistinct();
    seq(|HealthTypeOrder|, k requires 0 <= k < |HealthTypeOrder| => Types[HealthTypeOrder[k]])
  }

  /** Suggestions per quest style. */
  const Suggestions: map<string, seq<string>> := map[
    "structured routines and tracking" := [
      "Log your meals and energy levels today",
      "Set a consistent wake-up time for the week",
      "Schedule your workouts like appointments"],
    "gentle self-care and nurturing" := [
      "Prepare a nourishing meal for yourself",
      "Take a warm bath or do gentle stretching",
      "Reach out to check on a friend's wellness"],
    "mindful and purposeful practices" := [
      "Try 10 minutes of meditation",
      "Journal about what wellness means to you",
      "Practice mindful eating at one meal"],
    "strategic optimization and data" := [
      "Track a new health metric this week",
      "Research one wellness topic deeply",
      "Optimize your sleep schedule"],
    "practical solo activities" := [
      "Try a new solo workout",
      "Build or improve your home gym setup",
      "Master a new physical skill"],
    "creative and nature-based" := [
      "Take a walk in nature without your phone",
      "Try a creative movement practice",
      "Listen to what your body craves today"],
    "gentle and emotionally meaningful" := [
      "Write in your gratitude journal",
      "Do yoga that honors how you feel",
      "Connect with your wellness community"],
    "research and experimentation" := [
      "Try an N=1 experiment on yourself",
      "Research a health question you have",
      "Test a new wellness approach"],
    "active adventures and challenges" := [
      "Try a new adventure activity",
      "Challenge a friend to a fitness goal",
      "Explore somewhere new while moving"],
    "fun social activities" := [
      "Join a dance or group fitness class",
      "Organize an active hangout with friends",
      "Make your workout playful today"],
    "creative exploration and meaning" := [
      "Try a wellness practice you've never done",
      "Journal about your health journey",
      "Inspire someone else's wellness"],
    "innovation and optimization" := [
      "Hack your routine for efficiency",
      "Try the latest wellness tech or app",
      "Experiment with a new approach"],
    "structured planning and tracking" := [
      "Plan and prep your meals for the week",
      "Create a workout schedule",
      "Track your progress metrics"],
    "social and community activities" := [
      "Organize a group walk or workout",
      "Cook a healthy meal for others",
      "Check in on a friend's health goals"],
    "leadership and group motivation" := [
      "Lead a group fitness activity",
      "Mentor someone on their journey",
      "Organize a wellness challenge"],
    "strategic performance optimization" := [
      "Set ambitious health goals",
      "Analyze your performance data",
      "Create a strategic wellness plan"]]

  const FallbackSuggestions: seq<string> := [
    "Take a mindful walk today",
    "Drink an extra glass of water",
    "Get to bed 30 minutes earlier"]

  /** Every catalog entry's quest style has a row of three suggestions. */
  lemma EveryStyleHasSuggestions()
    ensures forall c :: c in Types ==> Types[c].questStyle in Suggestions && |Suggestions[Types[c].questStyle]| == 3
  {
  }

  /** `getTypeQuestSuggestions`: nothing for an unknown code, and for every
      known code its style's row of three, never the fallback. */
  function GetTypeQuestSuggestions(typeId: string): (r: seq<string>)
    ensures typeId !in Types ==> r == []
    ensures typeId in Types ==> |r| == 3 && r == Suggestions[Types[typeId].questStyle]
  {
    EveryStyleHasSuggestions();
    if typeId !in Types then []
    else if Types[typeId].questStyle in Suggestions then Suggestions[Types[typeId].questStyle]
    else FallbackSuggestions
  }

  /** The per-code message: the animal phrase of its opening "As the …, "
      and the text after the companion's name. */
  const Messages: map<string, (string, string)> := map[
    "ISTJ" := ("steady Turtle", " has a reliable suggestion:"),
    "ISFJ" := ("nurturing Koala", " offers this gentle idea:"),
    "INFJ" := ("graceful Swan", " shares something meaningful:"),
    "INTJ" := ("strategic Owl", " suggests this optimization:"),
    "ISTP" := ("independent Cat", " has a practical tip:"),
    "ISFP" := ("intuitive Deer", " invites you to try:"),
    "INFP" := ("gentle Rabbit", " softly suggests:"),
    "INTP" := ("curious Octopus", " proposes an experiment:"),
    "ESTP" := ("energetic Otter", " has an adventure for you:"),
    "ESFP" := ("playful Dolphin", " says let's have fun with:"),
    "ENFP" := ("creative Butterfly", " inspires you to try:"),
    "ENTP" := ("clever Fox", " has an innovative idea:"),
    "ESTJ" := ("industrious Beaver", " schedules this for you:"),
    "ESFJ" := ("caring Elephant", " suggests doing together:"),
    "ENFJ" := ("inspiring Lion", " leads with this:"),
    "ENTJ" := ("ambitious Eagle", " challenges you to:")]

  /** Every catalog code has a message, and no other code does. */
  lemma MessagesCoverCatalog()
    ensures Messages.Keys == Types.Keys
  {
    CatalogIsComplete();
  }

  /** `getTypeCompanionMessage`: for a known code, "As the …, " then the
      companion's name; for an unknown code, "<name>'s suggestion for you:". */
  function GetTypeCompanionMessage(typeId: string, companionName: string): (r: string)
    ensures typeId !in Types ==> r == companionName + "'s suggestion for you:"
    ensures typeId in Types ==> StartsWith(r, "As the ") && Contains(r, companionName)
  {
    MessagesCoverCatalog();
    if typeId !in Messages then companionName + "'s suggestion for you:"
    else
      var m := Messages[typeId];
      var opening := "As the " + m.0 + ", ";
      var r := opening + companionName + m.1;
      assert r[..7] == "As the ";
      assert r[|opening|..|opening| + |companionName|] == companionName;
      ContainsAt(r, companionName, |opening|);
      r
  }
}
