/**
  The ten-question health-type assessment: each answer raises one counter
  of the tally (or two, for the S/J versus N/P questions), the question index
  steps forward after a short transition, and the last answer classifies the
  accumulated tally.
*/
module MbtiAssessment {

  import opened Wrappers
  import opened HealthTypes

  /** Which counters a question's answers feed. */
  datatype Axis = EI | SN | TF | JP | Dual1 | Dual2

  /** An assessment question: its id, the values of its two options, and its
      axis. The prompt texts are not modelled. */
  datatype AssessmentQuestion = AssessmentQuestion(id: nat, options: seq<string>, axis: Axis)

  /** `assessmentQuestions`. */
  const Questions: seq<AssessmentQuestion> := [
    AssessmentQuestion(1, ["E", "I"], EI),
    AssessmentQuestion(2, ["S", "N"], SN),
    AssessmentQuestion(3, ["T", "F"], TF),
    AssessmentQuestion(4, ["J", "P"], JP),
    AssessmentQuestion(5, ["E", "I"], EI),
    AssessmentQuestion(6, ["S", "N"], SN),
    AssessmentQuestion(7, ["T", "F"], TF),
    AssessmentQuestion(8, ["J", "P"], JP),
    AssessmentQuestion(9, ["SJ", "NP"], Dual1),
    AssessmentQuestion(10, ["SJ", "NP"], Dual2)]

  /** The eight counter names. */
  const Letters: seq<string> := ["E", "I", "S", "N", "T", "F", "J", "P"]

  /** `scores[letter] || 0`. */
  function Count(t: Tally, letter: string): nat {
    if letter == "E" then t.E else if letter == "I" then t.I
    else if letter == "S" then t.S else if letter == "N" then t.N
    else if letter == "T" then t.T else if letter == "F" then t.F
    else if letter == "J" then t.J else if letter == "P" then t.P
    else 0
  }

  /** `scores[letter] = (scores[letter] || 0) + 1` on one of the eight
      counters; any other key is outside the tally and leaves it as it is. */
  function Bump(t: Tally, letter: string): (r: Tally)
    ensures forall l :: l in Letters ==> Count(r, l) == Count(t, l) + (if l == letter then 1 else 0)
  {
    if letter == "E" then t.(E := t.E + 1) else if letter == "I" then t.(I := t.I + 1)
    else if letter == "S" then t.(S := t.S + 1) else if letter == "N" then t.(N := t.N + 1)
    else if letter == "T" then t.(T := t.T + 1) else if letter == "F" then t.(F := t.F + 1)
    else if letter == "J" then t.(J := t.J + 1) else if letter == "P" then t.(P := t.P + 1)
    else t
  }

  /** The tally after answering `q` with `value`. */
  function ScoreAnswer(t: Tally, q: AssessmentQuestion, value: string): (r: Tally)
    ensures TallyLe(t, r) && Total(r) <= Total(t) + 2
  {
    if q.axis == Dual1 || q.axis == Dual2 then
      if value == "SJ" then t.(S := t.S + 1, J := t.J + 1)
      else if value == "NP" then t.(N := t.N + 1, P := t.P + 1)
      else t
    else Bump(t, value)
  }

  /** The point an answer on axis `a` adds to the E/I, S/N, T/F and J/P
      pairs. */
  function Points(a: Axis): (nat, nat, nat, nat) {
    match a
    case EI => (1, 0, 0, 0)
    case SN => (0, 1, 0, 0)
    case TF => (0, 0, 1, 0)
    case JP => (0, 0, 0, 1)
    case _ => (0, 1, 0, 1)
  }

  /** The two option values a question on axis `a` offers. */
  function AxisOptions(a: Axis): seq<string> {
    match a
    case EI => ["E", "I"]
    case SN => ["S", "N"]
    case TF => ["T", "F"]
    case JP => ["J", "P"]
    case _ => ["SJ", "NP"]
  }

  /** Every question offers the two values of its axis. */
  lemma QuestionsMatchAxes()
    ensures forall k :: 0 <= k < |Questions| ==> Questions[k].options == AxisOptions(Questions[k].axis)
  {
  }

  /** `ScoreAnswer` for a value its question's axis offers, per axis. */
  lemma ScoreAnswerOnAxis(t: Tally, q: AssessmentQuestion, value: string)
    requires value in AxisOptions(q.axis)
    ensures var r := ScoreAnswer(t, q, value);
      var p := Points(q.axis);
      r.E + r.I == t.E + t.I + p.0 && r.S + r.N == t.S + t.N + p.1
      && r.T + r.F == t.T + t.F + p.2 && r.J + r.P == t.J + t.P + p.3
  {
    match q.axis
    case EI => assert value == "E" || value == "I";
    case SN => assert value == "S" || value == "N";
    case TF => assert value == "T" || value == "F";
    case JP => assert value == "J" || value == "P";
    case _ => assert value == "SJ" || value == "NP";
  }

  /** One answer moves exactly one point onto each axis it feeds: a
      single-axis question adds one to its pair, a dual question adds one to
      the S/N pair and one to the J/P pair, and nothing else changes. */
  lemma ScoreAnswerAxes(t: Tally, k: nat, value: string)
    requires k < |Questions| && value in Questions[k].options
    ensures var q := Questions[k]; var r := ScoreAnswer(t, q, value);
      var p := Points(q.axis);
      r.E + r.I == t.E + t.I + p.0 && r.S + r.N == t.S + t.N + p.1
      && r.T + r.F == t.T + t.F + p.2 && r.J + r.P == t.J + t.P + p.3
  {
    QuestionsMatchAxes();
    ScoreAnswerOnAxis(t, Questions[k], value);
  }

  /** A dual answer raises exactly its two letters. */
  lemma DualAnswerRaisesTwo(t: Tally, k: nat, value: string)
    requires k < |Questions| && value in Questions[k].options
    requires Questions[k].axis == Dual1 || Questions[k].axis == Dual2
    ensures var r := ScoreAnswer(t, Questions[k], value);
      if value == "SJ" then r == t.(S := t.S + 1, J := t.J + 1)
      else r == t.(N := t.N + 1, P := t.P + 1)
  {
  }

  /** The tally after answering the first `|values|` questions in order,
      starting from all zeros. */
  function TallyOfAnswers(values: seq<string>): Tally
    requires |values| <= |Questions|
  {
    if values == [] then ZeroTally
    else ScoreAnswer(TallyOfAnswers(values[..|values| - 1]), Questions[|values| - 1], values[|values| - 1])
  }

  predicate ValidAnswers(values: seq<string>) {
    |values| <= |Questions| && forall k :: 0 <= k < |values| ==> values[k] in Questions[k].options
  }

  /** How many of the first `n` questions feed each pair. */
  function AxisCounts(n: nat): (nat, nat, nat, nat)
    requires n <= |Questions|
  {
    if n == 0 then (0, 0, 0, 0)
    else
      var c := AxisCounts(n - 1);
      var p := Points(Questions[n - 1].axis);
      (c.0 + p.0, c.1 + p.1, c.2 + p.2, c.3 + p.3)
  }

  lemma {:induction false} TallyOfAnswersAxes(values: seq<string>)
    requires ValidAnswers(values)
    ensures var t := TallyOfAnswers(values); var c := AxisCounts(|values|);
      t.E + t.I == c.0 && t.S + t.N == c.1 && t.T + t.F == c.2 && t.J + t.P == c.3
  {
    if values != [] {
      var m := |values| - 1;
      var init := values[..m];
      assert ValidAnswers(init);
      var t0 := TallyOfAnswers(init);
      assert TallyOfAnswers(values) == ScoreAnswer(t0, Questions[m], values[m]);
      TallyOfAnswersAxes(init);
      ScoreAnswerAxes(t0, m, values[m]);
    }
  }

  /** Over the whole questionnaire, two questions feed E/I, two T/F, and
      four each S/N and J/P. */
  lemma AxisCountsOfAll()
    ensures AxisCounts(|Questions|) == (2, 4, 2, 4)
  {
    assert AxisCounts(2) == (1, 1, 0, 0);
    assert AxisCounts(4) == (1, 1, 1, 1);
    assert AxisCounts(6) == (2, 2, 1, 1);
    assert AxisCounts(8) == (2, 2, 2, 2);
  }

  /** Answering all ten questions once, whatever the choices, gives
      E+I = 2, T+F = 2, S+N = 4 and J+P = 4. */
  lemma CompleteAssessmentTotals(values: seq<string>)
    requires |values| == |Questions| && ValidAnswers(values)
    ensures var t := TallyOfAnswers(values);
      t.E + t.I == 2 && t.T + t.F == 2 && t.S + t.N == 4 && t.J + t.P == 4
  {
    TallyOfAnswersAxes(values);
    AxisCountsOfAll();
  }

  /** The component's state. `pendingFrom` and `pendingScores` are the
      question index and the tally captured by the scheduled transition. */
  class Assessment {
    var currentQuestion: nat
    var answers: map<nat, string>
    var scores: Tally
    var isAnimating: bool
    var showIntro: bool
    var pendingFrom: nat
    var pendingScores: Tally

    ghost predicate Valid()
      reads this
    {
      currentQuestion < |Questions| && pendingFrom < |Questions|
    }

    constructor ()
      ensures Valid()
      ensures currentQuestion == 0 && answers == map[] && scores == ZeroTally
      ensures !isAnimating && showIntro
    {
      currentQuestion := 0;
      answers := map[];
      scores := ZeroTally;
      isAnimating := false;
      showIntro := true;
      pendingFrom := 0;
      pendingScores := ZeroTally;
    }

    /** "Begin the Journey". */
    method Begin()
      modifies this
      ensures !showIntro
      ensures currentQuestion == old(currentQuestion) && answers == old(answers) && scores == old(scores)
      ensures isAnimating == old(isAnimating) && pendingFrom == old(pendingFrom) && pendingScores == old(pendingScores)
    {
      showIntro := false;
    }

    /** `handleAnswer(optionValue)` up to the scheduled transition: ignored
      while a transition runs; otherwise records the answer, raises the tally
      and schedules the step with the current index and the new tally. */
    method HandleAnswer(value: string)
      requires Valid() && value in Questions[currentQuestion].options
      modifies this
      ensures Valid()
      ensures old(isAnimating) ==> unchanged(this)
      ensures !old(isAnimating) ==>
        && isAnimating
        && answers == old(answers)[Questions[old(currentQuestion)].id := value]
        && scores == ScoreAnswer(old(scores), Questions[old(currentQuestion)], value)
        && pendingFrom == old(currentQuestion) && pendingScores == scores
        && currentQuestion == old(currentQuestion) && showIntro == old(showIntro)
    {
      if isAnimating {
        return;
      }
      isAnimating := true;
      var q := Questions[currentQuestion];
      answers := answers[q.id := value];
      var newScores := scores;
      if q.axis == Dual1 || q.axis == Dual2 {
        if value == "SJ" {
          newScores := newScores.(S := newScores.S + 1, J := newScores.J + 1);
        } else if value == "NP" {
          newScores := newScores.(N := newScores.N + 1, P := newScores.P + 1);
        }
      } else {
        newScores := Bump(newScores, value);
      }
      scores := newScores;
      pendingFrom := currentQuestion;
      pendingScores := newScores;
    }

    /** The transition firing: before the last question the index becomes the
        captured index plus one; after the last, the captured tally is
        classified and handed to `onComplete`. */
    method FinishTransition() returns (completed: Option<Classification>)
      requires Valid() && isAnimating
      modifies this
      ensures Valid() && !isAnimating
      ensures old(pendingFrom) < |Questions| - 1 ==>
        completed.None? && currentQuestion == old(pendingFrom) + 1
      ensures old(pendingFrom) == |Questions| - 1 ==>
        completed == Some(Classify(Some(old(pendingScores)), None)) && currentQuestion == old(currentQuestion)
      ensures answers == old(answers) && scores == old(scores) && showIntro == old(showIntro)
      ensures pendingFrom == old(pendingFrom) && pendingScores == old(pendingScores)
    {
      if pendingFrom < |Questions| - 1 {
        currentQuestion := pendingFrom + 1;
        completed := None;
      } else {
        var result := CalculateHealthType(Some(pendingScores), None);
        completed := Some(result);
      }
      isAnimating := false;
    }

    /** `handleBack`: step back and forget the previous question's answer
      (the tally keeps its points); on the first question return to the
      intro; on the intro, leave through `onBack`. */
    method HandleBack() returns (calledOnBack: bool)
      requires Valid()
      modifies this
      ensures Valid()
      ensures scores == old(scores) && isAnimating == old(isAnimating)
      ensures pendingFrom == old(pendingFrom) && pendingScores == old(pendingScores)
      ensures old(currentQuestion) > 0 ==>
        && currentQuestion == old(currentQuestion) - 1
        && answers == old(answers) - {Questions[old(currentQuestion) - 1].id}
        && showIntro == old(showIntro) && !calledOnBack
      ensures old(currentQuestion) == 0 && !old(showIntro) ==>
        showIntro && currentQuestion == 0 && answers == old(answers) && !calledOnBack
      ensures old(currentQuestion) == 0 && old(showIntro) ==>
        calledOnBack && unchanged(this)
    {
      calledOnBack := false;
      if currentQuestion > 0 {
        currentQuestion := currentQuestion - 1;
        answers := answers - {Questions[currentQuestion].id};
      } else if !showIntro {
        showIntro := true;
      } else {
        calledOnBack := true;
      }
    }
  }
}
