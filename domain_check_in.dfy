/**
  One companion's questionnaire form: the answers recorded so far, keyed by
  question id, and the index of the question on screen. Sliders give integers
  0..100 (shown as 50 until moved); choice buttons give an option index.
*/
module DomainCheckIn {

  import opened Wrappers
  import opened Records
  import opened Companions
  import opened Scoring

  /** The values the input controls can produce for a question: an integer in
      0..100 from a slider, an option index from a choice. */
  predicate ValidAnswerFor(q: Question, a: Answer) {
    a.Number? && a.value.Floor as real == a.value && 0.0 <= a.value &&
    match q.kind
    case Slider => a.value <= 100.0
    case Choice(options) => a.value < |options| as real
  }

  /** Every answer the controls of a catalog question can produce lies in
      0..100, so the domain scores of such answers do too. */
  lemma ValidAnswersWithinRange(id: string, k: nat, a: Answer)
    requires id in Catalog && k < |Catalog[id].questions|
    requires ValidAnswerFor(Catalog[id].questions[k], a)
    ensures 0.0 <= AnswerValue(a) <= 100.0
  {
    if id == "coral" && k == 1 {
      assert |Catalog[id].questions[k].kind.options| == 5;
    }
  }

  /** `value ?? 50`: what the slider shows. */
  function SliderDisplay(value: Option<Answer>): (shown: real)
    ensures value.None? ==> shown == 50.0
    ensures value.Some? && value.value.Number? ==> shown == value.value.value
  {
    match value
    case None => 50.0
    case Some(Number(v)) => v
    case Some(NonNumber) => 50.0
  }

  /** `id` is the id of one of `c`'s questions. */
  predicate IsQuestionOf(c: Companion, id: string) {
    exists k :: 0 <= k < |c.questions| && c.questions[k].id == id
  }

  /** `e` answers one of `c`'s questions with a value its control can
      produce. */
  predicate AnswersQuestionOf(c: Companion, e: Entry<Answer>) {
    exists k :: 0 <= k < |c.questions| && c.questions[k].id == e.key && ValidAnswerFor(c.questions[k], e.value)
  }

  class CheckInForm {
    var companion: Companion
    var answers: Responses
    var currentQuestion: nat

    /** The form shows an existing question, and holds only answers to this
        companion's questions, each once and each a value its control can
        produce. */
    ghost predicate Valid()
      reads this
    {
      && currentQuestion < |companion.questions|
      && DistinctKeys(answers)
      && (forall i :: 0 <= i < |answers| ==> AnswersQuestionOf(companion, answers[i]))
    }

    /** A fresh form for one companion. */
    constructor (c: Companion)
      requires |c.questions| >= 1
      ensures Valid()
      ensures companion == c && answers == [] && currentQuestion == 0
    {
      companion := c;
      answers := [];
      currentQuestion := 0;
    }

    /** `canProceed`: the question on screen has an answer. */
    predicate CanProceed()
      reads this
      requires Valid()
      ensures CanProceed() <==> Get(answers, companion.questions[currentQuestion].id).Some?
    {
      HasKey(answers, companion.questions[currentQuestion].id)
    }

    /** `handleAnswer` for the question on screen: sets its value and leaves
        every other answer as it was. */
    method HandleAnswer(value: Answer)
      requires Valid()
      requires ValidAnswerFor(companion.questions[currentQuestion], value)
      modifies this
      ensures Valid() && CanProceed()
      ensures answers == Put(old(answers), companion.questions[currentQuestion].id, value)
      ensures companion == old(companion) && currentQuestion == old(currentQuestion)
    {
      var q := companion.questions[currentQuestion];
      var before := answers;
      PutDistinct(before, q.id, value);
      PutEntries(before, q.id, value);
      PutGet(before, q.id, value, q.id);
      answers := Put(before, q.id, value);
      assert AnswersQuestionOf(companion, Entry(q.id, value));
      forall i | 0 <= i < |answers| ensures AnswersQuestionOf(companion, answers[i]) {
        if answers[i] != Entry(q.id, value) {
          var j :| 0 <= j < |before| && before[j] == answers[i];
        }
      }
      assert Get(answers, q.id).Some?;
    }

    /** `handleNext` (enabled only when `CanProceed`): steps forward, or on the
        last question hands the answers to `onComplete`. */
    method HandleNext() returns (completed: Option<Responses>)
      requires Valid() && CanProceed()
      modifies this
      ensures Valid()
      ensures old(currentQuestion) < |companion.questions| - 1 ==>
        completed.None? && currentQuestion == old(currentQuestion) + 1
      ensures old(currentQuestion) == |companion.questions| - 1 ==>
        completed == Some(answers) && currentQuestion == old(currentQuestion)
      ensures completed.Some? ==>
        forall i :: 0 <= i < |completed.value| ==> IsQuestionOf(companion, completed.value[i].key)
      ensures companion == old(companion) && answers == old(answers)
    {
      if currentQuestion < |companion.questions| - 1 {
        currentQuestion := currentQuestion + 1;
        completed := None;
      } else {
        completed := Some(answers);
      }
    }

    /** `handlePrev`: steps back, or on the first question calls `onBack`
        when one is given. */
    method HandlePrev(hasOnBack: bool) returns (calledOnBack: bool)
      requires Valid()
      modifies this
      ensures Valid()
      ensures old(currentQuestion) > 0 ==> currentQuestion == old(currentQuestion) - 1 && !calledOnBack
      ensures old(currentQuestion) == 0 ==> currentQuestion == 0 && calledOnBack == hasOnBack
      ensures companion == old(companion) && answers == old(answers)
    {
      calledOnBack := false;
      if currentQuestion > 0 {
        currentQuestion := currentQuestion - 1;
      } else if hasOnBack {
        calledOnBack := true;
      }
    }

    /** The next companion arriving as a new prop on the same, unkeyed
        component: React keeps the answers and the question index. */
    method ShowCompanionKeepingState(c: Companion)
      modifies this
      ensures companion == c && answers == old(answers) && currentQuestion == old(currentQuestion)
    {
      companion := c;
    }
  }

  /** The entries of a put are the old entries with the written one, so keys
      stay within a set that contains the written key. */
  lemma {:induction false} PutEntries(d: Responses, k: string, v: Answer)
    ensures forall i :: 0 <= i < |Put(d, k, v)| ==>
      Put(d, k, v)[i] == Entry(k, v) || exists j :: 0 <= j < |d| && d[j] == Put(d, k, v)[i]
  {
    if d != [] && d[0].key != k {
      PutEntries(d[1..], k, v);
      var r := Put(d, k, v);
      forall i | 0 <= i < |r| ensures r[i] == Entry(k, v) || exists j :: 0 <= j < |d| && d[j] == r[i] {
        if i > 0 {
          if r[i] != Entry(k, v) {
            var j :| 0 <= j < |d[1..]| && d[1..][j] == r[i];
            assert d[j + 1] == r[i];
          }
        } else {
          assert d[0] == r[0];
        }
      }
    } else if d != [] {
      var r := Put(d, k, v);
      forall i | 0 <= i < |r| ensures r[i] == Entry(k, v) || exists j :: 0 <= j < |d| && d[j] == r[i] {
        if i > 0 {
          assert d[i] == r[i];
        }
      }
    }
  }

  /** The form as the check-in flow renders it keeps its question index when
      the next companion arrives: answering both of the mood companion's
      questions leaves the index at 1, and handing the same form the
      nutrition companion, which comes next and has a single question, leaves
      it pointing past that companion's questions. */
  method ReusedFormAfterMood() returns (f: CheckInForm)
    ensures CompanionOrder[4] == Coral.id && CompanionOrder[5] == Brook.id
    ensures f.companion == Brook && f.currentQuestion >= |f.companion.questions|
  {
    f := new CheckInForm(Coral);
    f.HandleAnswer(Number(40.0));
    var done := f.HandleNext();
    f.HandleAnswer(Number(2.0));
    done := f.HandleNext();
    f.ShowCompanionKeepingState(Brook);
  }

  /** Every companion can open a fresh form: each has a first question. */
  lemma EveryCompanionCanOpenAForm(k: nat)
    requires k < |CompanionOrder|
    ensures |Catalog[CompanionOrder[k]].questions| >= 1
  {
    QuestShapes();
    CatalogKeysAreOrder();
  }
}
