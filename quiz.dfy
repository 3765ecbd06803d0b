/** The quiz's progression: the current question, the answers so far, and whether the quiz is done. */
module CardioQuiz {
  import opened CardioQuestion
  import opened RiskScore
  import opened RiskTier

  /** The index of the last question. */
  const LastStep: nat := QuestionCount - 1

  /** All questions unanswered: the answer set a quiz starts with and returns to on reset. */
  const Unanswered: seq<Option<Answer>> := seq(QuestionCount, _ => None)

  /** The state of one quiz session. */
  class Quiz {
    var step: nat
    var answers: seq<Option<Answer>>
    var finished: bool

    /** The current question exists and there is one answer slot per question. */
    ghost predicate Valid()
      reads this
    {
      step < QuestionCount && |answers| == QuestionCount
    }

    /**
     * The states the page's buttons can reach: every question before the
     * current one is answered, and a finished quiz stands at the last
     * question with every question answered.
     */
    ghost predicate Guarded()
      reads this
    {
      Valid() &&
      (forall j :: 0 <= j < step ==> answers[j] != None) &&
      (finished ==> step == LastStep && forall j :: 0 <= j < QuestionCount ==> answers[j] != None)
    }

    /** A fresh session: the first question, nothing answered, not finished. */
    constructor ()
      ensures Guarded()
      ensures step == 0 && answers == Unanswered && !finished
    {
      step := 0;
      answers := Unanswered;
      finished := false;
    }

    /** Records an answer to the current question. */
    method HandleAnswer(x: Answer)
      requires Valid()
      modifies this
      ensures Valid()
      ensures answers == old(answers)[old(step) := Some(x)]
      ensures answers[step] == Some(x)
      ensures forall j :: 0 <= j < QuestionCount && j != step ==> answers[j] == old(answers[j])
      ensures step == old(step) && finished == old(finished)
      ensures old(Guarded()) ==> Guarded()
    {
      answers := answers[step := Some(x)];
    }

    /** Moves to the next question, or finishes the quiz from the last one. */
    method HandleNext()
      requires Valid()
      modifies this
      ensures Valid()
      ensures old(step) < LastStep ==> step == old(step) + 1 && finished == old(finished)
      ensures old(step) == LastStep ==> step == old(step) && finished
      ensures answers == old(answers)
    {
      if step < QuestionCount - 1 {
        step := step + 1;
      } else {
        finished := true;
      }
    }

    /** Moves back one question; does nothing at the first. */
    method HandlePrev()
      requires Valid()
      modifies this
      ensures Valid()
      ensures old(step) > 0 ==> step == old(step) - 1
      ensures old(step) == 0 ==> step == 0
      ensures answers == old(answers) && finished == old(finished)
      ensures old(Guarded()) && !old(finished) ==> Guarded()
    {
      if step > 0 {
        step := step - 1;
      }
    }

    /** Starts over: the first question, nothing answered, not finished, from any state. */
    method ResetQuiz()
      modifies this
      ensures Guarded()
      ensures step == 0 && answers == Unanswered && !finished
    {
      step := 0;
      answers := Unanswered;
      finished := false;
    }

    /** The Next (or Finish) button is shown and enabled: the quiz is open and the current question answered. */
    predicate NextEnabled()
      reads this
      requires Valid()
    {
      !finished && answers[step] != None
    }

    /** The Previous button is shown and enabled: the quiz is open and this is not the first question. */
    predicate PrevEnabled()
      reads this
      requires Valid()
    {
      !finished && step != 0
    }

    /** A press on Next: it moves on only when the button is enabled, and keeps the page's states reachable. */
    method PressNext() returns (moved: bool)
      requires Guarded()
      modifies this
      ensures Guarded()
      ensures moved == old(NextEnabled())
      ensures moved && old(step) < LastStep ==> step == old(step) + 1 && !finished
      ensures moved && old(step) == LastStep ==> step == LastStep && finished
      ensures !moved ==> step == old(step) && finished == old(finished)
      ensures answers == old(answers)
    {
      moved := NextEnabled();
      if moved {
        HandleNext();
      }
    }

    /** A press on Previous: it moves back only when the button is enabled. */
    method PressPrev() returns (moved: bool)
      requires Guarded()
      modifies this
      ensures Guarded()
      ensures moved == old(PrevEnabled())
      ensures moved ==> step == old(step) - 1
      ensures !moved ==> step == old(step)
      ensures answers == old(answers) && finished == old(finished)
    {
      moved := PrevEnabled();
      if moved {
        HandlePrev();
      }
    }

    /** The score and tier the result view shows; on a finished quiz every question is answered. */
    function Result(): (r: (nat, Tier))
      reads this
      requires Guarded() && finished
      ensures r.0 == Score(answers) && r.0 <= QuestionCount
      ensures r.1 == Classify(r.0)
      ensures forall j :: 0 <= j < |answers| ==> answers[j].Some?
    {
      (Score(answers), Classify(Score(answers)))
    }
  }

  /** Resetting twice leaves the same state as resetting once. */
  method ResetIsIdempotent(q: Quiz) returns (once: (nat, seq<Option<Answer>>, bool), twice: (nat, seq<Option<Answer>>, bool))
    modifies q
    ensures once == twice == (0, Unanswered, false)
    ensures twice == (q.step, q.answers, q.finished)
  {
    q.ResetQuiz();
    once := (q.step, q.answers, q.finished);
    q.ResetQuiz();
    twice := (q.step, q.answers, q.finished);
  }
}
