/** The cardiovascular risk score: one point per answer that signals a risk factor. */
module RiskScore {
  import opened CardioQuestion

  /** The number of questions in the quiz. */
  const QuestionCount: nat := 20

  /**
   * How a question's answer is read. For a risk-positive question (a symptom,
   * a diagnosis, family history, smoking, ...) "yes" signals risk; for a
   * protective one (regular exercise, a heart-healthy diet) "no" does.
   * "Unsure" signals risk either way.
   */
  datatype Polarity = RiskPositive | Protective

  /** The polarity of each question, by position. */
  const Polarities: seq<Polarity> := [
    RiskPositive, RiskPositive, RiskPositive, RiskPositive, RiskPositive,  // symptoms 0-4
    RiskPositive, RiskPositive,                                            // symptoms 5-6
    RiskPositive, RiskPositive, RiskPositive, RiskPositive, RiskPositive,  // medical history 7-11
    RiskPositive, RiskPositive,                                            // family history 12-13
    RiskPositive, RiskPositive,                                            // tobacco, alcohol
    Protective, Protective,                                                // exercise, diet
    RiskPositive, RiskPositive                                             // overweight, stress
  ]

  /** The answer stored at a position; a position past the end reads as unanswered. */
  function At(answers: seq<Option<Answer>>, idx: nat): Option<Answer> {
    if idx < |answers| then answers[idx] else None
  }

  // ---------------------------------------------------------------------------
  // The score as the source computes it: a left fold over the question
  // positions whose step is a chain of branches on the position.
  // ---------------------------------------------------------------------------

  /** One step of the fold: the accumulator after looking at position idx. */
  function ReduceStep(acc: nat, idx: nat, answers: seq<Option<Answer>>): (r: nat)
    ensures acc <= r <= acc + 1
  {
    var a := At(answers, idx);
    if idx < 16 then
      if a == Some(Yes) || a == Some(Unsure) then acc + 1 else acc
    else if idx == 16 || idx == 17 then
      if a == Some(No) || a == Some(Unsure) then acc + 1 else acc
    else if idx == 19 then
      if a == Some(Yes) || a == Some(Unsure) then acc + 1 else acc
    else if idx == 18 then
      if a == Some(Yes) || a == Some(Unsure) then acc + 1 else acc
    else
      acc
  }

  /** The fold from position idx on, starting from accumulator acc. */
  function Reduce(answers: seq<Option<Answer>>, idx: nat, acc: nat): (r: nat)
    ensures acc <= r
    ensures idx <= QuestionCount ==> r <= acc + (QuestionCount - idx)
    decreases QuestionCount - idx
  {
    if idx >= QuestionCount then acc
    else Reduce(answers, idx + 1, ReduceStep(acc, idx, answers))
  }

  /** The risk score of an answer set, complete or partial: at most one point per question. */
  function Score(answers: seq<Option<Answer>>): (r: nat)
    ensures r <= QuestionCount
  {
    Reduce(answers, 0, 0)
  }

  // ---------------------------------------------------------------------------
  // The reference definition: a per-position contribution read off the
  // polarity table, summed over the positions.
  // ---------------------------------------------------------------------------

  /** The points one answer adds to the score under the given polarity. */
  function Contribution(p: Polarity, a: Option<Answer>): (c: nat)
    ensures c <= 1
    ensures p == RiskPositive ==> (c == 1 <==> a == Some(Yes) || a == Some(Unsure))
    ensures p == Protective ==> (c == 1 <==> a == Some(No) || a == Some(Unsure))
  {
    match a
    case None => 0
    case Some(Unsure) => 1
    case Some(Yes) => if p == RiskPositive then 1 else 0
    case Some(No) => if p == Protective then 1 else 0
  }

  /** The points the answer at position idx adds to the score. */
  function PositionScore(answers: seq<Option<Answer>>, idx: nat): nat
    requires idx < QuestionCount
  {
    Contribution(Polarities[idx], At(answers, idx))
  }

  /** The sum of the contributions of positions from, ..., QuestionCount - 1. */
  function TableScore(answers: seq<Option<Answer>>, from: nat): (s: nat)
    requires from <= QuestionCount
    ensures s <= QuestionCount - from
    decreases QuestionCount - from
  {
    if from == QuestionCount then 0
    else PositionScore(answers, from) + TableScore(answers, from + 1)
  }

  /** Exactly the two positions 16 (exercise) and 17 (diet) are protective. */
  lemma ProtectivePositions()
    ensures |Polarities| == QuestionCount
    ensures forall i :: 0 <= i < QuestionCount ==>
      (Polarities[i] == Protective <==> i == 16 || i == 17)
  {
  }

  /** Each branch of the fold's step adds exactly the table's contribution. */
  lemma ReduceStepIsTableDriven(acc: nat, idx: nat, answers: seq<Option<Answer>>)
    requires idx < QuestionCount
    ensures ReduceStep(acc, idx, answers) == acc + PositionScore(answers, idx)
  {
  }

  /** The fold from position idx adds the table sum of the remaining positions. */
  lemma {:induction false} ReduceIsTableScore(answers: seq<Option<Answer>>, idx: nat, acc: nat)
    requires idx <= QuestionCount
    ensures Reduce(answers, idx, acc) == acc + TableScore(answers, idx)
    decreases QuestionCount - idx
  {
    if idx < QuestionCount {
      ReduceStepIsTableDriven(acc, idx, answers);
      ReduceIsTableScore(answers, idx + 1, ReduceStep(acc, idx, answers));
    }
  }

  /** The source's branchy score equals the table-driven one. */
  lemma ScoreIsTableDriven(answers: seq<Option<Answer>>)
    ensures Score(answers) == TableScore(answers, 0)
  {
    ReduceIsTableScore(answers, 0, 0);
  }

  // ---------------------------------------------------------------------------
  // What one position contributes to the score.
  // ---------------------------------------------------------------------------

  /** Changing the answer at position i changes only position i's contribution. */
  lemma {:induction false} TableScoreUpdate(answers: seq<Option<Answer>>, i: nat, x: Option<Answer>, from: nat)
    requires i < |answers| && i < QuestionCount && from <= QuestionCount
    ensures TableScore(answers[i := x], from) ==
      TableScore(answers[i := None], from) + (if from <= i then Contribution(Polarities[i], x) else 0)
    decreases QuestionCount - from
  {
    if from < QuestionCount {
      TableScoreUpdate(answers, i, x, from + 1);
    }
  }

  /** Answering position i adds that answer's contribution to the score it had unanswered. */
  lemma PositionContribution(answers: seq<Option<Answer>>, i: nat, x: Option<Answer>)
    requires i < |answers| && i < QuestionCount
    ensures Score(answers[i := x]) == Score(answers[i := None]) + Contribution(Polarities[i], x)
  {
    ScoreIsTableDriven(answers[i := x]);
    ScoreIsTableDriven(answers[i := None]);
    TableScoreUpdate(answers, i, x, 0);
  }

  /** A risk-positive position adds 1 exactly for "yes" or "unsure", and 0 for "no" or no answer. */
  lemma RiskPositiveContribution(answers: seq<Option<Answer>>, i: nat, x: Option<Answer>)
    requires i < |answers| && i < QuestionCount && i != 16 && i != 17
    ensures Score(answers[i := x]) == Score(answers[i := None]) + 1 <==> x == Some(Yes) || x == Some(Unsure)
    ensures Score(answers[i := x]) == Score(answers[i := None]) <==> x == Some(No) || x == None
  {
    ProtectivePositions();
    PositionContribution(answers, i, x);
  }

  /** A protective position adds 1 exactly for "no" or "unsure", and 0 for "yes" or no answer. */
  lemma ProtectiveContribution(answers: seq<Option<Answer>>, i: nat, x: Option<Answer>)
    requires i < |answers| && (i == 16 || i == 17)
    ensures Score(answers[i := x]) == Score(answers[i := None]) + 1 <==> x == Some(No) || x == Some(Unsure)
    ensures Score(answers[i := x]) == Score(answers[i := None]) <==> x == Some(Yes) || x == None
  {
    PositionContribution(answers, i, x);
  }

  // ---------------------------------------------------------------------------
  // The extremes of the score.
  // ---------------------------------------------------------------------------

  lemma {:induction false} TableScoreZeroIff(answers: seq<Option<Answer>>, from: nat)
    requires from <= QuestionCount
    ensures TableScore(answers, from) == 0 <==>
      forall j :: from <= j < QuestionCount ==> PositionScore(answers, j) == 0
    decreases QuestionCount - from
  {
    if from < QuestionCount {
      TableScoreZeroIff(answers, from + 1);
    }
  }

  lemma {:induction false} TableScoreFullIff(answers: seq<Option<Answer>>, from: nat)
    requires from <= QuestionCount
    ensures TableScore(answers, from) == QuestionCount - from <==>
      forall j :: from <= j < QuestionCount ==> PositionScore(answers, j) == 1
    decreases QuestionCount - from
  {
    if from < QuestionCount {
      TableScoreFullIff(answers, from + 1);
    }
  }

  /** A run of positions that all signal a risk adds its length to the rest of the sum. */
  lemma {:induction false} TableScoreOnesPrefix(answers: seq<Option<Answer>>, from: nat, mid: nat)
    requires from <= mid <= QuestionCount
    requires forall j :: from <= j < mid ==> PositionScore(answers, j) == 1
    ensures TableScore(answers, from) == TableScore(answers, mid) + (mid - from)
    decreases mid - from
  {
    if from < mid {
      TableScoreOnesPrefix(answers, from + 1, mid);
    }
  }

  /** The score is 0 exactly when no position signals a risk. */
  lemma ScoreZeroIff(answers: seq<Option<Answer>>)
    ensures Score(answers) == 0 <==> forall j :: 0 <= j < QuestionCount ==> PositionScore(answers, j) == 0
  {
    ScoreIsTableDriven(answers);
    TableScoreZeroIff(answers, 0);
  }

  /** The score is the maximum, QuestionCount, exactly when every position signals a risk. */
  lemma ScoreFullIff(answers: seq<Option<Answer>>)
    ensures Score(answers) == QuestionCount <==> forall j :: 0 <= j < QuestionCount ==> PositionScore(answers, j) == 1
  {
    ScoreIsTableDriven(answers);
    TableScoreFullIff(answers, 0);
  }

  /** An answer set with nothing answered, the initial one included, scores 0. */
  lemma UnansweredScoresZero(answers: seq<Option<Answer>>)
    requires forall j :: 0 <= j < |answers| ==> answers[j] == None
    ensures Score(answers) == 0
  {
    ScoreZeroIff(answers);
  }

  /** Answering every question "unsure" gives the maximum score. */
  lemma AllUnsureScoresFull(answers: seq<Option<Answer>>)
    requires |answers| == QuestionCount
    requires forall j :: 0 <= j < |answers| ==> answers[j] == Some(Unsure)
    ensures Score(answers) == QuestionCount
  {
    ScoreFullIff(answers);
  }

  /** "Yes" to every risk-positive question and "no" to both protective ones gives the maximum score. */
  lemma WorstAnswersScoreFull(answers: seq<Option<Answer>>)
    requires |answers| == QuestionCount
    requires forall j :: 0 <= j < |answers| ==>
      answers[j] == if Polarities[j] == RiskPositive then Some(Yes) else Some(No)
    ensures Score(answers) == QuestionCount
  {
    ScoreFullIff(answers);
  }

  /** "No" to every risk-positive question and "yes" to both protective ones scores 0. */
  lemma BestAnswersScoreZero(answers: seq<Option<Answer>>)
    requires |answers| == QuestionCount
    requires forall j :: 0 <= j < |answers| ==>
      answers[j] == if Polarities[j] == RiskPositive then Some(No) else Some(Yes)
    ensures Score(answers) == 0
  {
    ScoreZeroIff(answers);
  }
}
