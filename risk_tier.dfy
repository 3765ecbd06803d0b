/** The three-band reading of the risk score shown at the end of the quiz. */
module RiskTier {
  import opened CardioQuestion
  import opened RiskScore

  /** Low number of risk factors, some present, or multiple identified. */
  datatype Tier = Low | Moderate | High

  /** The order of the tiers, by severity. */
  function Rank(t: Tier): nat {
    match t
    case Low => 0
    case Moderate => 1
    case High => 2
  }

  /** The tier of a score: at most 3 is Low, at most 8 is Moderate, above that High. */
  function Classify(score: int): (t: Tier)
    ensures t == Low <==> score <= 3
    ensures t == Moderate <==> 3 < score <= 8
    ensures t == High <==> 8 < score
  {
    if score <= 3 then Low
    else if score <= 8 then Moderate
    else High
  }

  // ---------------------------------------------------------------------------
  // A reference reading: an ascending list of inclusive upper bounds, scanned
  // in order, with an unbounded tier after the last one.
  // ---------------------------------------------------------------------------

  /** A band of scores up to and including maxInclusive. */
  datatype Band = Band(maxInclusive: int, tier: Tier)

  /** The cardiovascular bands; scores above the last bound are High. */
  const CardioBands: seq<Band> := [Band(3, Low), Band(8, Moderate)]

  /** The tier of the first band whose bound is at least the score, or top if there is none. */
  function FirstBand(score: int, bands: seq<Band>, top: Tier): (t: Tier)
    ensures (t == top && forall k :: 0 <= k < |bands| ==> bands[k].maxInclusive < score) ||
      exists k :: 0 <= k < |bands| && t == bands[k].tier && score <= bands[k].maxInclusive &&
        forall m :: 0 <= m < k ==> bands[m].maxInclusive < score
  {
    if bands == [] then top
    else if score <= bands[0].maxInclusive then bands[0].tier
    else FirstBand(score, bands[1..], top)
  }

  /** The score thresholds are the first-matching-band scan over CardioBands. */
  lemma ClassifyIsFirstBand(score: int)
    ensures Classify(score) == FirstBand(score, CardioBands, High)
  {
  }

  /** A higher score never gets a less severe tier. */
  lemma ClassifyMonotone(s1: int, s2: int)
    requires s1 <= s2
    ensures Rank(Classify(s1)) <= Rank(Classify(s2))
  {
  }

  /** The tiers at the threshold boundaries. */
  lemma ClassifyBoundaries()
    ensures Classify(3) == Low && Classify(4) == Moderate
    ensures Classify(8) == Moderate && Classify(9) == High
  {
  }

  // ---------------------------------------------------------------------------
  // The score extremes, read through the tiers.
  // ---------------------------------------------------------------------------

  /** Answering every question "unsure" is High. */
  lemma AllUnsureIsHigh(answers: seq<Option<Answer>>)
    requires |answers| == QuestionCount
    requires forall j :: 0 <= j < |answers| ==> answers[j] == Some(Unsure)
    ensures Score(answers) == QuestionCount && Classify(Score(answers)) == High
  {
    AllUnsureScoresFull(answers);
  }

  /** "Yes" to every risk-positive question and "no" to both protective ones is High. */
  lemma WorstAnswersAreHigh(answers: seq<Option<Answer>>)
    requires |answers| == QuestionCount
    requires forall j :: 0 <= j < |answers| ==>
      answers[j] == if Polarities[j] == RiskPositive then Some(Yes) else Some(No)
    ensures Score(answers) == QuestionCount && Classify(Score(answers)) == High
  {
    WorstAnswersScoreFull(answers);
  }

  /** "No" to every risk-positive question and "yes" to both protective ones is Low. */
  lemma BestAnswersAreLow(answers: seq<Option<Answer>>)
    requires |answers| == QuestionCount
    requires forall j :: 0 <= j < |answers| ==>
      answers[j] == if Polarities[j] == RiskPositive then Some(No) else Some(Yes)
    ensures Score(answers) == 0 && Classify(Score(answers)) == Low
  {
    BestAnswersScoreZero(answers);
  }

  /** An answer set with nothing answered is Low. */
  lemma UnansweredIsLow(answers: seq<Option<Answer>>)
    requires forall j :: 0 <= j < |answers| ==> answers[j] == None
    ensures Score(answers) == 0 && Classify(Score(answers)) == Low
  {
    UnansweredScoresZero(answers);
  }

  /** The first sixteen answered "yes" and the last four "no" scores 18 and is High. */
  lemma SixteenYesFourNo()
    ensures Score(seq(QuestionCount, j => if j < 16 then Some(Yes) else Some(No))) == 18
    ensures Classify(Score(seq(QuestionCount, j => if j < 16 then Some(Yes) else Some(No)))) == High
  {
    var answers := seq(QuestionCount, j => if j < 16 then Some(Yes) else Some(No));
    ScoreIsTableDriven(answers);
    TableScoreOnesPrefix(answers, 0, 18);
    TableScoreZeroIff(answers, 18);
  }

  /**
   * Every tier is reached by a real answer list: nothing answered is Low,
   * five "yes" answers and nothing else is Moderate, all "unsure" is High.
   */
  lemma EveryTierReached()
    ensures Classify(Score(seq(QuestionCount, j => None))) == Low
    ensures Score(seq(QuestionCount, j => if j < 5 then Some(Yes) else None)) == 5
    ensures Classify(Score(seq(QuestionCount, j => if j < 5 then Some(Yes) else None))) == Moderate
    ensures Classify(Score(seq(QuestionCount, j => Some(Unsure)))) == High
  {
    UnansweredIsLow(seq(QuestionCount, j => None));
    var five := seq(QuestionCount, j => if j < 5 then Some(Yes) else None);
    ScoreIsTableDriven(five);
    TableScoreOnesPrefix(five, 0, 5);
    TableScoreZeroIff(five, 5);
    AllUnsureIsHigh(seq(QuestionCount, j => Some(Unsure)));
  }
}
