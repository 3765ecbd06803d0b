# Cardiovascular risk quiz: a Dafny model

This project models the logic of the cardiovascular risk quiz page
(`src/pages/CardioQuiz.tsx`). The quiz has twenty yes/no/unsure questions.
It walks the respondent through them one at a time, counts the answers that
signal a risk factor, and reads the count as one of three tiers.

- `answer.dfy`, module `CardioQuestion`: the answer type (`yes`, `no`,
  `unsure`) and `Option` for a slot that is still unanswered.
- `risk_score.dfy`, module `RiskScore`: the risk score.
  - `Reduce`/`ReduceStep` follow the source's `reduce` over the twenty
    positions, with its branches in the source's order.
  - `TableScore` is a reference definition. It sums, per position, the
    contribution that a polarity table (`Polarities`: risk-positive, or
    protective for exercise and diet) assigns to the answer.
  - `ScoreIsTableDriven` proves the two agree. The lemmas about positions
    and extremes rest on that.
- `risk_tier.dfy`, module `RiskTier`: the Low / Moderate / High reading of
  the score (at most 3, at most 8, above 8). `ClassifyIsFirstBand` proves it
  equal to a scan of ascending inclusive bands; further lemmas relate it to
  the score's extremes.
- `quiz.dfy`, module `CardioQuiz`: class `Quiz` with the page's state
  `step`, `answers` and `finished`, and its four handlers.
  - `Valid()` is the invariant `step < 20 && |answers| == 20`.
  - `PressNext`/`PressPrev` model the Next and Previous buttons. A button
    acts only when it is shown and enabled.
  - `Guarded()` is the stronger invariant those button presses keep: every
    question before the current one is answered. A finished quiz stands at
    the last question with all twenty answered.

Reading an answer position past the end of the answer list gives
`undefined` in the source. `RiskScore.At` models that read as unanswered,
so scoring is total over answer lists of any length.

The source computes `riskScore` on every render but shows it only in the
finished view. `Quiz.Result` models the finished view's reading of it.

## Model

| member | source | states |
|---|---|---|
| RiskScore.ReduceStep | src/pages/CardioQuiz.tsx:67-87 | the reduce callback as written, branches idx < 16, 16 or 17, 19, 18 in that order; each step adds 0 or 1 to the accumulator; its meaning per position is given by ReduceStepIsTableDriven |
| RiskScore.Reduce | src/pages/CardioQuiz.tsx:67-87 | the fold from position idx never lowers the accumulator and adds at most one point per remaining position; its value is given by ReduceIsTableScore |
| RiskScore.Score | src/pages/CardioQuiz.tsx:67-87 | `riskScore`, the reduce from position 0 with accumulator 0, lies in [0, 20] for every answer list, partial or complete; its meaning is given by ScoreIsTableDriven and the lemmas after it |
| RiskScore.Contribution | src/pages/CardioQuiz.tsx:69-85 | one answer adds at most 1; under a risk-positive polarity it adds 1 exactly for yes or unsure, under a protective one exactly for no or unsure |
| RiskScore.TableScore | src/pages/CardioQuiz.tsx:67-87 | the table-driven sum over the positions from `from` to the last adds at most one point per position |
| RiskScore.ProtectivePositions | src/pages/CardioQuiz.tsx:69-85 | the polarity table has twenty entries and exactly positions 16 and 17 are protective |
| RiskScore.ReduceStepIsTableDriven | src/pages/CardioQuiz.tsx:69-86 | every branch of the fold's step adds exactly the contribution the polarity table gives that position's answer |
| RiskScore.ReduceIsTableScore | src/pages/CardioQuiz.tsx:67-87 | the fold from any position and accumulator adds the table sum of the remaining positions |
| RiskScore.ScoreIsTableDriven | src/pages/CardioQuiz.tsx:67-87 | the source's branchy score equals the table-driven score for every answer list |
| RiskScore.TableScoreUpdate | src/pages/CardioQuiz.tsx:67-87 | changing one position's answer changes the table sum by that position's contribution and nothing else |
| RiskScore.PositionContribution | src/pages/CardioQuiz.tsx:67-87 | answering position i raises the score it has with i unanswered by exactly that answer's contribution |
| RiskScore.RiskPositiveContribution | src/pages/CardioQuiz.tsx:69-85 | at positions 0-15, 18 and 19 an answer adds 1 exactly when it is yes or unsure, and 0 exactly when it is no or missing |
| RiskScore.ProtectiveContribution | src/pages/CardioQuiz.tsx:73-76 | at positions 16 and 17 an answer adds 1 exactly when it is no or unsure, and 0 exactly when it is yes or missing |
| RiskScore.TableScoreZeroIff | src/pages/CardioQuiz.tsx:67-87 | a suffix sum is 0 exactly when no position in it contributes |
| RiskScore.TableScoreFullIff | src/pages/CardioQuiz.tsx:67-87 | a suffix sum equals its length exactly when every position in it contributes |
| RiskScore.TableScoreOnesPrefix | src/pages/CardioQuiz.tsx:67-87 | a run of contributing positions adds its length to the rest of the sum |
| RiskScore.ScoreZeroIff | src/pages/CardioQuiz.tsx:67-87 | the score is 0 exactly when no position signals a risk |
| RiskScore.ScoreFullIff | src/pages/CardioQuiz.tsx:67-87 | the score is 20 exactly when every position signals a risk |
| RiskScore.UnansweredScoresZero | src/pages/CardioQuiz.tsx:38-87 | an answer list with nothing answered, such as the initial one, scores 0 |
| RiskScore.AllUnsureScoresFull | src/pages/CardioQuiz.tsx:67-87 | twenty unsure answers score 20 |
| RiskScore.WorstAnswersScoreFull | src/pages/CardioQuiz.tsx:67-87 | yes to every risk-positive question and no to both protective ones scores 20 |
| RiskScore.BestAnswersScoreZero | src/pages/CardioQuiz.tsx:67-87 | no to every risk-positive question and yes to both protective ones scores 0 |
| RiskTier.Classify | src/pages/CardioQuiz.tsx:109-115 | every score gets exactly one tier: Low exactly when at most 3, Moderate exactly when 4 to 8, High exactly when above 8 |
| RiskTier.FirstBand | src/pages/CardioQuiz.tsx:109-115 | the band scan returns the tier of the first band whose inclusive bound covers the score, or the top tier when no bound does |
| RiskTier.ClassifyIsFirstBand | src/pages/CardioQuiz.tsx:109-115 | the thresholds are the first-matching scan over the bands (3, Low) and (8, Moderate) with High above them |
| RiskTier.ClassifyMonotone | src/pages/CardioQuiz.tsx:109-115 | a higher score never gets a less severe tier |
| RiskTier.ClassifyBoundaries | src/pages/CardioQuiz.tsx:109-115 | 3 is Low, 4 is Moderate, 8 is Moderate and 9 is High |
| RiskTier.AllUnsureIsHigh | src/pages/CardioQuiz.tsx:67-115 | twenty unsure answers score 20, which is High |
| RiskTier.WorstAnswersAreHigh | src/pages/CardioQuiz.tsx:67-115 | yes to every risk-positive question and no to both protective ones scores 20, which is High |
| RiskTier.BestAnswersAreLow | src/pages/CardioQuiz.tsx:67-115 | no to every risk-positive question and yes to both protective ones scores 0, which is Low |
| RiskTier.UnansweredIsLow | src/pages/CardioQuiz.tsx:38-115 | nothing answered scores 0, which is Low |
| RiskTier.SixteenYesFourNo | src/pages/CardioQuiz.tsx:67-115 | the first sixteen answered yes and the last four no scores 18, which is High |
| RiskTier.EveryTierReached | src/pages/CardioQuiz.tsx:67-115 | every tier is shown for some answer list: nothing answered is Low, five yes answers alone score 5 and are Moderate, all unsure is High |
| CardioQuiz.Quiz.constructor | src/pages/CardioQuiz.tsx:37-39 | a session starts at the first question, with twenty unanswered slots, not finished |
| CardioQuiz.Quiz.HandleAnswer | src/pages/CardioQuiz.tsx:42-46 | sets the current slot to the answer; keeps twenty slots; leaves every other slot, the step and the finished flag unchanged |
| CardioQuiz.Quiz.HandleNext | src/pages/CardioQuiz.tsx:48-54 | below the last question, advances the step by one; at the last, keeps the step and sets finished; answers unchanged; step stays within 0..19 |
| CardioQuiz.Quiz.HandlePrev | src/pages/CardioQuiz.tsx:56-58 | decrements the step only when it is above 0; nothing else changes |
| CardioQuiz.Quiz.ResetQuiz | src/pages/CardioQuiz.tsx:60-64 | from any state, returns to the first question with twenty unanswered slots and not finished |
| CardioQuiz.Quiz.Valid | src/pages/CardioQuiz.tsx:37-38 | the state invariant: the step indexes a question (0 to 19) and there are exactly twenty answer slots |
| CardioQuiz.Quiz.Guarded | src/pages/CardioQuiz.tsx:92-150 | the invariant of states the buttons reach: every question before the current one is answered, and a finished quiz is at question 19 with all twenty answered |
| CardioQuiz.Quiz.NextEnabled | src/pages/CardioQuiz.tsx:145-148 | Next is shown only in the open quiz and is disabled while the current question is unanswered |
| CardioQuiz.Quiz.PrevEnabled | src/pages/CardioQuiz.tsx:138-142 | Previous is shown only in the open quiz and is disabled at the first question |
| CardioQuiz.Quiz.PressNext | src/pages/CardioQuiz.tsx:145-150 | Next acts exactly when the current question is answered in the open quiz; it then advances or finishes, and a finished quiz has all twenty answered |
| CardioQuiz.Quiz.PressPrev | src/pages/CardioQuiz.tsx:138-144 | Previous acts exactly when the open quiz is past the first question, and then steps back by one |
| CardioQuiz.Quiz.Result | src/pages/CardioQuiz.tsx:92-115 | the finished view's score lies in [0, 20], its tier is the score's classification, and every question is answered |
| CardioQuiz.ResetIsIdempotent | src/pages/CardioQuiz.tsx:60-64 | resetting twice gives the same state as resetting once |

## Left out

- Rendering: the JSX, styling, and the `Button`, `CheckCircle2` and `HeartPulse` components. They are presentation. The only parts modelled are which buttons the views show and when Next and Previous are disabled.
- The question texts (src/pages/CardioQuiz.tsx:9-34). Only their count (20) and each position's polarity affect the logic.
- The tier messages and the capitalised answer display (src/pages/CardioQuiz.tsx:103, 110-114). These are text formatting; the model keeps only which tier is shown.
- Routing through `useNavigate` ("Back to Home"). It is framework plumbing with no quiz state.
- The progress bar (src/components/CardioProgressBar.tsx). Its percentage uses floating-point division and rounding.
- The result chart (src/components/CardioQuizResultChart.tsx) and the meal-plan card. They are wrappers over a charting library and static text.
- React's asynchronous state batching. Each handler is one atomic update, since events are handled one at a time.
- Weighted questions (weight 2) and other threshold sets. They belong to other quiz variants that are not part of this model; every cardiovascular question weighs 1.
- Answering in a different order needs no lemma of its own. The score is a function of the final answer list alone.
