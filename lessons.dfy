/** The four-question quiz of the lessons page (frontend/src/pages/Lessons.jsx):
    each question is answered "wrong" or "correct", a submission scores the
    answers and adds the rounded percentage to a running total from which
    the page shows the average over all attempts. */
module Lessons {
  import opened Js

  datatype Question = Q1 | Q2 | Q3 | Q4

  /** The questions in the order the submit handler visits them. */
  const Questions: seq<Question> := [Q1, Q2, Q3, Q4]

  /** Every question's expected answer. */
  const CorrectAnswer := "correct"

  /** How many of the first `n` questions carry the expected answer. */
  function CountCorrect(answers: map<Question, string>, n: nat): (c: nat)
    requires n <= |Questions|
    ensures c <= n
  {
    if n == 0 then 0
    else CountCorrect(answers, n - 1)
         + (if Questions[n - 1] in answers && answers[Questions[n - 1]] == CorrectAnswer then 1 else 0)
  }

  /** The share of right answers, `Math.round(s / 4 * 100)`. */
  function Percentage(s: nat): (p: int)
    requires s <= |Questions|
    ensures p == 25 * s
    ensures 0 <= p <= 100
  {
    var p := Round(s as real / 4.0 * 100.0);
    RoundOfInt(25 * s);
    assert s as real / 4.0 * 100.0 == (25 * s) as real;
    p
  }

  /** `hasPassed`: a score exists and reaches 75 percent. Of the
      percentages four questions can give, only 75 and 100 pass. */
  predicate HasPassed(percentage: Option<int>)
    ensures percentage.None? ==> !HasPassed(percentage)
    ensures percentage.Some? && 0 <= percentage.value <= 100 && percentage.value % 25 == 0 ==>
              (HasPassed(percentage) <==> percentage.value == 75 || percentage.value == 100)
  {
    percentage.Some? && percentage.value >= 75
  }

  /** Passing takes at least three of the four answers. */
  lemma PassIffThreeRight(s: nat)
    requires s <= |Questions|
    ensures HasPassed(Some(Percentage(s))) <==> s >= 3
  {
  }

  /** `averagePercent`: the rounded mean over all submissions, none before the first. */
  function AveragePercent(total: int, attempts: nat): (avg: Option<int>)
    ensures attempts == 0 <==> avg == None
    ensures attempts > 0 ==> avg == Some((2 * total + attempts) / (2 * attempts))
    ensures attempts > 0 && 0 <= total <= 100 * attempts ==> 0 <= avg.value <= 100
  {
    if attempts > 0 then
      RoundQuotient(total, attempts);
      AverageBounds(total, attempts);
      Some(Round(total as real / attempts as real))
    else None
  }

  lemma AverageBounds(total: int, attempts: nat)
    requires attempts > 0
    ensures 0 <= total <= 100 * attempts ==> 0 <= (2 * total + attempts) / (2 * attempts) <= 100
  {
    if 0 <= total <= 100 * attempts {
      var q := (2 * total + attempts) / (2 * attempts);
      assert 2 * attempts * q <= 2 * total + attempts < 2 * attempts * (q + 1);
    }
  }

  class LessonsPage {
    var isQuizOpen: bool
    var answers: map<Question, string>
    var score: Option<nat>
    var percentage: Option<int>
    var attempts: nat
    var totalPercentAccum: int

    /** Every recorded percentage lies in 0..100, so the running total stays
        within 100 per attempt, and a score exists once there was an attempt. */
    ghost predicate Valid()
      reads this
    {
      && 0 <= totalPercentAccum <= 100 * attempts
      && (score.Some? <==> attempts > 0)
      && (percentage.Some? <==> attempts > 0)
      && (score.Some? ==> score.value <= |Questions| && percentage == Some(Percentage(score.value)))
    }

    constructor ()
      ensures Valid()
      ensures !isQuizOpen && answers == map[Q1 := "", Q2 := "", Q3 := "", Q4 := ""]
      ensures score == None && percentage == None && attempts == 0 && totalPercentAccum == 0
    {
      isQuizOpen := false;
      answers := map[Q1 := "", Q2 := "", Q3 := "", Q4 := ""];
      score := None;
      percentage := None;
      attempts := 0;
      totalPercentAccum := 0;
    }

    /** The quiz button and the close button. */
    method SetQuizOpen(open: bool)
      requires Valid()
      modifies this
      ensures Valid() && isQuizOpen == open
      ensures answers == old(answers) && score == old(score) && percentage == old(percentage)
      ensures attempts == old(attempts) && totalPercentAccum == old(totalPercentAccum)
    {
      isQuizOpen := open;
    }

    /** `handleAnswerChange`: only the chosen question's answer changes. */
    method AnswerChange(q: Question, value: string)
      requires Valid()
      modifies this
      ensures Valid()
      ensures answers == old(answers)[q := value]
      ensures forall other :: other != q && other in old(answers) ==> other in answers && answers[other] == old(answers)[other]
      ensures isQuizOpen == old(isQuizOpen) && score == old(score) && percentage == old(percentage)
      ensures attempts == old(attempts) && totalPercentAccum == old(totalPercentAccum)
    {
      answers := answers[q := value];
    }

    /** `handleSubmitQuiz`: score the four answers and record the attempt. */
    method SubmitQuiz()
      requires Valid()
      modifies this
      ensures Valid()
      ensures score == Some(CountCorrect(answers, |Questions|))
      ensures percentage == Some(Percentage(CountCorrect(answers, |Questions|)))
      ensures attempts == old(attempts) + 1
      ensures totalPercentAccum == old(totalPercentAccum) + percentage.value
      ensures isQuizOpen == old(isQuizOpen) && answers == old(answers)
    {
      var s := 0;
      var i := 0;
      while i < |Questions|
        invariant 0 <= i <= |Questions|
        invariant s == CountCorrect(answers, i)
      {
        var q := Questions[i];
        if q in answers && answers[q] == CorrectAnswer {
          s := s + 1;
        }
        i := i + 1;
      }
      var perc := Percentage(s);
      score := Some(s);
      percentage := Some(perc);
      attempts := attempts + 1;
      totalPercentAccum := totalPercentAccum + perc;
    }

    /** The average the page shows. */
    function Average(): (avg: Option<int>)
      reads this
      requires Valid()
      ensures avg.Some? ==> 0 <= avg.value <= 100
      ensures avg.None? <==> attempts == 0
    {
      AveragePercent(totalPercentAccum, attempts)
    }
  }
}
