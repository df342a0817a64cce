/** The rules inside the game dashboard (frontend/src/pages/GameDashboard.jsx):
    colour and badge thresholds, the level read-outs, the choice of story
    beats to play on entry, the story and pop-up queues, and the quiz of the
    learning module that opens before each game. */
module Dashboard {
  import opened Js
  import opened Seqs

  // ---------------------------------------------------------------- thresholds

  const ColorLow := "#ff6b6b"
  const ColorMid := "#ffa726"
  const ColorHigh := "#ffee58"
  const ColorDone := "#66bb6a"

  /** `getProgressColor`: the first bucket whose upper bound the progress does not exceed. */
  function ProgressColor(progress: int): (c: string)
    ensures c == ColorLow <==> progress <= 25
    ensures c == ColorMid <==> 25 < progress <= 50
    ensures c == ColorHigh <==> 50 < progress <= 75
    ensures c == ColorDone <==> 75 < progress
  {
    if progress <= 25 then ColorLow
    else if progress <= 50 then ColorMid
    else if progress <= 75 then ColorHigh
    else ColorDone
  }

  datatype Status = Offline | Bronze | Silver | Gold | Diamond
  {
    /** The badge colour `getGameStatus` pairs with each status. */
    function Color(): string
    {
      match this
      case Offline => "#94a3b8"
      case Bronze => "#cd7f32"
      case Silver => "#c0c0c0"
      case Gold => "#ffd700"
      case Diamond => "#00bcd4"
    }

    function Rank(): nat
    {
      match this
      case Offline => 0
      case Bronze => 1
      case Silver => 2
      case Gold => 3
      case Diamond => 4
    }
  }

  /** `getGameStatus`: a zero score is offline; otherwise the badge is fixed
      by the first of 300, 600, 800 that the score does not exceed. */
  function GameStatus(score: int): (s: Status)
    ensures s == Offline <==> score == 0
    ensures s == Bronze <==> score != 0 && score <= 300
    ensures s == Silver <==> 300 < score <= 600
    ensures s == Gold <==> 600 < score <= 800
    ensures s == Diamond <==> 800 < score
  {
    if score == 0 then Offline
    else if score <= 300 then Bronze
    else if score <= 600 then Silver
    else if score <= 800 then Gold
    else Diamond
  }

  /** Among positive scores a higher score never earns a lower badge. */
  lemma GameStatusMonotone(a: int, b: int)
    requires 0 < a <= b
    ensures GameStatus(a).Rank() <= GameStatus(b).Rank()
  {
  }

  /** The score shown on an arena card: a missing score counts as 0. */
  function ArenaScore(games: map<int, int>, gameNum: int): (s: int)
    ensures gameNum !in games ==> s == 0
    ensures gameNum in games ==> s == games[gameNum]
  {
    if gameNum in games then games[gameNum] else 0
  }

  /** The header's "Security Level N Analyst". */
  function HeaderLevel(progress: int): (level: int)
    ensures 25 * (level - 1) <= progress < 25 * level
  {
    progress / 25 + 1
  }

  /** An overall progress in 0..100 gives a header level from 1 to 5. */
  lemma HeaderLevelRange(progress: int)
    requires 0 <= progress <= 100
    ensures 1 <= HeaderLevel(progress) <= 5
  {
  }

  /** The arena modal's security level, as a whole percentage. */
  function ArenaLevel(score: int): (pct: int)
    ensures 0 <= pct <= 100
    ensures score <= 0 ==> pct == 0
    ensures score > 0 && pct < 100 ==> 10 * pct <= score < 10 * (pct + 1)
    ensures score > 0 && pct == 100 ==> score >= 1000
  {
    if score > 0 then MinI(score / 10, 100) else 0
  }

  // ---------------------------------------------------------------- story beats

  datatype Beat = Beat(id: string, act: int, moduleGameNum: int,
                       minProgress: int, maxProgress: int, trigger: string, speaker: string)

  const EnterDashboard := "enter-dashboard"

  const StoryBeats: seq<Beat> := [
    Beat("act1_intro_trail", 1, 1, 0, 5, EnterDashboard, "Te-Qwuiz"),
    Beat("act1_ailithm_trail", 1, 1, 5, 24, EnterDashboard, "Ailithm")
  ]

  /** The test each beat passes to be queued on dashboard entry. */
  predicate Pending(b: Beat, progress: int, shown: seq<string>)
  {
    b.trigger == EnterDashboard && b.minProgress <= progress <= b.maxProgress && b.id !in shown
  }

  /** The progress the dashboard reads from the stored profile; a missing value counts as 0. */
  function StoredProgress(p: Option<int>): int
  {
    match p
    case None => 0
    case Some(v) => v
  }

  /** The `STORY_BEATS.filter(...)` on entry. */
  function PendingBeats(beats: seq<Beat>, progress: int, shown: seq<string>): (r: seq<Beat>)
    ensures |r| <= |beats|
    ensures forall k :: 0 <= k < |r| ==> Pending(r[k], progress, shown)
  {
    if beats == [] then []
    else if Pending(beats[0], progress, shown) then [beats[0]] + PendingBeats(beats[1..], progress, shown)
    else PendingBeats(beats[1..], progress, shown)
  }

  /** A beat is queued exactly when it is in the table and passes the test. */
  lemma {:induction false} PendingBeatsMembers(beats: seq<Beat>, progress: int, shown: seq<string>, b: Beat)
    ensures b in PendingBeats(beats, progress, shown) <==> b in beats && Pending(b, progress, shown)
  {
    if beats != [] {
      PendingBeatsMembers(beats[1..], progress, shown, b);
      assert beats == [beats[0]] + beats[1..];
    }
  }

  /** The filter keeps the table's order: it works on each part of a split
      table separately and joins the results in the same order. */
  lemma {:induction false} PendingBeatsAppend(b1: seq<Beat>, b2: seq<Beat>, progress: int, shown: seq<string>)
    ensures PendingBeats(b1 + b2, progress, shown)
            == PendingBeats(b1, progress, shown) + PendingBeats(b2, progress, shown)
  {
    if b1 == [] {
      assert b1 + b2 == b2;
    } else {
      assert (b1 + b2)[1..] == b1[1..] + b2;
      PendingBeatsAppend(b1[1..], b2, progress, shown);
    }
  }

  /** Finishing a beat records its id unless it is already recorded. */
  function Remember(shown: seq<string>, id: string): (r: seq<string>)
    ensures id in r
    ensures id in shown ==> r == shown
    ensures id !in shown ==> r == shown + [id]
    ensures NoDuplicates(shown) ==> NoDuplicates(r)
  {
    if id in shown then shown else shown + [id]
  }

  // ---------------------------------------------------------------- pop-ups

  const PopupImagesByGame: map<int, seq<string>> := map[
    1 := ["../game_support/Pop-ups/Hero1.png"],
    2 := ["/game_support/Pop-ups/Hero2.png"],
    3 := ["../game_support/Pop-ups/Hero3.png"],
    4 := ["../game_support/Pop-ups/Horse.png", "../game_support/Pop-ups/AilithmG.png",
          "../game_support/Pop-ups/AilithmV.png"],
    5 := ["/game_support/Pop-ups/Lagdrakul2A.png"]
  ]

  /** The pop-up sequence for a game; an unknown game has none. */
  function PopupImages(gameNum: int): (r: seq<string>)
    ensures gameNum !in PopupImagesByGame ==> r == []
    ensures 1 <= gameNum <= 5 ==> |r| >= 1
  {
    if gameNum in PopupImagesByGame then PopupImagesByGame[gameNum] else []
  }

  /** The dashboard's story and pop-up queues, and the record of beats already
      shown (kept in browser storage by the page). */
  class StoryQueues {
    var storyQueue: seq<Beat>
    var currentStoryIndex: nat
    var shownIds: seq<string>
    var popupQueue: seq<string>
    var currentPopupIndex: nat
    var selectedArena: Option<int>
    var showModal: bool

    /** A non-empty queue is indexed inside its bounds, every beat before the
        current one has been recorded as shown, and no id is recorded twice. */
    ghost predicate Valid()
      reads this
    {
      && (storyQueue != [] ==> currentStoryIndex < |storyQueue|)
      && (storyQueue != [] ==> forall k :: 0 <= k < currentStoryIndex ==> storyQueue[k].id in shownIds)
      && NoDuplicates(shownIds)
      && (popupQueue != [] ==> currentPopupIndex < |popupQueue|)
    }

    constructor (shown: seq<string>)
      requires NoDuplicates(shown)
      ensures Valid()
      ensures storyQueue == [] && currentStoryIndex == 0 && shownIds == shown
      ensures popupQueue == [] && currentPopupIndex == 0 && selectedArena == None && !showModal
    {
      storyQueue := [];
      currentStoryIndex := 0;
      shownIds := shown;
      popupQueue := [];
      currentPopupIndex := 0;
      selectedArena := None;
      showModal := false;
    }

    /** The mount effect: queue the pending beats, if there are any. */
    method Enter(progress: Option<int>)
      requires Valid()
      modifies this
      ensures Valid()
      ensures var pending := PendingBeats(StoryBeats, StoredProgress(progress), old(shownIds));
              if pending != [] then storyQueue == pending && currentStoryIndex == 0
              else storyQueue == old(storyQueue) && currentStoryIndex == old(currentStoryIndex)
      ensures shownIds == old(shownIds) && popupQueue == old(popupQueue)
      ensures currentPopupIndex == old(currentPopupIndex)
      ensures selectedArena == old(selectedArena) && showModal == old(showModal)
    {
      var pending := PendingBeats(StoryBeats, StoredProgress(progress), shownIds);
      if |pending| > 0 {
        storyQueue := pending;
        currentStoryIndex := 0;
      }
    }

    /** The story dialogue's `onAdvance`: record the current beat, then step to
        the next one or close the queue after the last. */
    method AdvanceStory()
      requires Valid()
      modifies this
      ensures Valid()
      ensures old(storyQueue) == [] ==> storyQueue == [] && shownIds == old(shownIds)
                                         && currentStoryIndex == old(currentStoryIndex)
      ensures old(storyQueue) != [] ==>
                shownIds == Remember(old(shownIds), old(storyQueue)[old(currentStoryIndex)].id)
      ensures old(storyQueue) != [] && old(currentStoryIndex) < |old(storyQueue)| - 1 ==>
                storyQueue == old(storyQueue) && currentStoryIndex == old(currentStoryIndex) + 1
      ensures old(storyQueue) != [] && old(currentStoryIndex) == |old(storyQueue)| - 1 ==>
                storyQueue == [] && currentStoryIndex == old(currentStoryIndex)
      ensures popupQueue == old(popupQueue) && currentPopupIndex == old(currentPopupIndex)
      ensures selectedArena == old(selectedArena) && showModal == old(showModal)
    {
      if storyQueue == [] {
        return;
      }
      var current := storyQueue[currentStoryIndex];
      shownIds := Remember(shownIds, current.id);
      if currentStoryIndex < |storyQueue| - 1 {
        currentStoryIndex := currentStoryIndex + 1;
      } else {
        storyQueue := [];
      }
    }

    /** `handleArenaClick`: start the game's pop-up sequence and open its modal. */
    method ArenaClick(gameNum: int)
      requires Valid()
      modifies this
      ensures Valid()
      ensures PopupImages(gameNum) != [] ==> popupQueue == PopupImages(gameNum) && currentPopupIndex == 0
      ensures PopupImages(gameNum) == [] ==> popupQueue == old(popupQueue)
                                              && currentPopupIndex == old(currentPopupIndex)
      ensures selectedArena == Some(gameNum) && showModal
      ensures storyQueue == old(storyQueue) && currentStoryIndex == old(currentStoryIndex)
      ensures shownIds == old(shownIds)
    {
      var queue := PopupImages(gameNum);
      if |queue| > 0 {
        popupQueue := queue;
        currentPopupIndex := 0;
      }
      selectedArena := Some(gameNum);
      showModal := true;
    }

    /** The pop-up's `onFinish`: step to the next image or close the queue. */
    method FinishPopup()
      requires Valid()
      modifies this
      ensures Valid()
      ensures old(popupQueue) == [] ==> popupQueue == [] && currentPopupIndex == old(currentPopupIndex)
      ensures old(popupQueue) != [] && old(currentPopupIndex) < |old(popupQueue)| - 1 ==>
                popupQueue == old(popupQueue) && currentPopupIndex == old(currentPopupIndex) + 1
      ensures old(popupQueue) != [] && old(currentPopupIndex) == |old(popupQueue)| - 1 ==>
                popupQueue == [] && currentPopupIndex == old(currentPopupIndex)
      ensures storyQueue == old(storyQueue) && currentStoryIndex == old(currentStoryIndex)
      ensures shownIds == old(shownIds) && selectedArena == old(selectedArena) && showModal == old(showModal)
    {
      if popupQueue == [] {
        return;
      }
      if currentPopupIndex < |popupQueue| - 1 {
        currentPopupIndex := currentPopupIndex + 1;
      } else {
        popupQueue := [];
      }
    }
  }

  // ---------------------------------------------------------------- learning module

  /** The index of the correct option of each quiz question, per module. */
  const QuizAnswerKeys: map<int, seq<nat>> := map[
    1 := [1, 2, 1, 1],
    2 := [1, 1, 2, 1],
    3 := [0, 2, 1, 2],
    4 := [1, 2, 1, 2],
    5 := [2, 3, 1, 0]
  ]

  /** How many of the first `n` questions have the selected answer equal to the key. */
  function CountCorrect(key: seq<nat>, answers: map<nat, nat>, n: nat): (c: nat)
    requires n <= |key|
    ensures c <= n
  {
    if n == 0 then 0
    else CountCorrect(key, answers, n - 1)
         + (if n - 1 in answers && answers[n - 1] == key[n - 1] then 1 else 0)
  }

  /** The percentage `calculateScore` stores. */
  function QuizPercentage(correct: nat, total: nat): (pct: real)
    requires 0 < total && correct <= total
    ensures 0.0 <= pct <= 100.0
    ensures pct * (total as real) == 100.0 * (correct as real)
  {
    var pct := (correct as real / total as real) * 100.0;
    assert pct * (total as real) == 100.0 * (correct as real) by {
      assert (correct as real / total as real) * (total as real) == correct as real;
    }
    ScaleDown(total as real, pct, 100.0);
    pct
  }

  /** `isPassed`: the quiz is passed at 75 percent. */
  predicate Passed(score: real)
  {
    score >= 75.0
  }

  /** A percentage `p` of `t` questions with `c` right reaches 75 exactly when
      four times `c` reaches three times `t`. */
  lemma SeventyFivePercent(t: real, p: real, c: real)
    requires t > 0.0 && t * p == 100.0 * c
    ensures p >= 75.0 <==> 4.0 * c >= 3.0 * t
  {
    if 4.0 * c >= 3.0 * t {
      ScaleDown(t, 75.0, p);
    } else {
      ScaleDownStrict(t, p, 75.0);
    }
  }

  /** Passing means at least three quarters of the questions right. */
  lemma PassedIff(correct: nat, total: nat)
    requires 0 < total && correct <= total
    ensures Passed(QuizPercentage(correct, total)) <==> 4 * correct >= 3 * total
  {
    var pct := QuizPercentage(correct, total);
    SeventyFivePercent(total as real, pct, correct as real);
  }

  /** Every module's quiz has four questions, so it is passed with three right answers. */
  lemma ModuleQuizPassMark(gameNum: int, correct: nat)
    requires gameNum in QuizAnswerKeys && correct <= |QuizAnswerKeys[gameNum]|
    ensures |QuizAnswerKeys[gameNum]| == 4
    ensures Passed(QuizPercentage(correct, 4)) <==> correct >= 3
  {
    PassedIff(correct, 4);
  }

  datatype Stage = Scroll | Quiz | Result

  /** The learning module overlay of one game. */
  class LearningModule {
    const key: seq<nat>
    var stage: Stage
    var currentQuestion: nat
    var selectedAnswers: map<nat, nat>
    var score: real
    var showExplanation: bool

    /** Besides the bounds: every question before the current one has an
        answer, and so has the current one once its explanation shows. */
    ghost predicate Valid()
      reads this
    {
      && |key| > 0 && currentQuestion < |key| && 0.0 <= score <= 100.0
      && (forall q: nat :: q < currentQuestion ==> q in selectedAnswers)
      && (showExplanation ==> currentQuestion in selectedAnswers)
    }

    constructor (answerKey: seq<nat>)
      requires |answerKey| > 0
      ensures Valid() && key == answerKey
      ensures stage == Scroll && currentQuestion == 0 && selectedAnswers == map[]
      ensures score == 0.0 && !showExplanation
    {
      key := answerKey;
      stage := Scroll;
      currentQuestion := 0;
      selectedAnswers := map[];
      score := 0.0;
      showExplanation := false;
    }

    /** `handleScrollComplete`. */
    method ScrollComplete()
      requires Valid()
      modifies this
      ensures Valid() && stage == Quiz
      ensures currentQuestion == old(currentQuestion) && selectedAnswers == old(selectedAnswers)
      ensures score == old(score) && showExplanation == old(showExplanation)
    {
      stage := Quiz;
    }

    /** `handleAnswerSelect`: only the chosen question's answer changes. */
    method SelectAnswer(question: nat, answer: nat)
      requires Valid()
      modifies this
      ensures Valid()
      ensures selectedAnswers == old(selectedAnswers)[question := answer]
      ensures forall q :: q != question ==> (q in selectedAnswers <==> q in old(selectedAnswers))
      ensures forall q :: q != question && q in selectedAnswers ==> selectedAnswers[q] == old(selectedAnswers)[q]
      ensures stage == old(stage) && currentQuestion == old(currentQuestion)
      ensures score == old(score) && showExplanation == old(showExplanation)
    {
      selectedAnswers := selectedAnswers[question := answer];
    }

    /** `calculateScore`: count the right answers, store the percentage, show the result. */
    method CalculateScore()
      requires Valid()
      modifies this
      ensures Valid() && stage == Result
      ensures score == QuizPercentage(CountCorrect(key, selectedAnswers, |key|), |key|)
      ensures IsPassed() <==> 4 * CountCorrect(key, selectedAnswers, |key|) >= 3 * |key|
      ensures currentQuestion == old(currentQuestion) && selectedAnswers == old(selectedAnswers)
      ensures showExplanation == old(showExplanation)
    {
      var correct := 0;
      var i := 0;
      while i < |key|
        invariant 0 <= i <= |key|
        invariant correct == CountCorrect(key, selectedAnswers, i)
      {
        if i in selectedAnswers && selectedAnswers[i] == key[i] {
          correct := correct + 1;
        }
        i := i + 1;
      }
      score := QuizPercentage(correct, |key|);
      stage := Result;
      PassedIff(correct, |key|);
    }

    /** A click on one of the current question's options: it records the
        answer and shows the explanation, which disables every option until
        the next question. */
    method AnswerClick(answer: nat)
      requires Valid() && stage == Quiz && !showExplanation
      modifies this
      ensures Valid() && showExplanation
      ensures selectedAnswers == old(selectedAnswers)[currentQuestion := answer]
      ensures stage == old(stage) && currentQuestion == old(currentQuestion) && score == old(score)
    {
      SelectAnswer(currentQuestion, answer);
      showExplanation := true;
    }

    /** `handleNextQuestion`: advance, or score the quiz after the last question. */
    method NextQuestion()
      requires Valid() && showExplanation
      modifies this
      ensures Valid()
      ensures old(currentQuestion) == |key| - 1 ==> forall q: nat :: q < |key| ==> q in selectedAnswers
      ensures old(currentQuestion) < |key| - 1 ==>
                currentQuestion == old(currentQuestion) + 1 && !showExplanation
                && stage == old(stage) && score == old(score)
      ensures old(currentQuestion) == |key| - 1 ==>
                currentQuestion == old(currentQuestion) && stage == Result
                && score == QuizPercentage(CountCorrect(key, selectedAnswers, |key|), |key|)
                && showExplanation == old(showExplanation)
      ensures selectedAnswers == old(selectedAnswers)
    {
      if currentQuestion < |key| - 1 {
        currentQuestion := currentQuestion + 1;
        showExplanation := false;
      } else {
        CalculateScore();
      }
    }

    /** `handleRetakeQuiz`: back to the first question with nothing answered. */
    method RetakeQuiz()
      requires Valid()
      modifies this
      ensures Valid()
      ensures currentQuestion == 0 && selectedAnswers == map[] && score == 0.0
      ensures !showExplanation && stage == Quiz
    {
      currentQuestion := 0;
      selectedAnswers := map[];
      score := 0.0;
      showExplanation := false;
      stage := Quiz;
    }

    /** `isPassed`. */
    predicate IsPassed()
      reads this
      ensures Valid() && IsPassed() ==> 75.0 <= score <= 100.0
    {
      Passed(score)
    }
  }
}
