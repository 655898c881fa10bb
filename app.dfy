/** The page: it owns the current question, the streak and the
    encouragement banner, shows the answer card, and reacts to the card's
    verdicts and to its scheduled moves to the next question. */
module App {
  import opened Types
  import opened Generator
  import opened Streak
  import opened MathCard
  import NumberParsing

  class Quiz {
    var question: Question
    var streak: int
    /** The streak values passed to the encouragement service, in order. */
    var encouragementRequests: seq<int>
    /** The banner text; empty when no banner is shown. */
    var encouragement: string
    /** Encouragement replies still to arrive. */
    var pendingMessages: nat
    /** Banner-clearing timers still to fire. */
    var pendingClears: nat
    const card: Card
    /** Every verdict the card has emitted so far, oldest first. */
    ghost var verdicts: seq<bool>

    /** The session invariant: the card shows the page's question, which is
        well formed; the streak and the requests are those the verdict
        history determines; and a move to the next question is scheduled
        exactly while the card shows CORRECT, and never twice. */
    ghost predicate Valid()
      reads this, card
    {
      && card.question == question
      && WellFormed(question)
      && StreakValid()
      && card.pendingAdvances == (if card.status == Correct then 1 else 0)
    }

    ghost predicate StreakValid()
      reads this
    {
      && streak == TrailingCorrect(verdicts)
      && encouragementRequests == Milestones(verdicts)
    }

    /** The page mounts and loads its first question from the draws. */
    constructor (draw1: int, draw2: int, isAddition: bool)
      requires 0 <= draw1 < MaxOperand && 0 <= draw2 < MaxOperand
      ensures Valid() && fresh(card)
      ensures question == Generate(draw1, draw2, isAddition)
      ensures streak == 0 && encouragementRequests == [] && encouragement == ""
      ensures pendingMessages == 0 && pendingClears == 0
      ensures card.inputValue == "" && card.status == Playing
    {
      var q := Generate(draw1, draw2, isAddition);
      question := q;
      streak := 0;
      encouragementRequests := [];
      encouragement := "";
      pendingMessages, pendingClears := 0, 0;
      card := new Card(q);
      verdicts := [];
    }

    /** The card's verdict callback: a correct answer raises the streak by
        one and, at each positive multiple of five, requests an
        encouragement and schedules the banner's clearing; a wrong answer
        resets the streak to zero. */
    method HandleAnswer(isCorrect: bool)
      requires StreakValid()
      modifies this`streak, this`encouragementRequests, this`verdicts,
               this`pendingMessages, this`pendingClears
      ensures StreakValid() && verdicts == old(verdicts) + [isCorrect]
      ensures streak == if isCorrect then old(streak) + 1 else 0
      ensures streak >= 0
      ensures var requested := isCorrect && IsMilestone(streak);
              && encouragementRequests
                 == old(encouragementRequests) + (if requested then [streak] else [])
              && pendingMessages == old(pendingMessages) + (if requested then 1 else 0)
              && pendingClears == old(pendingClears) + (if requested then 1 else 0)
    {
      StreakStep(verdicts, isCorrect);
      MilestonesStep(verdicts, isCorrect);
      verdicts := verdicts + [isCorrect];
      if isCorrect {
        var newStreak := streak + 1;
        streak := newStreak;
        if newStreak > 0 && newStreak % MilestoneEvery == 0 {
          encouragementRequests := encouragementRequests + [newStreak];
          pendingMessages := pendingMessages + 1;
          pendingClears := pendingClears + 1;
        }
      } else {
        streak := 0;
      }
    }

    /** Passes a verdict, if the card emitted one, to the page. */
    method Report(verdict: Option<bool>)
      requires StreakValid()
      modifies this`streak, this`encouragementRequests, this`verdicts,
               this`pendingMessages, this`pendingClears
      ensures StreakValid()
      ensures verdict == None ==> unchanged(this)
      ensures verdict.Some? ==> verdicts == old(verdicts) + [verdict.value]
      ensures encouragement == old(encouragement)
      ensures var requested := verdict == Some(true) && IsMilestone(streak);
              && pendingMessages == old(pendingMessages) + (if requested then 1 else 0)
              && pendingClears == old(pendingClears) + (if requested then 1 else 0)
      ensures verdict.Some? ==> streak == if verdict.value then old(streak) + 1 else 0
    {
      if verdict.Some? {
        HandleAnswer(verdict.value);
      }
    }

    /** A key pressed in the answer box. While the card shows CORRECT there
        is no box, so the key reaches no handler and no verdict is possible
        until the next question. */
    method PressKey(key: string) returns (verdict: Option<bool>)
      requires Valid()
      modifies this, card
      ensures Valid()
      ensures question == old(question)
      ensures !old(card.InputShown()) || key != "Enter" ==> verdict == None
      ensures !old(card.InputShown()) || key != "Enter" ==> unchanged(this, card)
      ensures old(card.InputShown()) && key == "Enter" ==> card.Submitted(verdict)
      ensures verdict.Some? ==> streak == if verdict.value then old(streak) + 1 else 0
      ensures verdict == None ==> unchanged(this)
      ensures verdict.Some? ==> verdicts == old(verdicts) + [verdict.value]
      ensures encouragement == old(encouragement)
      ensures var requested := verdict == Some(true) && IsMilestone(streak);
              && pendingMessages == old(pendingMessages) + (if requested then 1 else 0)
              && pendingClears == old(pendingClears) + (if requested then 1 else 0)
    {
      verdict := None;
      if card.InputShown() {
        verdict := card.KeyDown(key);
        Report(verdict);
      }
    }

    /** The submit button, which is on screen only with the answer box and
        is disabled while the box is empty. */
    method ClickSubmit() returns (verdict: Option<bool>)
      requires Valid()
      modifies this, card
      ensures Valid()
      ensures question == old(question)
      ensures !old(card.InputShown()) || old(card.inputValue) == "" ==> verdict == None
      ensures !old(card.InputShown()) || old(card.inputValue) == "" ==> unchanged(this, card)
      ensures old(card.InputShown()) && old(card.inputValue) != "" ==> card.Submitted(verdict)
      ensures verdict.Some? ==> streak == if verdict.value then old(streak) + 1 else 0
      ensures verdict == None ==> unchanged(this)
      ensures verdict.Some? ==> verdicts == old(verdicts) + [verdict.value]
      ensures encouragement == old(encouragement)
      ensures var requested := verdict == Some(true) && IsMilestone(streak);
              && pendingMessages == old(pendingMessages) + (if requested then 1 else 0)
              && pendingClears == old(pendingClears) + (if requested then 1 else 0)
    {
      verdict := None;
      if card.InputShown() && card.inputValue != "" {
        verdict := card.Submit();
        Report(verdict);
      }
    }

    /** Editing the answer box; with no box on screen nothing is edited. */
    method TypeText(text: string)
      requires Valid()
      modifies card`inputValue
      ensures Valid()
      ensures card.inputValue == if old(card.InputShown()) then text else old(card.inputValue)
    {
      if card.InputShown() {
        card.Type(text);
      }
    }

    /** The scheduled move to the next question runs: a new question is
        generated from the draws, and the card resets to it. */
    method AdvanceTimerFires(draw1: int, draw2: int, isAddition: bool)
      requires Valid() && card.pendingAdvances > 0
      requires 0 <= draw1 < MaxOperand && 0 <= draw2 < MaxOperand
      modifies this`question, card
      ensures Valid()
      ensures question == Generate(draw1, draw2, isAddition)
      ensures card.inputValue == "" && card.status == Playing && card.pendingAdvances == 0
    {
      card.TakeAdvance();
      question := Generate(draw1, draw2, isAddition);
      card.NewQuestion(question);
    }

    /** A requested encouragement arrives and is shown. Nothing checks that
        the streak it was asked for is still current. */
    method EncouragementArrives(message: string)
      requires pendingMessages > 0
      modifies this`encouragement, this`pendingMessages
      ensures encouragement == message && pendingMessages == old(pendingMessages) - 1
    {
      encouragement := message;
      pendingMessages := pendingMessages - 1;
    }

    /** A banner-clearing timer fires and hides whatever banner is shown. */
    method EncouragementTimerFires()
      requires pendingClears > 0
      modifies this`encouragement, this`pendingClears
      ensures encouragement == "" && pendingClears == old(pendingClears) - 1
    {
      encouragement := "";
      pendingClears := pendingClears - 1;
    }
  }

  /** A round played through the page: question 3 + 5 and a wrong answer,
      which clears the box and leaves it on screen for another try. */
  method ScenarioWrongAnswer()
  {
    assert Evaluate(8, "7") == Some(false) by {
      EvaluateNumeral(8, 7, "");
      assert NumberParsing.IntToString(7) + "" == "7";
    }
    var quiz := new Quiz(2, 4, true);
    assert quiz.question.answer == 8;

    quiz.TypeText("7");
    var verdict := quiz.PressKey("Enter");
    assert verdict == Some(false) && quiz.streak == 0;
    assert quiz.card.status == Wrong && quiz.card.inputValue == "";
  }

  /** After a wrong answer the box is still there, and the right answer is
      accepted: the streak becomes one and the advance is scheduled. */
  method ScenarioCorrectAfterWrong(quiz: Quiz)
    requires quiz.Valid() && quiz.question.answer == 8
    requires quiz.card.status == Wrong && quiz.streak == 0
    modifies quiz, quiz.card
  {
    assert Evaluate(8, "8") == Some(true) by {
      EvaluateNumeral(8, 8, "");
      assert NumberParsing.IntToString(8) + "" == "8";
    }
    quiz.TypeText("8");
    var verdict := quiz.PressKey("Enter");
    assert verdict == Some(true) && quiz.streak == 1;
    assert quiz.card.status == Correct && quiz.card.pendingAdvances == 1;
  }

  /** The fifth correct answer in a row, entered with Enter, requests an
      encouragement; its reply then reaches the banner. */
  method ScenarioFifthCorrect(quiz: Quiz)
    requires quiz.Valid() && quiz.question.answer == 8
    requires quiz.card.status == Playing && quiz.streak == 4
    requires quiz.pendingMessages == 0
    modifies quiz, quiz.card
  {
    assert Evaluate(8, "8") == Some(true) by {
      EvaluateNumeral(8, 8, "");
      assert NumberParsing.IntToString(8) + "" == "8";
    }
    quiz.TypeText("8");
    var verdict := quiz.PressKey("Enter");
    assert verdict == Some(true) && quiz.streak == 5;
    assert quiz.pendingMessages == 1;

    quiz.EncouragementArrives("Great job!");
    assert quiz.encouragement == "Great job!";
  }

  /** After a correct answer the card is locked: Enter gives no verdict and
      keeps the streak, until the scheduled advance brings a new question. */
  method ScenarioLockedUntilNextQuestion(quiz: Quiz)
    requires quiz.Valid() && quiz.card.status == Correct
    modifies quiz, quiz.card
  {
    var streak := quiz.streak;
    var verdict := quiz.PressKey("Enter");
    assert verdict == None && quiz.streak == streak;

    quiz.AdvanceTimerFires(3, 8, false);
    assert quiz.question == Question(9, 4, Minus, 5);
    assert quiz.card.status == Playing && quiz.streak == streak;
  }
}
