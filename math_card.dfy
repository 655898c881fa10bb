/** The answer card: its typed input, its status flag, and the one-shot
    timers it schedules to move on to the next question. */
module MathCard {
  import opened Types
  import opened NumberParsing

  /** The verdict a submit of `input` emits against a question whose answer
      is `answer`: none when the input is empty or has no leading integer,
      otherwise whether the number read equals the answer. */
  function Evaluate(answer: int, input: string): (verdict: Option<bool>)
    ensures verdict.None? <==> ParseInt(input).None?
    ensures verdict == Some(true) <==> ParseInt(input) == Some(answer)
  {
    if input == "" then None
    else match ParseInt(input)
      case None => None
      case Some(userNum) => Some(userNum == answer)
  }

  /** Typing a numeral, followed by any non-digit text, is judged by that
      number alone: correct exactly when it equals the answer. */
  lemma EvaluateNumeral(answer: int, n: int, rest: string)
    requires rest == [] || !IsDigit(rest[0])
    ensures Evaluate(answer, IntToString(n) + rest) == Some(n == answer)
  {
    ParseIntOfNumeral(n, rest);
  }

  /** The verdict depends on the input only through the number read from it,
      so submitting the same text twice gives the same verdict. */
  lemma EvaluateDependsOnlyOnNumber(answer: int, input1: string, input2: string)
    requires ParseInt(input1) == ParseInt(input2)
    ensures Evaluate(answer, input1) == Evaluate(answer, input2)
  {
  }

  /** Against the answer 8: a right answer, a wrong one, a numeral followed
      by text, and two texts with no leading integer. */
  lemma EvaluateExamples()
    ensures Evaluate(8, "8") == Some(true)
    ensures Evaluate(8, "7") == Some(false)
    ensures Evaluate(8, "8 apples") == Some(true)
    ensures Evaluate(8, "") == None
    ensures Evaluate(8, "abc") == None
  {
    EvaluateNumeral(8, 8, "");
    EvaluateNumeral(8, 7, "");
    EvaluateNumeral(8, 8, " apples");
    assert IntToString(8) == "8" && IntToString(7) == "7";
    assert "8" + " apples" == "8 apples";
  }

  class Card {
    /** The question shown, passed in by the page. */
    var question: Question
    /** The text in the answer box. */
    var inputValue: string
    var status: GameStatus
    /** Scheduled calls to move to the next question that have not run yet. */
    var pendingAdvances: nat

    /** A fresh card shows its question with an empty box. */
    constructor (q: Question)
      ensures question == q && inputValue == "" && status == Playing
      ensures pendingAdvances == 0
    {
      question := q;
      inputValue := "";
      status := Playing;
      pendingAdvances := 0;
    }

    /** The answer box and the submit button are on screen; while the status
        is CORRECT the card shows only the success message. */
    predicate InputShown()
      reads this
      ensures InputShown() <==> status in {Playing, Wrong}
    {
      status != Correct
    }

    /** What one submit does to the card, given the verdict it emits. */
    twostate predicate Submitted(new verdict: Option<bool>)
      reads this
    {
      && question == old(question)
      && verdict == Evaluate(question.answer, old(inputValue))
      && match verdict
         case None =>
           status == old(status) && inputValue == old(inputValue)
           && pendingAdvances == old(pendingAdvances)
         case Some(correct) =>
           if correct then
             status == Correct && inputValue == old(inputValue)
             && pendingAdvances == old(pendingAdvances) + 1
           else
             status == Wrong && inputValue == ""
             && pendingAdvances == old(pendingAdvances)
    }

    /** A new question clears the box and returns to PLAYING, whatever the
        card showed before; timers already scheduled stay scheduled. */
    method NewQuestion(q: Question)
      modifies this
      ensures question == q && inputValue == "" && status == Playing
      ensures pendingAdvances == old(pendingAdvances)
    {
      question := q;
      inputValue := "";
      status := Playing;
    }

    /** Editing the box replaces its text and nothing else: a WRONG flag
        stays until a correct submit or the next question. */
    method Type(text: string)
      modifies this`inputValue
      ensures inputValue == text
    {
      inputValue := text;
    }

    /** Submitting the typed answer. Empty text or text with no leading
        integer changes nothing and emits no verdict. A correct number sets
        CORRECT, keeps the text and schedules one move to the next
        question; a wrong one sets WRONG and clears the text. */
    method Submit() returns (verdict: Option<bool>)
      modifies this`status, this`inputValue, this`pendingAdvances
      ensures Submitted(verdict)
    {
      verdict := None;
      if inputValue == "" {
        return;
      }
      var userNum := ParseInt(inputValue);
      if userNum.None? {
        return;
      }
      if userNum.value == question.answer {
        status := Correct;
        verdict := Some(true);
        pendingAdvances := pendingAdvances + 1;
      } else {
        status := Wrong;
        verdict := Some(false);
        inputValue := "";
      }
    }

    /** A key pressed in the answer box: Enter submits, any other key does
        nothing. */
    method KeyDown(key: string) returns (verdict: Option<bool>)
      modifies this`status, this`inputValue, this`pendingAdvances
      ensures key == "Enter" ==> Submitted(verdict)
      ensures key != "Enter" ==> verdict == None && unchanged(this)
    {
      if key == "Enter" {
        verdict := Submit();
      } else {
        verdict := None;
      }
    }

    /** One scheduled move to the next question runs. */
    method TakeAdvance()
      requires pendingAdvances > 0
      modifies this`pendingAdvances
      ensures pendingAdvances == old(pendingAdvances) - 1
    {
      pendingAdvances := pendingAdvances - 1;
    }
  }
}
