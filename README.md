# MathGenius Junior quiz: a verified model of its question and answer logic

MathGenius Junior is a single-page practice quiz for children. The page
shows one addition or subtraction question at a time. The child types an
answer into a card and presses Enter or the submit button. A correct answer
raises a streak counter and, after a short delay, moves on to a new question.
A wrong answer resets the streak and clears the box for another try. Every
fifth correct answer in a row asks an external service for an encouragement
message, which is shown in a banner for a few seconds.

This project models the two deterministic parts of that behaviour in Dafny:

- **The question generator** (`Generator`). The random draws are parameters:
  two integers in [0, 19] stand for `floor(random * 20)`, and a boolean stands
  for the `random > 0.5` operator draw. The generator is a pure function. It
  is proved to produce exactly the well-formed questions: operands in
  [1, 20], a subtraction never negative, and an answer equal to the
  expression's value.
- **The answer card and the streak** (`MathCard`, `App`, `Streak`). The card
  is a class whose fields are the typed text, the status flag
  (PLAYING / CORRECT / WRONG) and a count of scheduled moves to the next
  question. Its methods are the source's handlers: submit, key press, typing,
  and the reset on a new question. The page is a class that owns the
  question, the streak and the encouragement requests, and routes the
  card's verdicts to the streak update. Its invariant ties the streak and
  the request log to an independent definition over the history of
  verdicts:
  - the streak is the run of correct verdicts at the end of the history;
  - a request is made each time that run reaches a positive multiple of five.

  The invariant also states that a move to the next question is scheduled
  exactly while the card shows CORRECT, and never twice.
- **Reading the typed text** (`NumberParsing`). JavaScript's
  `parseInt(text, 10)` is modelled as: skip leading ECMAScript white space
  and line terminators, take one optional `+` or `-`, then read the longest
  run of decimal digits. With no digit the result is NaN (`None`). It is
  proved to read back any integer numeral followed by non-digit text, so
  `"12x"` reads 12 and `"1e3"` reads 1.

In three places the code does less than a quiz of this kind would be
expected to do. The model follows the code:

- One would expect the WRONG flag to clear at the next keystroke. In the
  code, typing changes only the text. WRONG lasts until a correct submit or
  the next question (`MathCard.Card.Type`).
- One would expect a version token, so that a stale move-to-next timer
  cannot advance twice. The code has no such token. The model proves
  instead that at most one such timer is ever pending, because the answer
  box is not on screen while the card shows CORRECT (`App.Quiz.Valid`).
- One would expect a late encouragement reply to be discarded. The code
  shows whatever reply arrives (`App.Quiz.EncouragementArrives`).

## Model

| member | source | states |
|---|---|---|
| `Generator.Operand` | App.tsx:9-10 | a draw in [0, 19] becomes an operand in [1, 20] |
| `Generator.Generate` | App.tsx:8-29 | the question is well formed (operands in [1, 20], subtraction has `num1 >= num2`, answer is `num1 op num2` on the final operands); the operator is `+` exactly when the addition draw is true; the operands are the two draws, possibly swapped (equal multisets) |
| `Generator.GenerateKeepsOrderUnlessSwapNeeded` | App.tsx:14-28 | the operands are swapped exactly when the operator is `-` and the first draw is the smaller one |
| `Generator.GenerateReachesEveryWellFormed` | App.tsx:8-29 | every well-formed question comes from some draws, so the generator's range is exactly the well-formed questions |
| `Generator.GeneratedAnswerBounds` | App.tsx:14-28 | every generated answer lies in [0, 40], never negative |
| `Generator.SubtractionSwapExample` | App.tsx:14-20 | draws 3 and 8 (operands 4 and 9) with subtraction give `9 - 4 = 5` |
| `NumberParsing.ParseInt` | components/MathCard.tsx:30-31 | the result is NaN exactly when no digit follows the leading white space and an optional sign |
| `NumberParsing.DigitPrefixIsLongestRun` | components/MathCard.tsx:30 | the digits `parseInt` reads form a prefix of the text and stop at its first non-digit |
| `NumberParsing.ParseIntOfNumeral` | components/MathCard.tsx:30-31 | `parseInt` of an integer's numeral followed by any text not starting with a digit returns that integer |
| `NumberParsing.ParseIntSkipsWhiteSpace` | components/MathCard.tsx:30 | leading white space does not change the number read |
| `NumberParsing.ParseSignedOfPlusDigits` | components/MathCard.tsx:30 | after a `+` sign, the digits that follow are read as a non-negative number |
| `NumberParsing.ParseIntNaNExamples` | components/MathCard.tsx:30-31 | `""`, `"abc"` and `"-"` are NaN |
| `NumberParsing.ParseIntExamples` | components/MathCard.tsx:30-31 | `"12x"` reads 12 and `"1e3"` reads 1 |
| `NumberParsing.ParseIntSignExamples` | components/MathCard.tsx:30-31 | `"  -7"` reads -7 and `"+8"` reads 8 |
| `MathCard.Evaluate` | components/MathCard.tsx:28-33 | submit emits no verdict exactly when the text has no leading integer (the empty text included); the verdict is `true` exactly when the number read equals the answer |
| `MathCard.EvaluateNumeral` | components/MathCard.tsx:30-33 | typing a numeral (then any non-digit text) is judged correct exactly when its number equals the answer |
| `MathCard.EvaluateDependsOnlyOnNumber` | components/MathCard.tsx:30-33 | two texts that read as the same number get the same verdict, so resubmitting the same text repeats the verdict |
| `MathCard.EvaluateExamples` | components/MathCard.tsx:28-45 | against answer 8, `"8"` is correct, `"7"` is wrong, `"8 apples"` is correct, `""` and `"abc"` emit nothing |
| `MathCard.Card.constructor` | components/MathCard.tsx:14-15 | a new card has empty text, status PLAYING and nothing scheduled |
| `MathCard.Card.InputShown` | components/MathCard.tsx:84-90 | the definition of the rendering gate: the answer box and the button are on screen exactly while the status is PLAYING or WRONG; its consequence, that no verdict is emitted while the card shows CORRECT, is stated by `App.Quiz.PressKey`, `App.Quiz.ClickSubmit` and `App.Quiz.TypeText` |
| `MathCard.Card.NewQuestion` | components/MathCard.tsx:18-24 | a new question clears the text and sets PLAYING whatever the prior state; scheduled timers are untouched |
| `MathCard.Card.Type` | components/MathCard.tsx:96 | editing replaces the text and changes nothing else, so WRONG persists |
| `MathCard.Card.Submit` | components/MathCard.tsx:26-48 | the verdict is `Evaluate(answer, text)`; no verdict leaves the whole card unchanged; a correct one sets CORRECT, keeps the text and schedules exactly one more advance; a wrong one sets WRONG, clears the text and schedules nothing |
| `MathCard.Card.KeyDown` | components/MathCard.tsx:50-54 | Enter acts exactly as submit; any other key emits nothing and changes nothing |
| `MathCard.Card.TakeAdvance` | components/MathCard.tsx:37-40 | a scheduled advance runs once and is no longer pending |
| `Streak.TrailingCorrect` | App.tsx:44-56 | the streak as a function of the verdict history: all of its last `n` verdicts are correct and the one before them is not |
| `Streak.Milestones` | App.tsx:45-53 | every requested encouragement is for a positive multiple of five, and there are no more requests than verdicts |
| `Streak.StreakStep` | App.tsx:45-56 | a correct verdict makes the streak the old streak plus one; a wrong one makes it zero |
| `Streak.MilestonesStep` | App.tsx:45-53 | one more verdict adds a request exactly when it is correct and the new streak is a positive multiple of five; a wrong verdict never adds one |
| `Streak.StreakOfRun` | App.tsx:45-56 | `n` correct answers in a row from a zero streak leave a streak of `n` |
| `Streak.MilestonesOfRun` | App.tsx:45-53 | `n` correct answers in a row from a zero streak request encouragements at exactly 5, 10, ..., up to `n` |
| `Streak.FiveInARowExample` | App.tsx:49-53 | five correct answers from the start give exactly one request, at 5; none at 1 to 4 or at 6 |
| `App.Quiz.constructor` | App.tsx:32-42 | the page starts with a generated question, streak 0, no requests, no banner, no pending reply or clearing timer, and a card in PLAYING with empty text |
| `App.Quiz.HandleAnswer` | App.tsx:44-57 | correct: streak becomes old plus one; wrong: streak becomes 0; so the streak stays `>= 0`; an encouragement request and a banner-clearing timer are added exactly when the answer is correct and the new streak is a positive multiple of five |
| `App.Quiz.Report` | components/MathCard.tsx:33-44 | the card's verdict, when there is one, is the one passed to the streak update; no verdict changes nothing on the page; the banner text is untouched, and a reply and a clearing timer are scheduled exactly when the verdict is correct and the new streak is a positive multiple of five |
| `App.Quiz.PressKey` | components/MathCard.tsx:84-97 | while the card shows CORRECT, or for a key other than Enter, nothing happens; otherwise the card submits and the streak follows the verdict; when no verdict is emitted the page is unchanged, and a verdict is appended to the history, so the streak and the encouragement requests follow it; the banner text is untouched, and one reply and one clearing timer are scheduled exactly when the verdict is correct and the new streak is a positive multiple of five; the session invariant holds after, so at most one advance is ever pending |
| `App.Quiz.ClickSubmit` | components/MathCard.tsx:112-118 | the button does nothing while the card shows CORRECT or the text is empty; otherwise it submits like Enter; when no verdict is emitted the page is unchanged, and a verdict is appended to the history; the banner text is untouched, and one reply and one clearing timer are scheduled exactly at a milestone |
| `App.Quiz.TypeText` | components/MathCard.tsx:96 | typing edits the text only while the answer box is on screen |
| `App.Quiz.AdvanceTimerFires` | App.tsx:36-38 | the pending advance runs, the question becomes a freshly generated one, and the card is back in PLAYING with empty text and nothing pending; the streak is kept |
| `App.Quiz.EncouragementArrives` | App.tsx:51 | a reply to a pending request becomes the banner text, without any check that it is still current |
| `App.Quiz.EncouragementTimerFires` | App.tsx:52 | a pending clearing timer hides the banner |

## Left out

- Randomness: `Math.random` and its floating-point scaling are not modelled. Each draw is a parameter with its stated range (`[0, 19]` for an operand, a boolean for the operator).
- Time: the 1500 ms advance delay, the 4000 ms banner delay and the 100 ms focus delay are not modelled. Each scheduled callback is a pending counter, and its firing is a separate event.
- Rendering, styling, the focus calls, `preventDefault`, and the streak shown on the card are not modelled. The only part of rendering kept is which controls exist: the answer box and button are absent while the status is CORRECT, and the button is disabled while the text is empty.
- React semantics: each handler runs as one atomic step. State batching and re-render order are not modelled. The reset on a new question is applied together with the question change.
- NumberParsing.ParseInt: JavaScript's `parseInt` returns a double, so a numeral beyond 2^53 is rounded. The model reads it exactly. This cannot change a verdict for a generated question, whose answer is at most 40.
- The answer box is an `<input type="number">`, and browsers may sanitise its value. The model treats the value as arbitrary text.
- The external text-generation service (services/geminiService.ts) and the explanation panel (components/AITutor.tsx) are not part of this model: they are network calls to a third-party client. An encouragement reply is modelled as an arbitrary string that arrives later. The prompts and the fixed fallback strings are not modelled.
- components/Button.tsx is not part of this model: it only assembles style classes.
