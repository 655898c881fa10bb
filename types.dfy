/** The records shared by the quiz: a question, the card's status flag, and an
    optional value for results that may be absent (NaN, no verdict emitted). */
module Types {

  datatype Option<T> = None | Some(value: T)

  /** The two operators a question can carry. */
  datatype Operator = Plus | Minus

  /** One arithmetic problem with its precomputed answer. */
  datatype Question = Question(num1: int, num2: int, op: Operator, answer: int)

  /** The card's visual and semantic flag for the current round. */
  datatype GameStatus = Playing | Correct | Wrong

  /** What `num1 op num2` evaluates to. */
  function Apply(op: Operator, a: int, b: int): int
  {
    match op
    case Plus => a + b
    case Minus => a - b
  }
}
