/** The question generator: two operand draws and an operator draw, with
    the operands swapped for a subtraction whose first operand is smaller. */
module Generator {
  import opened Types

  /** Largest operand a question can show. */
  const MaxOperand := 20

  /** The invariant every question in play satisfies: operands in [1, 20], a
      subtraction never has a smaller first operand, and the answer is the
      value of the expression shown. */
  predicate WellFormed(q: Question)
  {
    && 1 <= q.num1 <= MaxOperand
    && 1 <= q.num2 <= MaxOperand
    && (q.op == Minus ==> q.num1 >= q.num2)
    && q.answer == Apply(q.op, q.num1, q.num2)
  }

  /** One operand draw: `draw` stands for `floor(random * 20)`, an integer in
      [0, 19]; the operand shown is one more. */
  function Operand(draw: int): (n: int)
    requires 0 <= draw < MaxOperand
    ensures 1 <= n <= MaxOperand
  {
    draw + 1
  }

  /** The generator with its random draws as parameters. */
  function Generate(draw1: int, draw2: int, isAddition: bool): (q: Question)
    requires 0 <= draw1 < MaxOperand && 0 <= draw2 < MaxOperand
    ensures WellFormed(q)
    ensures q.op == (if isAddition then Plus else Minus)
    ensures multiset{q.num1, q.num2} == multiset{Operand(draw1), Operand(draw2)}
    ensures q.op == Minus ==> q.answer >= 0
  {
    var num1 := Operand(draw1);
    var num2 := Operand(draw2);
    if !isAddition && num1 < num2 then
      Question(num2, num1, Minus, num2 - num1)
    else
      Question(num1, num2, if isAddition then Plus else Minus,
               if isAddition then num1 + num2 else num1 - num2)
  }

  /** The operands are kept in draw order except for a subtraction whose
      first draw is the smaller one, and that case swaps them. */
  lemma GenerateKeepsOrderUnlessSwapNeeded(draw1: int, draw2: int, isAddition: bool)
    requires 0 <= draw1 < MaxOperand && 0 <= draw2 < MaxOperand
    ensures var q := Generate(draw1, draw2, isAddition);
            if !isAddition && draw1 < draw2
            then q.num1 == Operand(draw2) && q.num2 == Operand(draw1)
            else q.num1 == Operand(draw1) && q.num2 == Operand(draw2)
  {
  }

  /** The generator reaches every well-formed question: its range is exactly
      the set of questions satisfying the invariant. */
  lemma GenerateReachesEveryWellFormed(q: Question)
    requires WellFormed(q)
    ensures exists d1, d2, add :: 0 <= d1 < MaxOperand && 0 <= d2 < MaxOperand
                                  && Generate(d1, d2, add) == q
  {
    var d1, d2, add := q.num1 - 1, q.num2 - 1, q.op == Plus;
    assert Generate(d1, d2, add) == q;
  }

  /** Every generated answer lies in [0, 40]. */
  lemma GeneratedAnswerBounds(draw1: int, draw2: int, isAddition: bool)
    requires 0 <= draw1 < MaxOperand && 0 <= draw2 < MaxOperand
    ensures 0 <= Generate(draw1, draw2, isAddition).answer <= 2 * MaxOperand
  {
  }

  /** Draws 3 and 8 (operands 4 and 9) with subtraction give 9 - 4 = 5. */
  lemma SubtractionSwapExample()
    ensures Generate(3, 8, false) == Question(9, 4, Minus, 5)
  {
  }
}
