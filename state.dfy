/** The calculator screen's state machine: three text fields and the four
    handlers that update them, plus the button wiring that drives them. */
module Calculator {

  /** The text a numeric result renders to. JavaScript's Number.prototype.toString
      never yields the empty string ("0.5", "15", "Infinity", "NaN", ...). */
  type NonEmptyText = s: string | s != "" witness "0"

  /** Parses both operands as floating-point numbers, applies the operator and
      renders the result as text. Floating point is not modelled, so the handler
      for equals receives this as a parameter: (operator, lastNumber, currentNumber). */
  type Evaluator = (string, string, string) -> NonEmptyText

  predicate IsDigit(c: char) {
    '0' <= c <= '9'
  }

  /** The four operators handled by the equals switch. */
  predicate IsOperator(op: string) {
    op == "+" || op == "-" || op == "*" || op == "/"
  }

  /** The three fields of the screen: the entry on display, the left operand
      captured by the last operator press, and the pending operator. */
  datatype State = State(currentNumber: string, lastNumber: string, operator: string)

  /** The state at mount, and after clear. */
  const Initial: State := State("0", "", "")

  /** The shape every reachable state has: something is on display, the operator
      is empty or one of the four, and an operand is stored exactly when an
      operator is pending. */
  predicate Inv(s: State) {
    && s.currentNumber != ""
    && (s.operator == "" || IsOperator(s.operator))
    && (s.operator == "" <==> s.lastNumber == "")
  }

  // The four handlers as transitions on a State. Each reads the state as it was
  // before the press and never reads back what it sets.

  /** Digit entry: a lone "0" on display is replaced, anything else is extended. */
  function NumberPress(s: State, number: char): State {
    if s.currentNumber == "0" then s.(currentNumber := [number])
    else s.(currentNumber := s.currentNumber + [number])
  }

  /** Operator press: the displayed entry becomes the left operand. */
  function OperatorPress(s: State, op: string): State {
    State("0", s.currentNumber, op)
  }

  /** Equals: without one of the four operators pending, nothing happens. */
  function Equal(s: State, eval: Evaluator): State {
    if IsOperator(s.operator) then State(eval(s.operator, s.lastNumber, s.currentNumber), "", "")
    else s
  }

  /** Clear: back to the state at mount, whatever the state was. */
  function Clear(s: State): State {
    Initial
  }

  /** The buttons of the keypad. */
  datatype Key = NumberKey(number: char) | OperatorKey(op: string) | EqualKey | ClearKey

  /** What the keypad can send: the ten digits, the four operators, "=" and "C". */
  predicate IsButton(k: Key) {
    match k
    case NumberKey(d) => IsDigit(d)
    case OperatorKey(op) => IsOperator(op)
    case EqualKey => true
    case ClearKey => true
  }

  /** The handler each button is wired to. */
  function Step(s: State, k: Key, eval: Evaluator): State {
    match k
    case NumberKey(d) => NumberPress(s, d)
    case OperatorKey(op) => OperatorPress(s, op)
    case EqualKey => Equal(s, eval)
    case ClearKey => Clear(s)
  }

  /** The state after pressing `keys` in order, starting from `s`. */
  function Run(s: State, keys: seq<Key>, eval: Evaluator): State
    decreases |keys|
  {
    if keys == [] then s
    else Step(Run(s, keys[..|keys| - 1], eval), keys[|keys| - 1], eval)
  }

  /** The screen component, whose fields the handlers set in place. */
  class Screen {
    var currentNumber: string
    var lastNumber: string
    var operator: string

    function Model(): State
      reads this
    {
      State(currentNumber, lastNumber, operator)
    }

    ghost predicate Valid()
      reads this
    {
      Inv(Model())
    }

    constructor ()
      ensures Valid()
      ensures currentNumber == "0" && lastNumber == "" && operator == ""
      ensures Model() == Initial
    {
      currentNumber := "0";
      lastNumber := "";
      operator := "";
    }

    method HandleNumberPress(number: char)
      requires Valid()
      modifies this
      ensures Valid()
      ensures currentNumber == if old(currentNumber) == "0" then [number] else old(currentNumber) + [number]
      ensures lastNumber == old(lastNumber) && operator == old(operator)
      ensures Model() == NumberPress(old(Model()), number)
    {
      if currentNumber == "0" {
        currentNumber := [number];
      } else {
        currentNumber := currentNumber + [number];
      }
    }

    method HandleOperatorPress(op: string)
      requires Valid()
      requires IsOperator(op)
      modifies this
      ensures Valid()
      ensures operator == op && lastNumber == old(currentNumber) && currentNumber == "0"
      ensures Model() == OperatorPress(old(Model()), op)
    {
      operator, lastNumber, currentNumber := op, currentNumber, "0";
    }

    method HandleEqual(eval: Evaluator)
      requires Valid()
      modifies this
      ensures Valid()
      ensures IsOperator(old(operator)) ==>
                && currentNumber == eval(old(operator), old(lastNumber), old(currentNumber))
                && operator == "" && lastNumber == ""
      ensures !IsOperator(old(operator)) ==> unchanged(this)
      ensures Model() == Equal(old(Model()), eval)
    {
      if operator != "+" && operator != "-" && operator != "*" && operator != "/" {
        return;
      }
      var result := eval(operator, lastNumber, currentNumber);
      currentNumber, operator, lastNumber := result, "", "";
    }

    method HandleClear()
      modifies this
      ensures Valid()
      ensures currentNumber == "0" && lastNumber == "" && operator == ""
      ensures Model() == Clear(old(Model()))
    {
      currentNumber, lastNumber, operator := "0", "", "";
    }

    /** A tap on a keypad button, dispatched to the handler it is wired to. */
    method Press(k: Key, eval: Evaluator)
      requires Valid()
      requires IsButton(k)
      modifies this
      ensures Valid()
      ensures Model() == Step(old(Model()), k, eval)
    {
      match k
      case NumberKey(d) => HandleNumberPress(d);
      case OperatorKey(op) => HandleOperatorPress(op);
      case EqualKey => HandleEqual(eval);
      case ClearKey => HandleClear();
    }
  }
}
