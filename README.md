# Calculator state machine

A model of the four-function calculator screen in `app/index.js`. The screen
keeps three text fields:

- `currentNumber`: the entry on display, `"0"` at mount;
- `lastNumber`: the left operand captured by the last operator press, `""` at mount;
- `operator`: the pending operator, `""` at mount.

Four handlers update them: digit entry, operator press, equals and clear. The
keypad wires the ten digit buttons, the four operator buttons, `=` and `C` to
these handlers.

`state.dfy` (module `Calculator`) holds the state as a value (`State`), each
handler as a transition function on it, the keypad (`Key`, `IsButton`, `Step`,
`Run` for a sequence of presses), the invariant `Inv`, and the class `Screen`.
`Screen` has the three fields and one method per handler. Each method updates
the fields in place, reading the state as it was before the press, and its
`ensures` ties the new fields to the transition function. `properties.dfy`
(module `CalculatorProperties`) proves what the handlers promise, alone and
over any sequence of presses.

The floating-point part of equals is an `Evaluator`: a function-typed
parameter `(operator, lastNumber, currentNumber) -> text`. It parses both
operands, applies the operator and renders the result. The only fact the
model assumes about it is that the rendered text is never empty, which holds
for JavaScript's `Number.prototype.toString`.

Two behaviours of the code are easy to misread:

- The entry is not always a decimal numeral. Equals puts the rendered result
  on display, and later digits are appended to that text. With a result
  `"0.5"`, typing `1` gives `"0.51"`. With `"Infinity"`, typing `7` gives
  `"Infinity7"`. The model proves the numeral shape only until an equals finds
  an operator pending (`CanonicalSinceLastClear`); an equals with nothing
  pending changes nothing. It shows how the shape breaks after an evaluation
  (`DigitAfterEqualExtendsResultText`).
- A fresh entry is not the plain concatenation of the typed digits. A lone
  `"0"` is replaced, so typed leading zeros never show. `TypingDigits` states
  the exact result.

## Model

| member | source | states |
|---|---|---|
| `Calculator.Inv` | app/index.js:7-9 | the shape of every reachable state: the display is non-empty, the operator is "" or one of + - * /, and an operand is stored exactly when an operator is pending |
| `Calculator.NumberPress` | app/index.js:13-19 | digit entry as a transition: a lone "0" on display is replaced by the digit, any other entry is extended by it, operand and operator are kept |
| `Calculator.OperatorPress` | app/index.js:21-25 | operator press as a transition: "0" on display, the previous entry stored as operand, the new operator pending |
| `Calculator.Equal` | app/index.js:27-52 | equals as a transition: with one of + - * / pending, the evaluated text on display and operand and operator emptied; otherwise the state is returned as it was |
| `Calculator.Clear` | app/index.js:54-58 | clear as a transition: the state at mount, whatever the state before |
| `Calculator.IsButton` | app/index.js:164-185 | the keys the keypad can send: the digits 0-9, the operators + - * /, equals and clear |
| `Calculator.Step` | app/index.js:164-185 | one button press: each key runs the handler it is wired to |
| `Calculator.Run` | app/index.js:164-185 | a sequence of button presses, applied in order from a starting state |
| `Calculator.Screen.constructor` | app/index.js:7-9 | the screen mounts showing "0" with no stored operand and no operator, and satisfies the invariant |
| `Calculator.Screen.HandleNumberPress` | app/index.js:13-19 | a lone "0" on display is replaced by the digit, any other entry gets the digit appended; operand and operator unchanged; invariant kept |
| `Calculator.Screen.HandleOperatorPress` | app/index.js:21-25 | the operator becomes pending, the displayed entry becomes the stored operand, the display resets to "0"; invariant kept |
| `Calculator.Screen.HandleEqual` | app/index.js:27-52 | with one of + - * / pending, the display shows the rendered result of the operator on the two operands and operator and operand are cleared; otherwise no field changes; invariant kept |
| `Calculator.Screen.HandleClear` | app/index.js:54-58 | from any state, the fields return to "0", "", "" and the invariant holds |
| `Calculator.Screen.Press` | app/index.js:164-185 | a keypad button press runs the handler it is wired to, and keeps the invariant |
| `CalculatorProperties.StripLeadingZeros` | app/index.js:13-19 | the result is the suffix of the digits left after a run of '0's, and does not itself start with '0' |
| `CalculatorProperties.Displayed` | app/index.js:13-19 | what typing shows is never empty and, for digit input, is a decimal numeral with no leading zero unless it is "0" |
| `CalculatorProperties.ZeroOnZeroIsNoOp` | app/index.js:14-15 | pressing '0' while "0" is displayed leaves the whole state unchanged |
| `CalculatorProperties.StripAppend` | app/index.js:13-19 | stripping leading zeros after appending a digit is stripping first and then appending, except that a first non-zero digit starts the stripped text |
| `CalculatorProperties.DisplayedLast` | app/index.js:13-19 | pressing the last digit of a string on the display of the rest of it shows the display of the whole string |
| `CalculatorProperties.TypingDigits` | app/index.js:13-19 | typing any digit string on a display showing "0" shows that string without its leading zeros ("0" if nothing else is left), and nothing else changes |
| `CalculatorProperties.TypingAfterClear` | app/index.js:54-58 | from any state, clear then any digit string leaves that string without leading zeros on display, with no operand and no operator |
| `CalculatorProperties.RunAppend` | app/index.js:164-185 | pressing one sequence of buttons and then another is the same as pressing their concatenation |
| `CalculatorProperties.DoubleOperatorLosesOperand` | app/index.js:21-25 | two operator presses in a row leave "0" as the stored operand and only the second operator pending; the first operand is lost |
| `CalculatorProperties.EqualActsIffOperandStored` | app/index.js:27-52 | in any state satisfying the invariant, equals is a no-op exactly when no operand is stored, and otherwise ends with no operand and no operator |
| `CalculatorProperties.ClearIdempotent` | app/index.js:54-58 | clearing twice is the same as clearing once |
| `CalculatorProperties.ClearForgetsHistory` | app/index.js:54-58 | whatever was pressed before, a clear brings the screen back to its state at mount |
| `CalculatorProperties.StepPreservesInv` | app/index.js:7-58 | every button press keeps the invariant: non-empty display, operator empty or one of + - * /, operand stored exactly when an operator is pending |
| `CalculatorProperties.RunPreservesInv` | app/index.js:164-185 | any sequence of button presses from a state satisfying the invariant ends in one satisfying it |
| `CalculatorProperties.ReachableStatesAreValid` | app/index.js:7-9 | every state the keypad can reach from mount satisfies the invariant |
| `CalculatorProperties.StepKeepsCanonical` | app/index.js:13-58 | digit, operator and clear presses, and an equals that finds no operator pending, keep a decimal numeral without leading zeros on display |
| `CalculatorProperties.RunWithoutEvaluationKeepsCanonical` | app/index.js:13-58 | any sequence of presses in which every equals finds no operator pending keeps a numeral without leading zeros on display |
| `CalculatorProperties.CanonicalSinceLastClear` | app/index.js:54-58 | after the last clear, as long as no equals has found an operator pending, the display is a decimal numeral without leading zeros, whatever came before the clear |
| `CalculatorProperties.IdleEqualKeepsEntry` | app/index.js:45-46 | clear, 5, =, 3 shows "53": an equals with nothing pending leaves the entry to be extended |
| `CalculatorProperties.DigitAfterEqualExtendsResultText` | app/index.js:49 | after 1 / 2 = with a result rendered as "0.5", pressing 1 shows "0.51", which is not a decimal numeral: the numeral shape does not survive equals |
| `CalculatorProperties.AdditionScenario` | app/index.js:27-51 | pressing 1, 2, +, 3, = with "15" as the rendered sum of "12" and "3" ends showing "15" with no operand and no operator |

## Left out

- Floating-point evaluation and formatting (`parseFloat`, the four operations on numbers, `toString`, Infinity and NaN on division by zero): replaced by the `Evaluator` parameter, assumed only to render non-empty text.
- React machinery: `useState` setter batching and re-rendering are not modelled; each handler is one atomic transition that reads the state as it was before the press.
- The `CalculatorButton` component, the JSX layout and the display rendering: presentation only. The wiring of buttons to handlers is modelled by `Step` and `Screen.Press`.
- The exit dialog `handleExit`: it calls the platform's alert API and its only action is a console message.
- The dark-mode and settings-panel toggles: one-line boolean flips used only for presentation.
- The style sheet: presentation data.
- Calculator.Screen.HandleNumberPress: takes one character, where the source takes a string; every caller passes a one-character digit string.
- Calculator.Screen.HandleOperatorPress: requires one of + - * /, where the source stores any string; the four operator buttons are its only callers, and the invariant needs it.
