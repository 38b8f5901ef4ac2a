/** What the calculator's handlers promise, alone and over any sequence of
    button presses. */
module CalculatorProperties {
  import opened Calculator

  // ---------------------------------------------------------------------------
  // Digit entry

  /** The digits of `ds` without their leading zeros. */
  function StripLeadingZeros(ds: string): (r: string)
    ensures |r| <= |ds| && r == ds[|ds| - |r|..]
    ensures r == [] || r[0] != '0'
    ensures forall i :: 0 <= i < |ds| - |r| ==> ds[i] == '0'
  {
    if ds == [] then []
    else if ds[0] == '0' then StripLeadingZeros(ds[1..])
    else ds
  }

  /** A decimal numeral as the keypad alone can produce it: digits only, and no
      leading '0' unless it is "0" itself. */
  predicate IsCanonicalNumeral(t: string) {
    && t != ""
    && (forall i :: 0 <= i < |t| ==> IsDigit(t[i]))
    && (t[0] == '0' ==> t == "0")
  }

  predicate AllDigits(ds: string) {
    forall i :: 0 <= i < |ds| ==> IsDigit(ds[i])
  }

  /** What the display should read after typing `ds` on a display showing "0". */
  function Displayed(ds: string): (r: string)
    ensures r != ""
    ensures r == "0" || (|r| <= |ds| && r == ds[|ds| - |r|..])
    ensures AllDigits(ds) ==> IsCanonicalNumeral(r)
  {
    var t := StripLeadingZeros(ds);
    if t == [] then "0"
    else
      assert forall i :: 0 <= i < |t| ==> t[i] == ds[|ds| - |t| + i];
      t
  }

  /** The key presses for typing `ds`. */
  function Presses(ds: string): seq<Key> {
    seq(|ds|, i requires 0 <= i < |ds| => NumberKey(ds[i]))
  }

  /** A '0' on a display that shows "0" changes nothing. */
  lemma ZeroOnZeroIsNoOp(s: State)
    requires s.currentNumber == "0"
    ensures NumberPress(s, '0') == s
  {
  }

  /** Stripping leading zeros commutes with appending a digit, except that a
      first non-zero digit starts the stripped text. */
  lemma {:induction false} StripAppend(ds: string, d: char)
    ensures StripLeadingZeros(ds + [d]) ==
              if StripLeadingZeros(ds) == [] then (if d == '0' then [] else [d])
              else StripLeadingZeros(ds) + [d]
  {
    if ds != [] {
      assert (ds + [d])[0] == ds[0];
      assert (ds + [d])[1..] == ds[1..] + [d];
      if ds[0] == '0' {
        StripAppend(ds[1..], d);
      }
    }
  }

  /** Typing the last digit of `ds` on the display of the rest of `ds` shows the display of `ds`. */
  lemma DisplayedLast(s: State, ds: string)
    requires ds != []
    ensures NumberPress(s.(currentNumber := Displayed(ds[..|ds| - 1])), ds[|ds| - 1]) == s.(currentNumber := Displayed(ds))
  {
    var prefix, d := ds[..|ds| - 1], ds[|ds| - 1];
    assert prefix + [d] == ds;
    StripAppend(prefix, d);
    var stripped := StripLeadingZeros(prefix);
    if stripped != [] {
      assert stripped[0] != '0';
    }
  }

  /** Typing a digit string is typing all but its last digit, then that digit. */
  lemma RunPressesLast(s: State, ds: string, eval: Evaluator)
    requires ds != []
    ensures Run(s, Presses(ds), eval) == NumberPress(Run(s, Presses(ds[..|ds| - 1]), eval), ds[|ds| - 1])
  {
    var keys := Presses(ds);
    assert keys[..|keys| - 1] == Presses(ds[..|ds| - 1]);
  }

  /** Typing digits on a display that shows "0" (at mount, after clear, after an
      operator press) leaves them on display without their leading zeros, or "0"
      when there are none but zeros, and touches nothing else. */
  lemma {:induction false} TypingDigits(s: State, ds: string, eval: Evaluator)
    requires s.currentNumber == "0"
    ensures Run(s, Presses(ds), eval) == s.(currentNumber := Displayed(ds))
  {
    if ds != [] {
      TypingDigits(s, ds[..|ds| - 1], eval);
      RunPressesLast(s, ds, eval);
      DisplayedLast(s, ds);
    }
  }

  /** Pressing `a` and then `b` is running `b` from where `a` left off. */
  lemma {:induction false} RunAppend(s: State, a: seq<Key>, b: seq<Key>, eval: Evaluator)
    ensures Run(s, a + b, eval) == Run(Run(s, a, eval), b, eval)
    decreases |b|
  {
    if b == [] {
      assert a + b == a;
    } else {
      assert (a + b)[..|a + b| - 1] == a + b[..|b| - 1];
      RunAppend(s, a, b[..|b| - 1], eval);
    }
  }

  /** After a clear, typing digits shows them without their leading zeros. */
  lemma TypingAfterClear(s: State, ds: string, eval: Evaluator)
    ensures Run(s, [ClearKey] + Presses(ds), eval) == Initial.(currentNumber := Displayed(ds))
  {
    RunAppend(s, [ClearKey], Presses(ds), eval);
    assert [ClearKey][..0] == [];
    TypingDigits(Initial, ds, eval);
  }

  // ---------------------------------------------------------------------------
  // Operator press

  /** A second operator press before any digit stores "0" as the left operand:
      the first operand and the first operator are lost. */
  lemma DoubleOperatorLosesOperand(s: State, first: string, second: string)
    ensures OperatorPress(OperatorPress(s, first), second) == State("0", "0", second)
  {
  }

  // ---------------------------------------------------------------------------
  // Equals

  /** In a reachable state, equals does something exactly when an operand is stored. */
  lemma EqualActsIffOperandStored(s: State, eval: Evaluator)
    requires Inv(s)
    ensures s.lastNumber == "" ==> Equal(s, eval) == s
    ensures s.lastNumber != "" ==> Equal(s, eval).operator == "" && Equal(s, eval).lastNumber == ""
  {
  }

  // ---------------------------------------------------------------------------
  // Clear

  lemma ClearIdempotent(s: State)
    ensures Clear(Clear(s)) == Clear(s)
  {
  }

  /** Whatever was pressed before, a clear brings the screen back to its state at mount. */
  lemma ClearForgetsHistory(before: seq<Key>, s: State, eval: Evaluator)
    ensures Run(s, before + [ClearKey], eval) == Initial
  {
    assert (before + [ClearKey])[..|before|] == before;
  }

  // ---------------------------------------------------------------------------
  // The invariant

  lemma StepPreservesInv(s: State, k: Key, eval: Evaluator)
    requires Inv(s)
    requires IsButton(k)
    ensures Inv(Step(s, k, eval))
  {
  }

  /** Any sequence of button presses keeps the invariant. */
  lemma {:induction false} RunPreservesInv(s: State, keys: seq<Key>, eval: Evaluator)
    requires Inv(s)
    requires forall i :: 0 <= i < |keys| ==> IsButton(keys[i])
    ensures Inv(Run(s, keys, eval))
    decreases |keys|
  {
    if keys != [] {
      RunPreservesInv(s, keys[..|keys| - 1], eval);
      StepPreservesInv(Run(s, keys[..|keys| - 1], eval), keys[|keys| - 1], eval);
    }
  }

  /** Every state the keypad can reach from mount has the invariant's shape. */
  lemma ReachableStatesAreValid(keys: seq<Key>, eval: Evaluator)
    requires forall i :: 0 <= i < |keys| ==> IsButton(keys[i])
    ensures Inv(Run(Initial, keys, eval))
  {
    RunPreservesInv(Initial, keys, eval);
  }

  // ---------------------------------------------------------------------------
  // The display until the next equals

  /** Digit, operator and clear presses keep a canonical numeral on display,
      and so does an equals that finds no operator pending. */
  lemma StepKeepsCanonical(s: State, k: Key, eval: Evaluator)
    requires IsCanonicalNumeral(s.currentNumber)
    requires IsButton(k)
    requires k == EqualKey ==> !IsOperator(s.operator)
    ensures IsCanonicalNumeral(Step(s, k, eval).currentNumber)
  {
    if k.NumberKey? && s.currentNumber != "0" {
      var t := s.currentNumber + [k.number];
      assert t[0] == s.currentNumber[0];
      assert forall i :: 0 <= i < |s.currentNumber| ==> t[i] == s.currentNumber[i];
    }
  }

  /** A sequence of presses in which every equals finds no operator pending
      keeps a canonical numeral on display. */
  lemma {:induction false} RunWithoutEvaluationKeepsCanonical(s: State, keys: seq<Key>, eval: Evaluator)
    requires IsCanonicalNumeral(s.currentNumber)
    requires forall i :: 0 <= i < |keys| ==> IsButton(keys[i])
    requires forall i :: 0 <= i < |keys| && keys[i] == EqualKey ==> !IsOperator(Run(s, keys[..i], eval).operator)
    ensures IsCanonicalNumeral(Run(s, keys, eval).currentNumber)
    decreases |keys|
  {
    if keys != [] {
      var prefix := keys[..|keys| - 1];
      assert forall i :: 0 <= i < |prefix| ==> prefix[..i] == keys[..i];
      RunWithoutEvaluationKeepsCanonical(s, prefix, eval);
      StepKeepsCanonical(Run(s, prefix, eval), keys[|keys| - 1], eval);
    }
  }

  /** Since the last clear, as long as no equals has found an operator pending,
      the display shows a decimal numeral without leading zeros, whatever came
      before the clear. */
  lemma CanonicalSinceLastClear(before: seq<Key>, keys: seq<Key>, eval: Evaluator)
    requires forall i :: 0 <= i < |keys| ==> IsButton(keys[i])
    requires forall i :: 0 <= i < |keys| && keys[i] == EqualKey ==> !IsOperator(Run(Initial, keys[..i], eval).operator)
    ensures IsCanonicalNumeral(Run(Initial, before + [ClearKey] + keys, eval).currentNumber)
  {
    RunAppend(Initial, before + [ClearKey], keys, eval);
    ClearForgetsHistory(before, Initial, eval);
    RunWithoutEvaluationKeepsCanonical(Initial, keys, eval);
  }

  /** An equals with nothing pending does not disturb the numeral: clear, 5, =, 3 shows "53". */
  lemma IdleEqualKeepsEntry(eval: Evaluator)
    ensures Run(Initial, [ClearKey, NumberKey('5'), EqualKey, NumberKey('3')], eval) == State("53", "", "")
  {
    var keys := [ClearKey, NumberKey('5'), EqualKey, NumberKey('3')];
    assert keys[..1][..0] == [];
    assert Run(Initial, keys[..1], eval) == Initial;
    assert keys[..2][..1] == keys[..1];
    assert Run(Initial, keys[..2], eval) == State("5", "", "");
    assert keys[..3][..2] == keys[..2];
    assert Run(Initial, keys[..3], eval) == State("5", "", "");
    assert keys[..3] == keys[..|keys| - 1];
  }

  /** After equals the display holds whatever text the result rendered to, and
      a digit is appended to that text: with a result that renders as "0.5",
      typing "1" shows "0.51", which is not a numeral the keypad can type. */
  lemma DigitAfterEqualExtendsResultText(eval: Evaluator)
    requires eval("/", "1", "2") == "0.5"
    ensures Run(Initial, [NumberKey('1'), OperatorKey("/"), NumberKey('2'), EqualKey, NumberKey('1')], eval).currentNumber == "0.51"
    ensures !IsCanonicalNumeral(Run(Initial, [NumberKey('1'), OperatorKey("/"), NumberKey('2'), EqualKey, NumberKey('1')], eval).currentNumber)
  {
    var keys := [NumberKey('1'), OperatorKey("/"), NumberKey('2'), EqualKey, NumberKey('1')];
    assert keys[..1][..0] == [];
    assert Run(Initial, keys[..1], eval) == State("1", "", "");
    assert keys[..2][..1] == keys[..1];
    assert Run(Initial, keys[..2], eval) == State("0", "1", "/");
    assert keys[..3][..2] == keys[..2];
    assert Run(Initial, keys[..3], eval) == State("2", "1", "/");
    assert keys[..4][..3] == keys[..3];
    assert Run(Initial, keys[..4], eval) == State("0.5", "", "");
    assert keys[..4] == keys[..|keys| - 1];
    assert !IsDigit("0.51"[1]);
  }

  /** The worked example: 1, 2, +, 3, = shows the sum of 12 and 3. */
  lemma AdditionScenario(eval: Evaluator)
    requires eval("+", "12", "3") == "15"
    ensures Run(Initial, [NumberKey('1'), NumberKey('2'), OperatorKey("+"), NumberKey('3'), EqualKey], eval) == State("15", "", "")
  {
    var keys := [NumberKey('1'), NumberKey('2'), OperatorKey("+"), NumberKey('3'), EqualKey];
    assert keys[..1][..0] == [];
    assert Run(Initial, keys[..1], eval) == State("1", "", "");
    assert keys[..2][..1] == keys[..1];
    assert Run(Initial, keys[..2], eval) == State("12", "", "");
    assert keys[..3][..2] == keys[..2];
    assert Run(Initial, keys[..3], eval) == State("0", "12", "+");
    assert keys[..4][..3] == keys[..3];
    assert Run(Initial, keys[..4], eval) == State("3", "12", "+");
    assert keys[..4] == keys[..|keys| - 1];
  }
}
