/**
 * Whole key sequences run through the engine, showing the behaviour of the
 * single-accumulator chain on concrete input.
 */
module Scenarios {
  import opened Wrappers
  import opened Numerals
  import opened Arithmetic
  import opened Engine
  import Keyboard

  /**
   * 2 + 3 * 4 Enter shows 20, not 14: "*" first folds the pending 2 + 3, and
   * the history holds the single entry "5 * 4 = 20".
   */
  lemma ChainIsLeftToRight(host: Host)
    ensures var s := Typing(Initial, ["2", "+", "3", "*", "4", "Enter"], host);
      && s.currentInput == host.show(20.0)
      && s.previousInput == None && s.operator == None && s.waitingForOperand
      && s.history == [CalculationEntry(host.show, 5.0, Multiply, 4.0, 20.0)]
  {
    var show := host.show;
    DigitKey(Initial, '2', host);
    var s1 := OnDigit(Initial, "2");
    OperatorKey(s1, Add, host);
    var s2 := OnOperator(s1, Add, show).next;
    assert s2.previousInput == Some(2.0);
    DigitKey(s2, '3', host);
    var s3 := OnDigit(s2, "3");
    assert s3.currentInput == "3";
    OperatorKey(s3, Multiply, host);
    var s4 := OnOperator(s3, Multiply, show).next;
    assert s4.previousInput == Some(5.0);
    DigitKey(s4, '4', host);
    var s5 := OnDigit(s4, "4");
    assert s5.currentInput == "4";
    Keyboard.EqualsKeys("Enter");
    var s6 := OnEquals(s5, show).next;
    assert s6.history == History.Recorded([], CalculationEntry(show, 5.0, Multiply, 4.0, 20.0));
    assert Typing(s6, [], host) == s6;
    assert Typing(Initial, ["2", "+", "3", "*", "4", "Enter"], host) == s6 by {
      var keys := ["2", "+", "3", "*", "4", "Enter"];
      assert keys[1..] == ["+", "3", "*", "4", "Enter"];
      assert keys[1..][1..] == ["3", "*", "4", "Enter"];
      assert keys[1..][1..][1..] == ["*", "4", "Enter"];
      assert keys[1..][1..][1..][1..] == ["4", "Enter"];
      assert keys[1..][1..][1..][1..][1..] == ["Enter"];
      assert keys[1..][1..][1..][1..][1..][1..] == [];
    }
  }

  /** 2 + 3 Enter shows 5, waiting for an operand, with the entry "2 + 3 = 5" in history. */
  lemma SumShown(host: Host)
    ensures var s := Typing(Initial, ["2", "+", "3", "Enter"], host);
      && s.currentInput == host.show(5.0)
      && s.previousInput == None && s.operator == None && s.waitingForOperand
      && s.history == [CalculationEntry(host.show, 2.0, Add, 3.0, 5.0)]
  {
    var show := host.show;
    DigitKey(Initial, '2', host);
    var s1 := OnDigit(Initial, "2");
    OperatorKey(s1, Add, host);
    var s2 := OnOperator(s1, Add, show).next;
    assert s2.previousInput == Some(2.0);
    DigitKey(s2, '3', host);
    var s3 := OnDigit(s2, "3");
    assert s3.currentInput == "3";
    Keyboard.EqualsKeys("Enter");
    var s4 := OnEquals(s3, show).next;
    assert s4.history == History.Recorded([], CalculationEntry(show, 2.0, Add, 3.0, 5.0));
    assert Typing(s4, [], host) == s4;
    assert Typing(Initial, ["2", "+", "3", "Enter"], host) == s4 by {
      var keys := ["2", "+", "3", "Enter"];
      assert keys[1..] == ["+", "3", "Enter"];
      assert keys[1..][1..] == ["3", "Enter"];
      assert keys[1..][1..][1..] == ["Enter"];
      assert keys[1..][1..][1..][1..] == [];
    }
  }

  /** From a shown result that reads as 5, * 4 Enter shows 20 and records "5 * 4 = 20". */
  lemma TimesFourFromShown(s: State, host: Host)
    requires s.previousInput == None && s.operator == None && s.waitingForOperand
    requires ParseFloat(s.currentInput) == 5.0
    ensures var t := Typing(s, ["*", "4", "Enter"], host);
      && t.currentInput == host.show(20.0)
      && t.previousInput == None && t.operator == None
      && t.history == History.Recorded(s.history, CalculationEntry(host.show, 5.0, Multiply, 4.0, 20.0))
  {
    var show := host.show;
    OperatorKey(s, Multiply, host);
    var s1 := OnOperator(s, Multiply, show).next;
    assert s1.previousInput == Some(5.0) && s1.operator == Some(Multiply) && s1.waitingForOperand;
    DigitKey(s1, '4', host);
    var s2 := OnDigit(s1, "4");
    assert s2.currentInput == "4";
    Keyboard.EqualsKeys("Enter");
    var s3 := OnEquals(s2, show).next;
    assert Typing(s3, [], host) == s3;
    assert Typing(s, ["*", "4", "Enter"], host) == s3 by {
      var keys := ["*", "4", "Enter"];
      assert keys[1..] == ["4", "Enter"];
      assert keys[1..][1..] == ["Enter"];
      assert keys[1..][1..][1..] == [];
    }
  }

  /**
   * 2 + 3 = * 4 = shows 20: the second operator takes the shown result 5 as
   * its first operand. The shown text is whatever the host prints for 5, so
   * this holds when that text reads back as 5.
   */
  lemma ContinueFromResult(host: Host)
    requires ParseFloat(host.show(5.0)) == 5.0
    ensures var s := Typing(Typing(Initial, ["2", "+", "3", "Enter"], host), ["*", "4", "Enter"], host);
      && s.currentInput == host.show(20.0)
      && s.previousInput == None && s.operator == None
      && s.history == [CalculationEntry(host.show, 5.0, Multiply, 4.0, 20.0),
                       CalculationEntry(host.show, 2.0, Add, 3.0, 5.0)]
  {
    var shown := Typing(Initial, ["2", "+", "3", "Enter"], host);
    var sum := CalculationEntry(host.show, 2.0, Add, 3.0, 5.0);
    var product := CalculationEntry(host.show, 5.0, Multiply, 4.0, 20.0);
    SumShown(host);
    assert shown.history == [sum];
    TimesFourFromShown(shown, host);
    var t := Typing(shown, ["*", "4", "Enter"], host);
    assert t.history == History.Recorded([sum], product);
    assert History.Recorded([sum], product) == [product, sum];
  }

  /**
   * 2, the power function, 3, = shows 3 rather than 8: the `**` operator the
   * power function pushes falls into the default case of the operator switch.
   */
  lemma PowerYieldsExponent(host: Host)
    ensures var s1 := OnDigit(Initial, "2");
      var s2 := OnFunction(s1, "power", host);
      var s3 := OnDigit(s2.next, "3");
      var s4 := OnEquals(s3, host.show);
      && !s2.failed && s2.next.previousInput == Some(2.0) && s2.next.operator == Some(Power)
      && !s4.failed && s4.next.currentInput == host.show(3.0)
  {
    var s1 := OnDigit(Initial, "2");
    assert s1.currentInput == "2";
    ParseDigit('2');
    var s2 := OnFunction(s1, "power", host);
    assert s2 == OnOperator(s1, Power, host.show);
    var s3 := OnDigit(s2.next, "3");
    assert s3.currentInput == "3";
    ParseDigit('3');
  }

  /** 5 / 0 Enter raises the error signal and shows 0. */
  lemma DivisionByZeroSignals(host: Host)
    ensures var s1 := OnKey(Initial, "5", host).next;
      var s2 := OnKey(s1, "/", host).next;
      var s3 := OnKey(s2, "0", host).next;
      var s4 := OnKey(s3, "Enter", host);
      s4.failed && s4.next.currentInput == host.show(0.0) && s4.next.previousInput == None
  {
    DigitKey(Initial, '5', host);
    var s1 := OnDigit(Initial, "5");
    OperatorKey(s1, Divide, host);
    var s2 := OnOperator(s1, Divide, host.show).next;
    assert s2.previousInput == Some(5.0);
    DigitKey(s2, '0', host);
    var s3 := OnDigit(s2, "0");
    assert s3.currentInput == "0";
    Keyboard.EqualsKeys("Enter");
    assert OnKey(s3, "Enter", host) == OnEquals(s3, host.show);
  }

  /**
   * 2 + * folds 2 + 2 into 4: a second operator pressed straight after the
   * first still evaluates the pending operation against the entry on display.
   */
  lemma RepeatedOperatorFolds(host: Host)
    ensures var s1 := OnKey(Initial, "2", host).next;
      var s2 := OnKey(s1, "+", host).next;
      var s3 := OnKey(s2, "*", host).next;
      s3.previousInput == Some(4.0) && s3.operator == Some(Multiply) && s3.currentInput == host.show(4.0)
  {
    DigitKey(Initial, '2', host);
    var s1 := OnDigit(Initial, "2");
    assert s1.currentInput == "2";
    OperatorKey(s1, Add, host);
    var s2 := OnOperator(s1, Add, host.show).next;
    assert s2.previousInput == Some(2.0) && s2.currentInput == "2";
    OperatorKey(s2, Multiply, host);
  }
}
