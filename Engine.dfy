/**
 * The calculator engine: the state record of `ScientificCalculator`, one
 * specification function per input handler, and the `Calculator` class whose
 * methods update the state in place as the handlers do.
 *
 * JavaScript's `String(number)` and the floating-point library are not
 * modelled: they are the `show` and `math` functions of a `Host`.
 */
module Engine {
  import opened Wrappers
  import opened Numerals
  import opened Entry
  import opened Arithmetic
  import Functions
  import History
  import Keyboard

  /** What the browser supplies: number-to-text conversion and the floating-point math library. */
  datatype Host = Host(show: real -> string, math: (Functions.Func, real) -> real)

  /** `this.state`, without the angle mode, which nothing changes. */
  datatype State = State(
    currentInput: string,
    previousInput: Option<real>,
    operator: Option<Op>,
    waitingForOperand: bool,
    memory: real,
    isScientificMode: bool,
    history: seq<string>)

  /** The state the constructor creates. */
  const Initial: State := State("0", None, None, false, 0.0, true, [])

  /** A pending operand always comes with its operator, and the history respects its cap. */
  predicate Consistent(s: State) {
    && (s.previousInput.Some? <==> s.operator.Some?)
    && |s.history| <= History.Capacity
  }

  /** A new state and whether the error signal (`showError`) was raised on the way. */
  datatype Step = Step(next: State, failed: bool)

  /** The history entry `calculate` writes: "{previous} {operator} {input} = {result}". */
  function CalculationEntry(show: real -> string, a: real, op: Op, b: real, v: real): (r: string)
    ensures |show(a)| + |show(v)| + |History.Separator| <= |r|
    ensures r[..|show(a)|] == show(a)
    ensures r[|r| - |show(v)|..] == show(v)
    ensures History.SeparatorAt(r, |r| - |show(v)| - |History.Separator|)
  {
    show(a) + " " + Symbol(op) + " " + show(b) + History.Separator + show(v)
  }

  /** The history entry `executeFunction` writes: "{func}({input}) = {result}". */
  function FunctionEntry(show: real -> string, name: string, x: real, v: real): (r: string)
    ensures |name| + |show(v)| + |History.Separator| < |r|
    ensures r[..|name|] == name && r[|name|] == '('
    ensures r[|r| - |show(v)|..] == show(v)
    ensures History.SeparatorAt(r, |r| - |show(v)| - |History.Separator|)
  {
    name + "(" + show(x) + ")" + History.Separator + show(v)
  }

  /** Selecting an entry that `calculate` wrote loads its result again, when numbers print without '='. */
  lemma CalculationEntryReadsBack(show: real -> string, a: real, op: Op, b: real, v: real)
    requires '=' !in show(a) && '=' !in show(b) && '=' !in show(v)
    ensures History.SecondField(CalculationEntry(show, a, op, b, v)) == Some(show(v))
  {
    var before := show(a) + " " + Symbol(op) + " " + show(b);
    assert '=' !in Symbol(op);
    assert CalculationEntry(show, a, op, b, v) == before + History.Separator + show(v);
    History.SecondFieldReadsBack(before, show(v));
  }

  /** Selecting an entry that `executeFunction` wrote loads its result again, when numbers print without '='. */
  lemma FunctionEntryReadsBack(show: real -> string, f: Functions.Func, x: real, v: real)
    requires '=' !in show(x) && '=' !in show(v)
    ensures History.SecondField(FunctionEntry(show, Functions.Name(f), x, v)) == Some(show(v))
  {
    var name := Functions.Name(f);
    var before := name + "(" + show(x) + ")";
    assert '=' !in name by {
      match f
      case _ =>
    }
    assert FunctionEntry(show, name, x, v) == before + History.Separator + show(v);
    History.SecondFieldReadsBack(before, show(v));
  }

  /** `inputNumber(num)`. */
  function OnDigit(s: State, num: string): (t: State)
    ensures t == s.(currentInput := t.currentInput, waitingForOperand := false)
    ensures s.waitingForOperand ==> t.currentInput == num
    ensures !s.waitingForOperand ==> t.currentInput == AppendDigit(s.currentInput, num)
    ensures Consistent(s) ==> Consistent(t)
  {
    if s.waitingForOperand then s.(currentInput := num, waitingForOperand := false)
    else s.(currentInput := AppendDigit(s.currentInput, num))
  }

  /**
   * `inputOperator(next)`: the first operator stores the entry's value as the
   * pending operand; a later one folds the pending operation into it at once
   * and shows the result. Either way `next` becomes the pending operator.
   */
  function OnOperator(s: State, next: Op, show: real -> string): (t: Step)
    ensures t.next == s.(currentInput := t.next.currentInput, previousInput := t.next.previousInput,
                         operator := Some(next), waitingForOperand := true)
    ensures s.previousInput.None? ==>
      t == Step(s.(previousInput := Some(ParseFloat(s.currentInput)), operator := Some(next), waitingForOperand := true), false)
    ensures s.previousInput.Some? && s.operator.Some? ==>
      var e := Perform(s.previousInput.value, ParseFloat(s.currentInput), s.operator.value);
      t.next.previousInput == Some(e.value) && t.next.currentInput == show(e.value) && t.failed == e.failed
    ensures t.failed ==> s.operator == Some(Divide) && ParseFloat(s.currentInput) == 0.0
    ensures Consistent(s) ==> Consistent(t.next)
  {
    var inputValue := ParseFloat(s.currentInput);
    var folded :=
      if s.previousInput.None? then
        Step(s.(previousInput := Some(inputValue)), false)
      else if s.operator.Some? then
        var e := Perform(s.previousInput.value, inputValue, s.operator.value);
        Step(s.(currentInput := show(e.value), previousInput := Some(e.value)), e.failed)
      else
        Step(s, false);
    Step(folded.next.(waitingForOperand := true, operator := Some(next)), folded.failed)
  }

  /**
   * `calculate()`: with an operation pending, evaluates it, records it in the
   * history, shows the result and clears the pending operation; otherwise
   * changes nothing.
   */
  function OnEquals(s: State, show: real -> string): (t: Step)
    ensures !(s.previousInput.Some? && s.operator.Some?) ==> t == Step(s, false)
    ensures s.previousInput.Some? && s.operator.Some? ==>
      var a, b, op := s.previousInput.value, ParseFloat(s.currentInput), s.operator.value;
      var e := Perform(a, b, op);
      && t.failed == e.failed
      && t.next == s.(currentInput := show(e.value), previousInput := None, operator := None,
                      waitingForOperand := true,
                      history := History.Recorded(s.history, CalculationEntry(show, a, op, b, e.value)))
    ensures Consistent(s) ==> Consistent(t.next)
  {
    if s.previousInput.Some? && s.operator.Some? then
      var a, b, op := s.previousInput.value, ParseFloat(s.currentInput), s.operator.value;
      var e := Perform(a, b, op);
      var recorded := s.(history := History.Recorded(s.history, CalculationEntry(show, a, op, b, e.value)));
      Step(recorded.(currentInput := show(e.value), previousInput := None, operator := None, waitingForOperand := true),
           e.failed)
    else
      Step(s, false)
  }

  /**
   * `executeFunction(name)`: an unknown name changes nothing; "power" hands
   * over to the operator chain with `**`; a domain error raises the error
   * signal and changes nothing; otherwise the result is recorded and shown.
   */
  function OnFunction(s: State, name: string, host: Host): (t: Step)
    ensures Functions.Named(name).None? ==> t == Step(s, false)
    ensures Functions.Named(name) == Some(Functions.Power) ==> t == OnOperator(s, Power, host.show)
    ensures Functions.Named(name).Some? && Functions.Named(name) != Some(Functions.Power) ==>
      var x := ParseFloat(s.currentInput);
      match Functions.Apply(Functions.Named(name).value, x, host.math)
      case None => t == Step(s, true)
      case Some(v) =>
        t == Step(s.(currentInput := host.show(v), waitingForOperand := true,
                     history := History.Recorded(s.history, FunctionEntry(host.show, name, x, v))), false)
    ensures Consistent(s) ==> Consistent(t.next)
  {
    match Functions.Named(name)
    case None => Step(s, false)
    case Some(f) =>
      if f == Functions.Power then OnOperator(s, Power, host.show)
      else
        var x := ParseFloat(s.currentInput);
        match Functions.Apply(f, x, host.math)
        case None => Step(s, true)
        case Some(v) =>
          var recorded := s.(history := History.Recorded(s.history, FunctionEntry(host.show, name, x, v)));
          Step(recorded.(currentInput := host.show(v), waitingForOperand := true), false)
  }

  /** `handleMemory(action)`: only the memory register, or on "mr" the entry, changes. */
  function OnMemory(s: State, action: string, show: real -> string): (t: State)
    ensures t == s.(memory := t.memory, currentInput := t.currentInput, waitingForOperand := t.waitingForOperand)
    ensures action == "mc" ==> t == s.(memory := 0.0)
    ensures action == "mr" ==> t == s.(currentInput := show(s.memory), waitingForOperand := true)
    ensures action == "mplus" ==> t == s.(memory := s.memory + ParseFloat(s.currentInput))
    ensures action == "mminus" ==> t == s.(memory := s.memory - ParseFloat(s.currentInput))
    ensures action == "ms" ==> t == s.(memory := ParseFloat(s.currentInput))
    ensures action !in {"mc", "mr", "mplus", "mminus", "ms"} ==> t == s
    ensures Consistent(s) ==> Consistent(t)
  {
    var currentValue := ParseFloat(s.currentInput);
    if action == "mc" then s.(memory := 0.0)
    else if action == "mr" then s.(currentInput := show(s.memory), waitingForOperand := true)
    else if action == "mplus" then s.(memory := s.memory + currentValue)
    else if action == "mminus" then s.(memory := s.memory - currentValue)
    else if action == "ms" then s.(memory := currentValue)
    else s
  }

  /** M+ followed by M- leaves everything as it was, in exact arithmetic (with doubles the memory can drift by a rounding error). */
  lemma MemoryPlusMinusCancel(s: State, show: real -> string)
    ensures OnMemory(OnMemory(s, "mplus", show), "mminus", show) == s
  {
  }

  /** MS followed by MR shows the stored value. */
  lemma StoreThenRecall(s: State, show: real -> string)
    ensures OnMemory(OnMemory(s, "ms", show), "mr", show).currentInput == show(ParseFloat(s.currentInput))
    ensures OnMemory(OnMemory(s, "mc", show), "mr", show).currentInput == show(0.0)
  {
  }

  /**
   * `handleUtility(action)`: "clear" returns to the initial state but keeps
   * memory, history and mode; "clearEntry" resets only the entry and the
   * waiting flag; the editing actions change only the entry and flag.
   */
  function OnUtility(s: State, action: string): (t: State)
    ensures t.memory == s.memory && t.history == s.history && t.isScientificMode == s.isScientificMode
    ensures action == "clear" ==> t == Initial.(memory := s.memory, history := s.history, isScientificMode := s.isScientificMode)
    ensures action != "clear" ==> t.previousInput == s.previousInput && t.operator == s.operator
    ensures action == "clearEntry" ==> t == s.(currentInput := "0", waitingForOperand := false)
    ensures action == "backspace" ==> t == s.(currentInput := Backspace(s.currentInput))
    ensures action == "decimal" ==>
      t == if s.waitingForOperand then s.(currentInput := "0.", waitingForOperand := false)
           else s.(currentInput := AddPoint(s.currentInput))
    ensures action == "negate" ==> t == s.(currentInput := Negate(s.currentInput))
    ensures action !in {"clear", "clearEntry", "backspace", "decimal", "negate"} ==> t == s
    ensures Consistent(s) ==> Consistent(t)
  {
    if action == "clear" then
      s.(currentInput := "0", previousInput := None, operator := None, waitingForOperand := false)
    else if action == "clearEntry" then
      s.(currentInput := "0", waitingForOperand := false)
    else if action == "backspace" then
      s.(currentInput := Backspace(s.currentInput))
    else if action == "decimal" then
      if s.waitingForOperand then s.(currentInput := "0.", waitingForOperand := false)
      else s.(currentInput := AddPoint(s.currentInput))
    else if action == "negate" then
      s.(currentInput := Negate(s.currentInput))
    else s
  }

  /** Pressing the decimal point a second time changes nothing. */
  lemma DecimalIdempotent(s: State)
    ensures OnUtility(OnUtility(s, "decimal"), "decimal") == OnUtility(s, "decimal")
  {
  }

  /** Clearing twice is clearing once. */
  lemma ClearIdempotent(s: State)
    ensures OnUtility(OnUtility(s, "clear"), "clear") == OnUtility(s, "clear")
  {
  }

  /** `useHistoryItem(calculation)`: loads the text after " = " unless it is missing or empty. */
  function OnHistoryItem(s: State, calculation: string): (t: State)
    ensures t == s.(currentInput := t.currentInput, waitingForOperand := t.waitingForOperand)
    ensures match History.SecondField(calculation)
            case Some(r) => r != [] ==> t == s.(currentInput := r, waitingForOperand := true)
            case None => t == s
    ensures History.SecondField(calculation) == Some([]) ==> t == s
    ensures Consistent(s) ==> Consistent(t)
  {
    match History.SecondField(calculation)
    case Some(r) => if r != [] then s.(currentInput := r, waitingForOperand := true) else s
    case None => s
  }

  /** Selecting an entry `calculate` wrote, at any later time, loads that calculation's result. */
  lemma HistoryItemRestoresResult(u: State, show: real -> string, a: real, op: Op, b: real, v: real)
    requires '=' !in show(a) && '=' !in show(b) && '=' !in show(v) && show(v) != []
    ensures OnHistoryItem(u, CalculationEntry(show, a, op, b, v)) == u.(currentInput := show(v), waitingForOperand := true)
  {
    CalculationEntryReadsBack(show, a, op, b, v);
  }

  /** The keyboard handler: the command a key selects, applied to the state. */
  function OnKey(s: State, key: string, host: Host): (t: Step)
    ensures Keyboard.KeyCommand(key).None? ==> t == Step(s, false)
    ensures Consistent(s) ==> Consistent(t.next)
  {
    match Keyboard.KeyCommand(key)
    case None => Step(s, false)
    case Some(Number(d)) => Step(OnDigit(s, d), false)
    case Some(Operator(op)) => OnOperator(s, op, host.show)
    case Some(Equals) => OnEquals(s, host.show)
    case Some(Utility(action)) => Step(OnUtility(s, action), false)
  }

  /** A digit key enters its digit, which reads as its value. */
  lemma DigitKey(s: State, c: char, host: Host)
    requires IsDigit(c)
    ensures OnKey(s, [c], host) == Step(OnDigit(s, [c]), false)
    ensures ParseFloat([c]) == DigitValue(c) as real
  {
    Keyboard.DigitKeysEnterDigits(c);
    ParseDigit(c);
  }

  /** An operator key runs the operator handler with its operator. */
  lemma OperatorKey(s: State, op: Op, host: Host)
    requires op != Power
    ensures OnKey(s, Symbol(op), host) == OnOperator(s, op, host.show)
  {
    Keyboard.OperatorKeys(Symbol(op), op);
  }

  /** Enter and '=' run the equals handler. */
  lemma EqualsKey(s: State, key: string, host: Host)
    requires key == "Enter" || key == "="
    ensures OnKey(s, key, host) == OnEquals(s, host.show)
  {
    Keyboard.EqualsKeys(key);
  }

  /** Escape, 'c' and 'C' run the clear action. */
  lemma ClearKey(s: State, key: string, host: Host)
    requires key == "Escape" || key == "c" || key == "C"
    ensures OnKey(s, key, host) == Step(OnUtility(s, "clear"), false)
  {
    Keyboard.ClearKeys(key);
  }

  /** '.', Backspace and Delete run the decimal, backspace and clear-entry actions. */
  lemma EditingKey(s: State, host: Host)
    ensures OnKey(s, ".", host) == Step(OnUtility(s, "decimal"), false)
    ensures OnKey(s, "Backspace", host) == Step(OnUtility(s, "backspace"), false)
    ensures OnKey(s, "Delete", host) == Step(OnUtility(s, "clearEntry"), false)
  {
    Keyboard.EditingKeys();
  }

  /** The state after a sequence of key presses, the first pressed first. */
  function Typing(s: State, keys: seq<string>, host: Host): State
    decreases |keys|
  {
    if keys == [] then s else Typing(OnKey(s, keys[0], host).next, keys[1..], host)
  }

  /** No sequence of key presses separates the pending operand from its operator or overfills the history. */
  lemma {:induction false} TypingKeepsConsistent(s: State, keys: seq<string>, host: Host)
    requires Consistent(s)
    ensures Consistent(Typing(s, keys, host))
    decreases |keys|
  {
    if keys != [] {
      TypingKeepsConsistent(OnKey(s, keys[0], host).next, keys[1..], host);
    }
  }

  class Calculator {
    const host: Host
    var state: State

    ghost predicate Valid()
      reads this
    {
      Consistent(state)
    }

    constructor (host: Host)
      ensures Valid()
      ensures this.host == host && state == Initial
    {
      this.host := host;
      state := Initial;
    }

    method InputNumber(num: string)
      requires Valid()
      modifies this
      ensures Valid()
      ensures state == OnDigit(old(state), num)
    {
      if state.waitingForOperand {
        state := state.(currentInput := num);
        state := state.(waitingForOperand := false);
      } else {
        state := state.(currentInput := if state.currentInput == "0" then num else state.currentInput + num);
      }
    }

    method InputOperator(next: Op) returns (failed: bool)
      requires Valid()
      modifies this
      ensures Valid()
      ensures Step(state, failed) == OnOperator(old(state), next, host.show)
    {
      var inputValue := ParseFloat(state.currentInput);
      failed := false;
      if state.previousInput.None? {
        state := state.(previousInput := Some(inputValue));
      } else if state.operator.Some? {
        var currentValue := state.previousInput.value;
        var newValue := Perform(currentValue, inputValue, state.operator.value);
        failed := newValue.failed;
        state := state.(currentInput := host.show(newValue.value));
        state := state.(previousInput := Some(newValue.value));
      }
      state := state.(waitingForOperand := true);
      state := state.(operator := Some(next));
    }

    method Calculate() returns (failed: bool)
      requires Valid()
      modifies this
      ensures Valid()
      ensures Step(state, failed) == OnEquals(old(state), host.show)
    {
      var inputValue := ParseFloat(state.currentInput);
      failed := false;
      if state.previousInput.Some? && state.operator.Some? {
        var a, op := state.previousInput.value, state.operator.value;
        var newValue := Perform(a, inputValue, op);
        failed := newValue.failed;
        AddToHistory(CalculationEntry(host.show, a, op, inputValue, newValue.value));
        state := state.(currentInput := host.show(newValue.value));
        state := state.(previousInput := None);
        state := state.(operator := None);
        state := state.(waitingForOperand := true);
      }
    }

    method ExecuteFunction(name: string) returns (failed: bool)
      requires Valid()
      modifies this
      ensures Valid()
      ensures Step(state, failed) == OnFunction(old(state), name, host)
    {
      var currentValue := ParseFloat(state.currentInput);
      failed := false;
      var selected := Functions.Named(name);
      if selected.None? {
        return;
      }
      var f := selected.value;
      if f == Functions.Power {
        failed := InputOperator(Power);
        return;
      }
      var result: real;
      if f == Functions.Factorial {
        if currentValue < 0.0 || !IsInteger(currentValue) {
          failed := true;
          return;
        }
        var product := Arithmetic.Factorial(currentValue.Floor);
        if product.None? {
          failed := true;
          return;
        }
        result := product.value as real;
      } else {
        var value := Functions.Apply(f, currentValue, host.math);
        if value.None? {
          failed := true;
          return;
        }
        result := value.value;
      }
      AddToHistory(FunctionEntry(host.show, name, currentValue, result));
      state := state.(currentInput := host.show(result));
      state := state.(waitingForOperand := true);
    }

    method HandleMemory(action: string)
      requires Valid()
      modifies this
      ensures Valid()
      ensures state == OnMemory(old(state), action, host.show)
    {
      var currentValue := ParseFloat(state.currentInput);
      if action == "mc" {
        state := state.(memory := 0.0);
      } else if action == "mr" {
        state := state.(currentInput := host.show(state.memory));
        state := state.(waitingForOperand := true);
      } else if action == "mplus" {
        state := state.(memory := state.memory + currentValue);
      } else if action == "mminus" {
        state := state.(memory := state.memory - currentValue);
      } else if action == "ms" {
        state := state.(memory := currentValue);
      }
    }

    method HandleUtility(action: string)
      requires Valid()
      modifies this
      ensures Valid()
      ensures state == OnUtility(old(state), action)
    {
      if action == "clear" {
        state := state.(currentInput := "0");
        state := state.(previousInput := None);
        state := state.(operator := None);
        state := state.(waitingForOperand := false);
      } else if action == "clearEntry" {
        state := state.(currentInput := "0");
        state := state.(waitingForOperand := false);
      } else if action == "backspace" {
        if |state.currentInput| > 1 {
          state := state.(currentInput := state.currentInput[..|state.currentInput| - 1]);
        } else {
          state := state.(currentInput := "0");
        }
      } else if action == "decimal" {
        if state.waitingForOperand {
          state := state.(currentInput := "0.");
          state := state.(waitingForOperand := false);
        } else if '.' !in state.currentInput {
          state := state.(currentInput := state.currentInput + ".");
        }
      } else if action == "negate" {
        if state.currentInput != "0" {
          state := state.(currentInput :=
            if |state.currentInput| > 0 && state.currentInput[0] == '-' then state.currentInput[1..]
            else "-" + state.currentInput);
        }
      }
    }

    /** `addToHistory`: unshift the entry, then pop the oldest once past the cap. */
    method AddToHistory(entry: string)
      requires Valid()
      modifies this
      ensures Valid()
      ensures state == old(state).(history := History.Recorded(old(state.history), entry))
    {
      var history := [entry] + state.history;
      if |history| > History.Capacity {
        history := history[..|history| - 1];
      }
      state := state.(history := history);
    }

    method UseHistoryItem(calculation: string)
      requires Valid()
      modifies this
      ensures Valid()
      ensures state == OnHistoryItem(old(state), calculation)
    {
      var result := History.SecondField(calculation);
      if result.Some? && result.value != [] {
        state := state.(currentInput := result.value);
        state := state.(waitingForOperand := true);
      }
    }

    method ClearHistory()
      requires Valid()
      modifies this
      ensures Valid()
      ensures state == old(state).(history := [])
    {
      state := state.(history := []);
    }

    /** The state half of `toggleMode`. */
    method ToggleMode()
      requires Valid()
      modifies this
      ensures Valid()
      ensures state == old(state).(isScientificMode := !old(state.isScientificMode))
    {
      state := state.(isScientificMode := !state.isScientificMode);
    }

    /** The keydown listener: dispatches the key to the handler it selects. */
    method HandleKey(key: string) returns (failed: bool)
      requires Valid()
      modifies this
      ensures Valid()
      ensures Step(state, failed) == OnKey(old(state), key, host)
    {
      failed := false;
      match Keyboard.KeyCommand(key)
      case None =>
      case Some(Number(d)) => InputNumber(d);
      case Some(Operator(op)) => failed := InputOperator(op);
      case Some(Equals) => failed := Calculate();
      case Some(Utility(action)) => HandleUtility(action);
    }
  }
}
