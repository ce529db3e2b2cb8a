/**
 * The keyboard handler of `setupKeyboardSupport`: which engine command each
 * key value selects. The tests are made in order and the first match wins.
 */
module Keyboard {
  import opened Wrappers
  import opened Arithmetic

  /** An engine entry point together with its argument. */
  datatype Command =
    | Number(digits: string)
    | Operator(op: Op)
    | Equals
    | Utility(action: string)

  /** JavaScript's `<` on strings: lexicographic order on the characters. */
  predicate Less(a: string, b: string)
    decreases |a|
  {
    if a == [] then b != []
    else if b == [] then false
    else if a[0] != b[0] then a[0] < b[0]
    else Less(a[1..], b[1..])
  }

  /** The key test `e.key >= '0' && e.key <= '9'`, made on whole strings. */
  predicate InDigitRange(key: string) {
    !Less(key, "0") && !Less("9", key)
  }

  /** The command a key selects, or None for a key the handler ignores. */
  function KeyCommand(key: string): Option<Command> {
    if InDigitRange(key) then Some(Number(key))
    else if key == "+" then Some(Operator(Add))
    else if key == "-" then Some(Operator(Subtract))
    else if key == "*" then Some(Operator(Multiply))
    else if key == "/" then Some(Operator(Divide))
    else if key == "." then Some(Utility("decimal"))
    else if key == "Enter" || key == "=" then Some(Equals)
    else if key == "Backspace" then Some(Utility("backspace"))
    // `e.key.toLowerCase() === 'c'` holds exactly for "c" and "C"
    else if key == "Escape" || key == "c" || key == "C" then Some(Utility("clear"))
    else if key == "Delete" then Some(Utility("clearEntry"))
    else None
  }

  /**
   * The keys the handler reacts to: those passing the range test and the
   * listed ones. A digit command carries the key itself, an operator command
   * is the key's own operator (never power), and a utility command is one of
   * the four editing actions.
   */
  lemma KeyCommandCases(key: string)
    ensures KeyCommand(key).None? <==>
      && !InDigitRange(key)
      && key !in {"+", "-", "*", "/", ".", "Enter", "=", "Backspace", "Escape", "c", "C", "Delete"}
    ensures KeyCommand(key).Some? && KeyCommand(key).value.Number? ==>
      InDigitRange(key) && KeyCommand(key).value.digits == key
    ensures KeyCommand(key).Some? && KeyCommand(key).value.Operator? ==>
      KeyCommand(key).value.op != Power && key == Symbol(KeyCommand(key).value.op)
    ensures KeyCommand(key).Some? && KeyCommand(key).value.Utility? ==>
      KeyCommand(key).value.action in {"decimal", "backspace", "clear", "clearEntry"}
  {
  }

  /** The editing keys: '.' adds the point, Backspace deletes, Delete clears the entry. */
  lemma EditingKeys()
    ensures KeyCommand(".") == Some(Utility("decimal"))
    ensures KeyCommand("Backspace") == Some(Utility("backspace"))
    ensures KeyCommand("Delete") == Some(Utility("clearEntry"))
  {
    DigitRangeKeys(".");
    DigitRangeKeys("Backspace");
    DigitRangeKeys("Delete");
  }

  /**
   * The string comparison admits exactly the keys whose first character is a
   * digit, except that a key starting with '9' must be "9" itself: the range
   * test lets "0abc" through as digit input.
   */
  lemma DigitRangeKeys(key: string)
    ensures InDigitRange(key) <==> |key| >= 1 && '0' <= key[0] && (key[0] < '9' || key == "9")
  {
    if |key| >= 1 {
      if key[0] == '0' {
        assert Less(key, "0") == Less(key[1..], "");
      }
      if key[0] == '9' {
        assert Less("9", key) == Less("", key[1..]);
        assert key == "9" <==> key[1..] == [];
      }
    }
  }

  /** Each digit key enters that digit. */
  lemma DigitKeysEnterDigits(c: char)
    requires '0' <= c <= '9'
    ensures KeyCommand([c]) == Some(Number([c]))
  {
  }

  /** Enter and '=' are the only keys that evaluate. */
  lemma EqualsKeys(key: string)
    ensures KeyCommand(key) == Some(Equals) <==> key == "Enter" || key == "="
  {
  }

  /** Escape, 'c' and 'C' are the only keys that clear. */
  lemma ClearKeys(key: string)
    ensures KeyCommand(key) == Some(Utility("clear")) <==> key == "Escape" || key == "c" || key == "C"
  {
  }

  /** The operator keys select exactly their four operators; no key selects the power operator. */
  lemma OperatorKeys(key: string, op: Op)
    ensures KeyCommand(key) == Some(Operator(op)) <==> op != Power && key == Symbol(op)
  {
  }
}
