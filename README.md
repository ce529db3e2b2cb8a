# Scientific calculator engine

A Dafny model of the calculator engine inside `ScientificCalculator` (script.js):
the state record `this.state` and the handlers that update it when a button or
key is pressed.

- **Entry editing** (`Entry`): digit entry with the `"0"` sentinel, the decimal
  point (at most one), backspace and the sign toggle, as string functions, with
  what they mean for the number the entry reads as (`Numerals.ParseFloat`, the
  model of `parseFloat` on decimal literals).
- **Operator chain** (`Arithmetic`, `Engine.OnOperator`, `Engine.OnEquals`): a
  single accumulator evaluated strictly left to right. The pending operand and
  the pending operator are always set or cleared together (`Engine.Consistent`).
  Division by zero raises the error signal and yields 0. The `**` operator pushed
  by the power function falls into the default case of `performCalculation` and
  yields the second operand, so "2 power 3 =" shows 3; the model reproduces that.
  A chain continued from a shown result reads that result back from its text,
  which the model does not fix (see "Left out").
- **Unary functions** (`Functions`): the name table of `executeFunction`, its
  domain checks (log, ln, sqrt, reciprocal, factorial), the exactly computed
  functions and the iterative factorial (`Arithmetic.Factorial`, limit 170).
- **Memory register** and the **utility actions** (`Engine.OnMemory`,
  `Engine.OnUtility`).
- **History** (`History`): newest first, capped at ten, and the read-back of a
  selected entry (the text after the first `" = "`).
- **Keyboard dispatch** (`Keyboard`): the key-to-command table of the keydown
  listener, including the JavaScript string comparison behind its digit test.

`Engine.Calculator` is the imperative engine: a class with a `state` field whose
methods update it as the handlers do, each proved against the specification
function `OnDigit`, `OnOperator`, `OnEquals`, `OnFunction`, `OnMemory`,
`OnUtility`, `OnHistoryItem` or `OnKey`, and each keeping `Valid()`.

Numbers are exact reals. JavaScript's `String(number)` and the floating-point
`Math` library are parameters (`Engine.Host.show` and `Engine.Host.math`): the
model says where their results go, not what text or value they produce. An
error is the `failed` result of a handler, standing for the call to `showError`.

Behaviours of the code a reader might not expect:
- asin and acos have no domain check in the code (out-of-range input gives NaN, not an error);
- clear-entry also clears the waiting-for-operand flag;
- backspace yields `"0"` whenever the entry has at most one character, not only when it would become empty;
- the power operator does not raise to a power (see above);
- the entry is not always a number: negating `"-"` (reachable as `"-5"` then backspace) gives the empty entry,
  and negating twice turns `"-0"` into `"0"` (`Entry.NegateEdgeCases`);
- a second operator pressed straight after the first folds the pending operation against the displayed
  entry, so "2 + *" leaves 4 pending (`Scenarios.RepeatedOperatorFolds`).

## Model

| member | source | states |
|---|---|---|
| Numerals.ParseFloat | script.js:156 | a leading '-' gives a value of at most 0 and negates the unsigned rest; otherwise the value is at least 0; text starting with no digit, '-' or '.' reads as 0 |
| Numerals.FractionValue | script.js:156 | a literal `w.f` of digit strings reads as w plus f divided by ten to the number of digits of f |
| Numerals.NegativeFractionValue | script.js:156 | `-w.f` reads as the negation of that value |
| Numerals.IntegerValues | script.js:275 | `Number.isInteger` holds of every whole number and of nothing strictly between two consecutive ones |
| Numerals.ParseDigits | script.js:156 | a string of digits reads as its natural value |
| Numerals.ParseDigit | script.js:156 | a single digit reads as its value |
| Numerals.AppendDigitValue | script.js:150 | appending a digit to a digit entry multiplies its value by ten and adds the digit |
| Numerals.AppendPointValue | script.js:369 | appending '.' to an entry without one leaves the value it reads as unchanged |
| Entry.AppendDigit | script.js:150 | the typed digit ends the entry; the "0" sentinel is replaced by it, any other entry is kept as its prefix |
| Entry.TypedExtends | script.js:150 | once the entry is neither empty nor "0", typing keys only appends them |
| Entry.TypedFromSentinel | script.js:145-153 | typing a numeral without a leading zero on a fresh "0" entry reproduces it exactly |
| Entry.LeadingZeroAbsorbed | script.js:150 | a zero typed on the "0" sentinel is absorbed: no "0d" |
| Entry.AddPoint | script.js:368-369 | the result contains '.'; it extends the entry by at most one character, and leaves an entry with a point unchanged |
| Entry.Negate | script.js:373-377 | "0" is kept; otherwise one of entry and result is the other with a leading '-', and a leading '-' is removed |
| Entry.Backspace | script.js:357-363 | the result is never empty; with more than one character exactly the last one is removed, otherwise the entry becomes "0" |
| Entry.NegateTwice | script.js:372-378 | negating twice restores the entry, for every entry except "-0" and entries starting with "--" |
| Entry.NegateEdgeCases | script.js:372-378 | "-0" negated twice becomes "0", and negating "-" gives the empty entry |
| Entry.NegateValue | script.js:372-378 | the negated entry reads as the negated number |
| Entry.AddPointValue | script.js:364-371 | the decimal action never changes the number the entry reads as |
| Entry.PointsPresent | script.js:368 | the entry contains '.' exactly when it has a positive point count |
| Entry.EditingKeepsOnePoint | script.js:344-381 | digit entry, decimal, backspace and negate never create a second decimal point |
| Arithmetic.Perform | script.js:200-221 | the error signal is raised exactly for '/' with a zero divisor and then the value is 0; quotient times divisor is the dividend; + - * are exact; `**` yields the second operand |
| Arithmetic.SumAndDifference | script.js:203-206 | a+b plus a-b is 2a, in exact arithmetic |
| Arithmetic.FactMonotone | script.js:383-391 | n! never decreases as n grows |
| Arithmetic.FactBounded | script.js:384-390 | every n! the limit admits lies between 1 and 170! |
| Arithmetic.FactPositive | script.js:385-390 | n! is at least 1 |
| Arithmetic.Factorial | script.js:383-391 | fails exactly above 170; otherwise returns n!, computed by the accumulating loop |
| Arithmetic.FactorialValues | script.js:385 | 0! = 1! = 1 and 5! = 120 |
| Functions.Named | script.js:228-299 | a name selects at most one function, and only the one whose name it is |
| Functions.NamedName | script.js:228-299 | every function is reached by its own name |
| Functions.FactorialOf | script.js:273-278 | defined exactly on the integers 0..170, where it is n!, between 1 and 170! |
| Functions.Checked | script.js:247-291 | log and ln fail exactly on input at most 0, sqrt exactly on negative input, the reciprocal exactly on 0 (otherwise its product with the input is 1), factorial as FactorialOf; log, ln and sqrt otherwise give the library value |
| Functions.Apply | script.js:228-299 | only the checked functions can fail, and they behave as Checked; square is x*x and non-negative, cube is x*x*x, abs is x or -x and non-negative; every other function gives the library value |
| History.Recorded | script.js:434-440 | the entry goes first; below the cap nothing is dropped, at the cap exactly the oldest is dropped; the cap of ten is kept |
| History.RecordedAllKeepsNewest | script.js:434-440 | after any sequence of recordings the history is the ten most recent entries, newest first, then what fits of the earlier history |
| History.EleventhEvictsOldest | script.js:434-440 | eleven recordings into an empty history keep the last ten, newest first, without the first |
| History.FindSeparator | script.js:457 | finds the first " = " at or after a position, or reports there is none |
| History.SecondField | script.js:457 | absent exactly when there is no " = "; otherwise the text from just after the first " = " up to the next " = " or the end, which contains no " = " |
| History.SecondFieldReadsBack | script.js:455-463 | "before = after" with no '=' in either part reads back as "after" |
| Keyboard.KeyCommandCases | script.js:76-111 | a key is ignored exactly when it fails the range test and is none of the listed keys; digit commands carry the key, operator commands are the key's operator and never power, utility commands are decimal, backspace, clear or clearEntry |
| Keyboard.EditingKeys | script.js:89-107 | '.' selects decimal, Backspace selects backspace, Delete selects clearEntry |
| Keyboard.DigitRangeKeys | script.js:81 | the string test admits exactly the keys starting with '0'..'8', and "9" |
| Keyboard.DigitKeysEnterDigits | script.js:81-83 | each digit key enters that digit |
| Keyboard.EqualsKeys | script.js:93-95 | exactly Enter and '=' evaluate |
| Keyboard.ClearKeys | script.js:101-103 | exactly Escape, 'c' and 'C' clear |
| Keyboard.OperatorKeys | script.js:85-87 | the four operator keys select their operators; no key selects power |
| Engine.CalculationEntry | script.js:186 | the entry starts with the first operand's text and ends with " = " and the result's text |
| Engine.FunctionEntry | script.js:302 | the entry starts with the function name and '(' and ends with " = " and the result's text |
| Engine.CalculationEntryReadsBack | script.js:186 | the history entry of a calculation reads back as its result |
| Engine.FunctionEntryReadsBack | script.js:302 | the history entry of a function reads back as its result |
| Engine.OnDigit | script.js:145-153 | only the entry and the waiting flag change and the flag is cleared; when waiting the entry becomes the digit, otherwise it follows the sentinel rule |
| Engine.OnOperator | script.js:155-177 | the first operator stores the entry's value; with one pending, it is folded at once and its result shown; the new operator is pending and the flag set; errors only from division by zero; consistency is kept |
| Engine.OnEquals | script.js:179-198 | no change without a pending operation; otherwise one history entry "{prev} {op} {input} = {result}" is prepended, the result shown, the pending operation cleared and the flag set |
| Engine.OnFunction | script.js:223-311 | unknown names change nothing; power is the operator chain with `**`; a domain error changes nothing and raises the signal; otherwise result recorded and shown, flag set |
| Engine.OnMemory | script.js:313-333 | mc zeroes, mr loads memory and sets waiting, mplus/mminus add/subtract the entry's value, ms overwrites; any other action changes nothing |
| Engine.MemoryPlusMinusCancel | script.js:324-329 | M+ then M- restores the state, in exact arithmetic |
| Engine.StoreThenRecall | script.js:317-332 | MS then MR shows the stored value; MC then MR shows 0 |
| Engine.OnUtility | script.js:344-381 | clear returns to the initial state keeping memory, history and mode; clearEntry touches only entry and flag; editing actions touch only entry and flag; unknown actions nothing |
| Engine.DecimalIdempotent | script.js:364-371 | a second decimal press is a no-op |
| Engine.ClearIdempotent | script.js:346-352 | clearing twice is clearing once |
| Engine.OnHistoryItem | script.js:455-463 | loads the text after " = " and sets waiting; no-op when it is missing or empty |
| Engine.HistoryItemRestoresResult | script.js:455-463 | selecting a calculation's entry at any later time loads that calculation's result |
| Engine.OnKey | script.js:76-111 | an ignored key changes nothing; every key keeps consistency |
| Engine.DigitKey | script.js:81-83 | a digit key runs the digit handler with that digit, which reads as its value |
| Engine.OperatorKey | script.js:85-87 | an operator key runs the operator handler with its operator |
| Engine.EqualsKey | script.js:93-95 | Enter and '=' run the equals handler |
| Engine.ClearKey | script.js:101-103 | Escape, 'c' and 'C' run the clear action |
| Engine.EditingKey | script.js:89-107 | '.', Backspace and Delete run the decimal, backspace and clear-entry actions |
| Engine.TypingKeepsConsistent | script.js:158-190 | no key sequence separates the pending operand from its operator or overfills the history |
| Engine.Calculator.constructor | script.js:8-17 | the initial state: entry "0", nothing pending, memory 0, empty history |
| Engine.Calculator.InputNumber | script.js:145-153 | the new state is OnDigit of the old |
| Engine.Calculator.InputOperator | script.js:155-177 | the new state and error signal are OnOperator of the old state |
| Engine.Calculator.Calculate | script.js:179-198 | the new state and error signal are OnEquals of the old state |
| Engine.Calculator.ExecuteFunction | script.js:223-311 | the new state and error signal are OnFunction of the old state, factorial computed by the loop |
| Engine.Calculator.HandleMemory | script.js:313-342 | the new state is OnMemory of the old |
| Engine.Calculator.HandleUtility | script.js:344-381 | the new state is OnUtility of the old |
| Engine.Calculator.AddToHistory | script.js:434-440 | unshift then pop past the cap: the history becomes Recorded of the old one, nothing else changes |
| Engine.Calculator.UseHistoryItem | script.js:455-463 | the new state is OnHistoryItem of the old |
| Engine.Calculator.ClearHistory | script.js:465-468 | the history becomes empty, nothing else changes |
| Engine.Calculator.ToggleMode | script.js:133 | only the scientific-mode flag flips |
| Engine.Calculator.HandleKey | script.js:76-111 | the new state and error signal are OnKey of the old state |
| Scenarios.ChainIsLeftToRight | script.js:155-198 | 2 + 3 * 4 Enter shows 20, with the single history entry "5 * 4 = 20" |
| Scenarios.SumShown | script.js:155-198 | 2 + 3 Enter shows 5 and records "2 + 3 = 5" |
| Scenarios.TimesFourFromShown | script.js:155-198 | from a shown result reading as 5, * 4 Enter shows 20 and records "5 * 4 = 20" |
| Scenarios.ContinueFromResult | script.js:155-198 | when the text shown for 5 reads back as 5, 2 + 3 = * 4 = shows 20 with both entries in history, newest first |
| Scenarios.PowerYieldsExponent | script.js:293-296 | 2 power 3 = shows 3 |
| Scenarios.DivisionByZeroSignals | script.js:209-219 | 5 / 0 Enter raises the error signal and shows 0 |
| Scenarios.RepeatedOperatorFolds | script.js:155-177 | 2 + * leaves 4 pending under '*' |

## Left out

- DOM plumbing: element lookups, event registration, button animation, the `active` classes, history rendering, the DOM side of `toggleMode`.
- `updateDisplay`: the exponential and 12-digit formatting and the secondary display are floating-point text formatting.
- The timer of `showError`: the error is the `failed` result; the automatic clear two seconds later is the "clear" utility action, which the shell would call, and its race with later input is not modelled. `Engine.Typing` runs keys without that delayed clear.
- Floating point: values are exact reals, so rounding, overflow to Infinity and the inexactness of 170! as a double are not modelled.
- NaN: `Numerals.ParseFloat` reads a string with no number as 0 where JavaScript gives NaN, so NaN propagation, including `previousInput || 0`, is not modelled.
- Numerals.ParseFloat: reads only `-?digits(.digits)?` prefixes; exponent notation, leading whitespace, '+' and "Infinity" are not modelled, since they arise only from the abstract `show`.
- `String(number)` and the `Math` functions are the `Host` parameters `show` and `math`; their text and values are not specified.
- Continuing from a shown result: after `=`, a function, MR, an operator fold or a history selection, the next operator, `=`, M+, M- or MS reads the shown text back through `ParseFloat(show(v))`. Nothing about `show` makes that text read back as `v`, so the model does not promise that a chain continues with the value shown; `Scenarios.ContinueFromResult` proves it for one chain under that condition.
- `toRadians`/`toDegrees` and `angleMode`: the angle mode is never changed, and the conversion is part of `math`.
- The application bootstrap at the end of script.js.
