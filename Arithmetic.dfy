/**
 * The binary operators of the single-accumulator chain (`performCalculation`)
 * and the iterative factorial.
 */
module Arithmetic {
  import opened Wrappers

  /** The operators the engine can hold pending: the four keys and the `**` of the power function. */
  datatype Op = Add | Subtract | Multiply | Divide | Power

  /** The operator as the engine stores it and writes it into history entries. */
  function Symbol(op: Op): string {
    match op
    case Add => "+"
    case Subtract => "-"
    case Multiply => "*"
    case Divide => "/"
    case Power => "**"
  }

  /** A value together with whether the error signal was raised to produce it. */
  datatype Evaluation = Evaluation(value: real, failed: bool)

  /**
   * `performCalculation`: `+ - * /` evaluate directly, a zero divisor raises
   * the error signal and yields 0, and every other operator (which is `**`)
   * falls into the default case and yields the second operand.
   */
  function Perform(a: real, b: real, op: Op): (e: Evaluation)
    ensures e.failed <==> op == Divide && b == 0.0
    ensures e.failed ==> e.value == 0.0
    ensures op == Divide && !e.failed ==> e.value * b == a
    ensures op == Add ==> e.value - b == a
    ensures op == Subtract ==> e.value + b == a
    ensures op == Multiply ==> e.value == a * b
    ensures op == Power ==> e.value == b
  {
    match op
    case Add => Evaluation(a + b, false)
    case Subtract => Evaluation(a - b, false)
    case Multiply => Evaluation(a * b, false)
    case Divide => if b == 0.0 then Evaluation(0.0, true) else Evaluation(a / b, false)
    case Power => Evaluation(b, false)
  }

  /** Addition and subtraction of the same operands average back to the first one, in exact arithmetic. */
  lemma SumAndDifference(a: real, b: real)
    ensures Perform(a, b, Add).value + Perform(a, b, Subtract).value == 2.0 * a
  {
  }

  /** The reference definition of n!. */
  function Fact(n: nat): nat {
    if n <= 1 then 1 else n * Fact(n - 1)
  }

  /** n! is at least 1. */
  lemma {:induction false} FactPositive(n: nat)
    ensures Fact(n) >= 1
  {
    if n > 1 {
      FactPositive(n - 1);
    }
  }

  /** n! grows with n. */
  lemma {:induction false} FactMonotone(m: nat, n: nat)
    requires m <= n
    ensures Fact(m) <= Fact(n)
    decreases n
  {
    if m < n {
      FactMonotone(m, n - 1);
      if n > 1 {
        FactPositive(n - 1);
        assert n * Fact(n - 1) >= Fact(n - 1);
      }
    }
  }

  /** The largest input `factorial` accepts. */
  const FactorialLimit: nat := 170

  /** Every factorial the limit lets through lies between 1 and the factorial of the limit. */
  lemma FactBounded(n: nat)
    requires n <= FactorialLimit
    ensures 1 <= Fact(n) <= Fact(FactorialLimit)
  {
    FactPositive(n);
    FactMonotone(n, FactorialLimit);
  }

  /**
   * `factorial`: above 170 it fails (the source throws), 0 and 1 give 1, and
   * otherwise the product 2 * 3 * ... * n is accumulated in a loop. Callers
   * have already rejected negative and non-integer input.
   */
  method Factorial(n: nat) returns (r: Option<nat>)
    ensures n > FactorialLimit <==> r.None?
    ensures r.Some? ==> r.value == Fact(n)
  {
    if n > FactorialLimit {
      return None;
    }
    if n == 0 || n == 1 {
      return Some(1);
    }
    var result := 1;
    var i := 2;
    while i <= n
      invariant 2 <= i <= n + 1
      invariant result == Fact(i - 1)
    {
      result := result * i;
      i := i + 1;
    }
    return Some(result);
  }

  lemma FactorialValues()
    ensures Fact(0) == 1 && Fact(1) == 1 && Fact(5) == 120
  {
  }
}
