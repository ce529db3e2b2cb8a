/**
 * The unary functions of `executeFunction`: their button names, their domain
 * checks, and the values of those computed exactly. The floating-point
 * library functions (trigonometry with the angle conversion, logarithms,
 * roots, powers, the constants pi and e) are taken from a `math` parameter.
 */
module Functions {
  import opened Wrappers
  import opened Numerals
  import Arithmetic

  datatype Func =
    | Sin | Cos | Tan | Asin | Acos | Atan
    | Log | Ln | Exp | Pow10 | Sqrt | Cbrt
    | Square | Cube | Factorial | Reciprocal | Abs
    | Pi | E | Power

  /** The name a function button sends, which is also the name written into history. */
  function Name(f: Func): string {
    match f
    case Sin => "sin"
    case Cos => "cos"
    case Tan => "tan"
    case Asin => "asin"
    case Acos => "acos"
    case Atan => "atan"
    case Log => "log"
    case Ln => "ln"
    case Exp => "exp"
    case Pow10 => "pow10"
    case Sqrt => "sqrt"
    case Cbrt => "cbrt"
    case Square => "square"
    case Cube => "cube"
    case Factorial => "factorial"
    case Reciprocal => "reciprocal"
    case Abs => "abs"
    case Pi => "pi"
    case E => "e"
    case Power => "power"
  }

  /** The `switch (func)` of `executeFunction`: which function a name selects, if any. */
  function Named(name: string): (r: Option<Func>)
    ensures r.Some? ==> Name(r.value) == name
  {
    if name == "sin" then Some(Sin)
    else if name == "cos" then Some(Cos)
    else if name == "tan" then Some(Tan)
    else if name == "asin" then Some(Asin)
    else if name == "acos" then Some(Acos)
    else if name == "atan" then Some(Atan)
    else if name == "log" then Some(Log)
    else if name == "ln" then Some(Ln)
    else if name == "exp" then Some(Exp)
    else if name == "pow10" then Some(Pow10)
    else if name == "sqrt" then Some(Sqrt)
    else if name == "cbrt" then Some(Cbrt)
    else if name == "square" then Some(Square)
    else if name == "cube" then Some(Cube)
    else if name == "factorial" then Some(Factorial)
    else if name == "reciprocal" then Some(Reciprocal)
    else if name == "abs" then Some(Abs)
    else if name == "pi" then Some(Pi)
    else if name == "e" then Some(E)
    else if name == "power" then Some(Power)
    else None
  }

  /** Every function is selected by its own name: the table has no shadowed entry. */
  lemma NamedName(f: Func)
    ensures Named(Name(f)) == Some(f)
  {
  }

  /** Whether `x` passes the factorial's domain checks: a non-negative integer no larger than 170. */
  predicate FactorialDomain(x: real) {
    0.0 <= x && IsInteger(x) && x <= Arithmetic.FactorialLimit as real
  }

  /**
   * The factorial case of `executeFunction`: negative and fractional input
   * throws, and so does input above 170, the limit of `factorial`.
   */
  function FactorialOf(x: real): (r: Option<real>)
    ensures r.Some? <==> FactorialDomain(x)
    ensures r.Some? ==>
      && r.value == Arithmetic.Fact(x.Floor) as real
      && 1.0 <= r.value <= Arithmetic.Fact(Arithmetic.FactorialLimit) as real
  {
    if x < 0.0 || !IsInteger(x) then None
    else if x > Arithmetic.FactorialLimit as real then None
    else
      Arithmetic.FactBounded(x.Floor);
      Some(Arithmetic.Fact(x.Floor) as real)
  }

  /** The functions whose case in `executeFunction` can throw. */
  predicate Guarded(f: Func) {
    f.Log? || f.Ln? || f.Sqrt? || f.Reciprocal? || f.Factorial?
  }

  /** The functions whose value comes straight from the floating-point library. */
  predicate FromLibrary(f: Func) {
    || f.Sin? || f.Cos? || f.Tan? || f.Asin? || f.Acos? || f.Atan?
    || f.Exp? || f.Pow10? || f.Cbrt? || f.Pi? || f.E?
  }

  /**
   * The cases of `executeFunction` that check their input: log and ln of a
   * non-positive number, sqrt of a negative one, the reciprocal of zero and
   * factorial outside its domain throw.
   */
  function Checked(f: Func, x: real, math: (Func, real) -> real): (r: Option<real>)
    requires Guarded(f)
    ensures (f.Log? || f.Ln?) ==> (r.None? <==> x <= 0.0)
    ensures f.Sqrt? ==> (r.None? <==> x < 0.0)
    ensures (f.Log? || f.Ln? || f.Sqrt?) && r.Some? ==> r.value == math(f, x)
    ensures f.Reciprocal? ==> (r.None? <==> x == 0.0) && (r.Some? ==> r.value * x == 1.0)
    ensures f.Factorial? ==> r == FactorialOf(x)
  {
    match f
    case Log | Ln => if x <= 0.0 then None else Some(math(f, x))
    case Sqrt => if x < 0.0 then None else Some(math(f, x))
    case Reciprocal => if x == 0.0 then None else Some(1.0 / x)
    case Factorial => FactorialOf(x)
  }

  /**
   * The value `executeFunction` computes for `f` at `x`, or None where it
   * throws. Power is not a value: it hands over to the operator chain.
   */
  function Apply(f: Func, x: real, math: (Func, real) -> real): (r: Option<real>)
    requires f != Power
    ensures r.None? ==> Guarded(f)
    ensures Guarded(f) ==> r == Checked(f, x, math)
    ensures f == Factorial ==> r == FactorialOf(x)
    ensures f == Square ==> r.Some? && r.value >= 0.0 && r.value == x * x
    ensures f == Cube ==> r == Some(x * x * x)
    ensures f == Abs ==> r.Some? && r.value >= 0.0 && (r.value == x || r.value == -x)
    ensures FromLibrary(f) ==> r == Some(math(f, x))
  {
    if Guarded(f) then Checked(f, x, math)
    else
      match f
      case Square => Some(x * x)
      case Cube => Some(x * x * x)
      case Abs => Some(if x < 0.0 then -x else x)
      case _ => Some(math(f, x))
  }
}
