/**
 * Editing of the entry string `currentInput`: digit entry, the decimal point,
 * backspace and the sign toggle. These are the string rules of `inputNumber`
 * and of `handleUtility`'s "decimal", "backspace" and "negate" cases, apart
 * from the waiting-for-operand branches, which the engine handles itself.
 */
module Entry {
  import opened Numerals

  /** The not-waiting branch of `inputNumber`: the sentinel "0" is replaced, any other entry extended. */
  function AppendDigit(current: string, digit: string): (r: string)
    ensures |digit| <= |r| && r[|r| - |digit|..] == digit
    ensures current == "0" ==> r == digit
    ensures current != "0" ==> |r| == |current| + |digit| && r[..|current|] == current
  {
    if current == "0" then digit else current + digit
  }

  /** The entry after typing the characters of `keys` one at a time, starting from `current`. */
  function Typed(current: string, keys: string): string
    decreases |keys|
  {
    if keys == [] then current else Typed(AppendDigit(current, [keys[0]]), keys[1..])
  }

  /** Once the entry is past the sentinel, typing only appends. */
  lemma {:induction false} TypedExtends(current: string, keys: string)
    requires current != [] && current != "0"
    ensures Typed(current, keys) == current + keys
    decreases |keys|
  {
    if keys != [] {
      var next := current + [keys[0]];
      assert |next| >= 2;
      TypedExtends(next, keys[1..]);
      assert next + keys[1..] == current + keys;
    }
  }

  /** Typing a numeral without a redundant leading zero on a fresh entry reproduces it exactly. */
  lemma TypedFromSentinel(keys: string)
    requires keys != [] && keys[0] != '0'
    ensures Typed("0", keys) == keys
  {
    var first := [keys[0]];
    assert AppendDigit("0", first) == first;
    TypedExtends(first, keys[1..]);
    assert first + keys[1..] == keys;
  }

  /** A zero typed on the sentinel is absorbed: the entry never reads "00". */
  lemma LeadingZeroAbsorbed(keys: string)
    ensures Typed("0", "0" + keys) == Typed("0", keys)
  {
  }

  /** The not-waiting branch of the "decimal" action: a point is added only if there is none. */
  function AddPoint(current: string): (r: string)
    ensures '.' in r
    ensures |current| <= |r| <= |current| + 1 && r[..|current|] == current
    ensures '.' in current ==> r == current
  {
    if '.' in current then current else current + "."
  }

  /** The "backspace" action. */
  function Backspace(current: string): (r: string)
    ensures r != []
    ensures |current| > 1 ==> r + [current[|current| - 1]] == current
    ensures |current| <= 1 ==> r == "0"
  {
    if |current| > 1 then current[..|current| - 1] else "0"
  }

  /** The "negate" action: toggles a leading '-' on every entry except "0". */
  function Negate(current: string): (r: string)
    ensures current == "0" ==> r == current
    ensures current != "0" ==>
      || (|r| > 0 && r[0] == '-' && r[1..] == current)
      || (|current| > 0 && current[0] == '-' && current[1..] == r)
    ensures |current| > 0 && current[0] == '-' ==> r == current[1..]
  {
    if current == "0" then current
    else if |current| > 0 && current[0] == '-' then current[1..]
    else "-" + current
  }

  /** Negating twice restores the entry, except on "-0", which comes back as "0", and on entries starting with "--". */
  lemma NegateTwice(s: string)
    requires s != "-0" && !(|s| >= 2 && s[0] == '-' && s[1] == '-')
    ensures Negate(Negate(s)) == s
  {
    if s != "0" && |s| > 0 && s[0] == '-' {
      assert s == "-" + s[1..];
    }
  }

  /** The two entries on which the sign toggle does not behave like a sign toggle. */
  lemma NegateEdgeCases()
    ensures Negate(Negate("-0")) == "0"
    ensures Negate("-") == ""
  {
  }

  /** Negating the entry negates the number it reads as (unless it starts with "--"). */
  lemma NegateValue(s: string)
    requires !(|s| >= 2 && s[0] == '-' && s[1] == '-')
    ensures ParseFloat(Negate(s)) == -ParseFloat(s)
  {
    if s == "0" {
      ParseDigits(s);
      assert Natural(s) == 10 * Natural(s[..0]) + DigitValue('0');
    } else if |s| > 0 && s[0] == '-' {
    } else {
      assert ("-" + s)[1..] == s;
    }
  }

  /** Adding the point never changes the number the entry reads as. */
  lemma AddPointValue(s: string)
    ensures ParseFloat(AddPoint(s)) == ParseFloat(s)
  {
    if '.' !in s {
      AppendPointValue(s);
    }
  }

  /** The number of decimal points in `s`. */
  function Points(s: string): nat {
    if s == [] then 0 else (if s[0] == '.' then 1 else 0) + Points(s[1..])
  }

  lemma {:induction false} PointsConcat(a: string, b: string)
    ensures Points(a + b) == Points(a) + Points(b)
  {
    if a != [] {
      assert (a + b)[1..] == a[1..] + b;
      PointsConcat(a[1..], b);
    } else {
      assert a + b == b;
    }
  }

  lemma {:induction false} PointsPresent(s: string)
    ensures '.' in s <==> Points(s) > 0
  {
    if s != [] {
      PointsPresent(s[1..]);
      assert s == [s[0]] + s[1..];
    }
  }

  /**
   * The editing actions never create a second decimal point: digit entry,
   * the point itself, backspace and negate, in both the waiting and the
   * editing state. Digit input is one character here, as real key values
   * and button values are; the keyboard's range test would also pass longer
   * keys such as "0.5" (`Keyboard.DigitRangeKeys`), which could add a second point.
   */
  lemma EditingKeepsOnePoint(s: string, c: char)
    requires Points(s) <= 1 && c != '.'
    ensures Points(AppendDigit(s, [c])) <= 1
    ensures Points([c]) == 0 && Points("0.") == 1
    ensures Points(AddPoint(s)) == 1
    ensures Points(Backspace(s)) <= 1
    ensures Points(Negate(s)) <= 1
  {
    PointsConcat(s, [c]);
    PointsConcat(s, ".");
    PointsPresent(s);
    if |s| > 1 {
      PointsConcat(s[..|s| - 1], [s[|s| - 1]]);
      assert s[..|s| - 1] + [s[|s| - 1]] == s;
    }
    PointsConcat("-", s);
    if |s| > 0 {
      assert s == [s[0]] + s[1..];
    }
    assert "0."[1..] == ".";
  }
}
