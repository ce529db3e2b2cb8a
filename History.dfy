/**
 * The calculation history: a newest-first list of entry strings capped at ten
 * (`addToHistory`), and the read-back of a selected entry, which takes the
 * text after the " = " separator (`useHistoryItem`).
 */
module History {
  import opened Wrappers

  /** The most entries the history keeps. */
  const Capacity: nat := 10

  /** The history after `addToHistory(entry)`: the entry goes first, and one oldest entry is dropped past the cap. */
  function Recorded(h: seq<string>, entry: string): (r: seq<string>)
    ensures |r| >= 1 && r[0] == entry
    ensures |h| < Capacity ==> r[1..] == h
    ensures |h| == Capacity ==> r[1..] == h[..Capacity - 1]
    ensures |h| <= Capacity ==> |r| <= Capacity
  {
    var u := [entry] + h;
    if |u| > Capacity then u[..|u| - 1] else u
  }

  /** The history after recording `entries` in order, the last one most recently. */
  function RecordedAll(h: seq<string>, entries: seq<string>): seq<string>
    decreases |entries|
  {
    if entries == [] then h
    else Recorded(RecordedAll(h, entries[..|entries| - 1]), entries[|entries| - 1])
  }

  function Reverse(s: seq<string>): (r: seq<string>)
    ensures |r| == |s|
    decreases |s|
  {
    if s == [] then [] else [s[|s| - 1]] + Reverse(s[..|s| - 1])
  }

  function Min(a: nat, b: nat): nat {
    if a < b then a else b
  }

  /**
   * Whatever was recorded, the history holds the ten most recent entries,
   * newest first, followed by as much of the earlier history as still fits.
   */
  lemma {:induction false} RecordedAllKeepsNewest(h: seq<string>, entries: seq<string>)
    requires |h| <= Capacity
    ensures RecordedAll(h, entries) == (Reverse(entries) + h)[..Min(|entries| + |h|, Capacity)]
    decreases |entries|
  {
    if entries != [] {
      var earlier := entries[..|entries| - 1];
      var last := entries[|entries| - 1];
      RecordedAllKeepsNewest(h, earlier);
      var x := Reverse(earlier) + h;
      var n := Min(|x|, Capacity);
      assert RecordedAll(h, earlier) == x[..n];
      assert Reverse(entries) + h == [last] + x;
      if |x| >= Capacity {
        assert Recorded(x[..n], last) == [last] + x[..Capacity - 1];
        assert ([last] + x)[..Capacity] == [last] + x[..Capacity - 1];
      } else {
        assert x[..n] == x;
        assert ([last] + x)[..|x| + 1] == [last] + x;
      }
    }
  }

  /** Eleven recordings into an empty history leave the ten newest, newest first, and drop the oldest. */
  lemma EleventhEvictsOldest(entries: seq<string>)
    requires |entries| == Capacity + 1
    ensures RecordedAll([], entries) == Reverse(entries[1..])
    ensures |RecordedAll([], entries)| == Capacity
    ensures RecordedAll([], entries)[0] == entries[Capacity]
  {
    RecordedAllKeepsNewest([], entries);
    assert entries == [entries[0]] + entries[1..];
    ReverseAppend(entries[0], entries[1..]);
    assert Reverse(entries) + [] == Reverse(entries);
  }

  lemma {:induction false} ReverseAppend(x: string, s: seq<string>)
    ensures Reverse([x] + s) == Reverse(s) + [x]
    decreases |s|
  {
    if s != [] {
      var t := [x] + s;
      assert t[..|t| - 1] == [x] + s[..|s| - 1];
      ReverseAppend(x, s[..|s| - 1]);
    } else {
      assert [x] + s == [x];
    }
  }

  /** The separator between a calculation and its result. */
  const Separator: string := " = "

  predicate SeparatorAt(s: string, i: int) {
    0 <= i && i + |Separator| <= |s| && s[i..i + |Separator|] == Separator
  }

  /** The first position at or after `from` where the separator starts. */
  function FindSeparator(s: string, from: nat): (r: Option<nat>)
    ensures r.Some? ==> from <= r.value && SeparatorAt(s, r.value)
    ensures forall i :: from <= i && (r.None? || i < r.value) ==> !SeparatorAt(s, i)
    decreases |s| - from
  {
    if from + |Separator| > |s| then None
    else if SeparatorAt(s, from) then Some(from)
    else FindSeparator(s, from + 1)
  }

  /**
   * `calculation.split(' = ')[1]`: the text between the first separator and
   * the next one (or the end), absent when there is no separator.
   */
  function SecondField(s: string): (r: Option<string>)
    ensures r.None? <==> forall i :: !SeparatorAt(s, i)
    ensures r.Some? ==> forall k :: !SeparatorAt(r.value, k)
    ensures r.Some? ==>
      && FindSeparator(s, 0).Some?
      && var start := FindSeparator(s, 0).value + |Separator|;
      && start + |r.value| <= |s|
      && r.value == s[start..start + |r.value|]
      && (start + |r.value| == |s| || SeparatorAt(s, start + |r.value|))
      && forall i :: start <= i < start + |r.value| ==> !SeparatorAt(s, i)
  {
    match FindSeparator(s, 0)
    case None => None
    case Some(i) =>
      var start := i + |Separator|;
      match FindSeparator(s, start)
      case None =>
        FieldFree(s, start, |s|);
        assert s[start..] == s[start..|s|];
        Some(s[start..])
      case Some(j) =>
        FieldFree(s, start, j);
        Some(s[start..j])
  }

  /** A stretch of `s` in which no separator starts has no separator inside it either. */
  lemma FieldFree(s: string, start: nat, end: nat)
    requires start <= end <= |s|
    requires forall i :: start <= i < end ==> !SeparatorAt(s, i)
    ensures forall k :: !SeparatorAt(s[start..end], k)
  {
    var field := s[start..end];
    forall k | SeparatorAt(field, k) ensures start <= start + k < end && SeparatorAt(s, start + k) {
      assert field[k] == s[start + k] && field[k + 1] == s[start + k + 1] && field[k + 2] == s[start + k + 2];
    }
  }

  /** An entry of the form `before = after`, with no '=' in either part, reads back as `after`. */
  lemma SecondFieldReadsBack(before: string, after: string)
    requires '=' !in before && '=' !in after
    ensures SecondField(before + Separator + after) == Some(after)
  {
    var s := before + Separator + after;
    var n := |before|;
    forall i | SeparatorAt(s, i) ensures i == n {
      assert s[i + 1] == '=';
    }
    assert SeparatorAt(s, n) by {
      assert s[n..n + 3] == Separator;
    }
    assert FindSeparator(s, 0) == Some(n);
    assert FindSeparator(s, n + 3) == None;
    assert s[n + 3..] == after;
  }
}
