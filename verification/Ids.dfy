/** Sort keys (`tree_agent/server/ids.py`).

  A sort key is a word over a 62-character alphabet listed in ascending byte order.
  Keys are modelled as digit sequences; `SpellingKeepsOrder` shows that comparing the
  spelled strings, as SQLite and Python do, is comparing the digit sequences.

  The counter steps are defined through the number a key denotes, the middle insert
  through the first position that has room; the methods carry the source's loops and
  are proved to compute exactly these. The empty key stands for both `None` and `""`,
  which the source never tells apart. */
module Ids {

  const BASE: int := 62
  const MID: Digit := 31
  const TOP: Digit := 61
  const MAX_RANK_LENGTH: nat := 48
  const RANK_WIDTH: nat := 4
  const FIRST_RANK: Key := [31, 0, 0, 1]

  type Digit = d: int | 0 <= d < 62
  type Key = seq<Digit>

  /** `Exhausted` is the source's `RankExhausted` exception. */
  datatype Ranked = Rank(key: Key) | Exhausted

  // ------------------------------------------------------------------ order

  /** Python's and SQLite's string order: a proper prefix comes first. */
  predicate Less(a: Key, b: Key)
    decreases |b|
  {
    b != [] && (a == [] || a[0] < b[0] || (a[0] == b[0] && Less(a[1..], b[1..])))
  }

  ghost predicate Agree(a: Key, b: Key, n: nat) {
    n <= |a| && n <= |b| && forall q :: 0 <= q < n ==> a[q] == b[q]
  }

  /** Position `p` decides `Less(a, b)`. */
  ghost predicate Decides(a: Key, b: Key, p: nat) {
    Agree(a, b, p) && p < |b| && (p == |a| || a[p] < b[p])
  }

  lemma {:induction false} DecidesLess(a: Key, b: Key, p: nat)
    requires Decides(a, b, p)
    ensures Less(a, b)
    decreases p
  {
    if p > 0 {
      DecidesLess(a[1..], b[1..], p - 1);
    }
  }

  lemma {:induction false} LessDecides(a: Key, b: Key) returns (p: nat)
    requires Less(a, b)
    ensures Decides(a, b, p)
    decreases |b|
  {
    if a == [] || a[0] < b[0] {
      p := 0;
    } else {
      var q := LessDecides(a[1..], b[1..]);
      p := q + 1;
      assert a == [a[0]] + a[1..] && b == [b[0]] + b[1..];
    }
  }

  lemma {:induction false} LessTransitive(a: Key, b: Key, c: Key)
    requires Less(a, b) && Less(b, c)
    ensures Less(a, c)
    decreases |c|
  {
    if a != [] && a[0] == b[0] == c[0] {
      LessTransitive(a[1..], b[1..], c[1..]);
    }
  }

  lemma {:induction false} LessIrreflexive(a: Key)
    ensures !Less(a, a)
    decreases |a|
  {
    if a != [] { LessIrreflexive(a[1..]); }
  }

  lemma {:induction false} LessTotal(a: Key, b: Key)
    ensures Less(a, b) || a == b || Less(b, a)
    decreases |b|
  {
    if a != [] && b != [] && a[0] == b[0] {
      LessTotal(a[1..], b[1..]);
      assert a == [a[0]] + a[1..] && b == [b[0]] + b[1..];
    }
  }

  function CharOf(d: Digit): char {
    if d < 10 then ('0' as int + d) as char
    else if d < 36 then ('A' as int + d - 10) as char
    else ('a' as int + d - 36) as char
  }

  function Spell(k: Key): (s: string)
    ensures |s| == |k|
  {
    if k == [] then [] else [CharOf(k[0])] + Spell(k[1..])
  }

  /** Byte order of the spelled keys, as `ORDER BY sort_key` compares them. */
  predicate TextLess(s: string, t: string)
    decreases |t|
  {
    t != [] && (s == [] || s[0] < t[0] || (s[0] == t[0] && TextLess(s[1..], t[1..])))
  }

  lemma {:induction false} SpellingKeepsOrder(a: Key, b: Key)
    ensures TextLess(Spell(a), Spell(b)) <==> Less(a, b)
    decreases |b|
  {
    if a != [] && b != [] {
      assert Spell(a)[1..] == Spell(a[1..]) && Spell(b)[1..] == Spell(b[1..]);
      SpellingKeepsOrder(a[1..], b[1..]);
    }
  }

  // ---------------------------------------------------------------- numbers

  /** `v` followed by `n` zero digits, that is `v * 62^n`. */
  function Shift(v: nat, n: nat): nat {
    if n == 0 then v else 62 * Shift(v, n - 1)
  }

  function Pow(n: nat): nat { Shift(1, n) }

  lemma {:induction false} ShiftAdds(u: nat, v: nat, n: nat)
    ensures Shift(u + v, n) == Shift(u, n) + Shift(v, n)
    decreases n
  {
    if n > 0 { ShiftAdds(u, v, n - 1); }
  }

  lemma {:induction false} ShiftGrows(v: nat, n: nat)
    ensures v <= Shift(v, n)
    decreases n
  {
    if n > 0 { ShiftGrows(v, n - 1); }
  }

  /** The number a key denotes as a base-62 numeral. */
  function Value(k: Key): nat {
    if k == [] then 0 else Value(k[..|k| - 1]) * 62 + k[|k| - 1]
  }

  /** The `w`-digit numeral of `v`. */
  function KeyOf(w: nat, v: nat): (k: Key)
    ensures |k| == w
  {
    if w == 0 then [] else KeyOf(w - 1, v / 62) + [v % 62]
  }

  /** A larger leading digit outweighs any tail below one unit of it. */
  lemma LeadingDigit(x: nat, y: nat, n: nat, u: nat, v: nat)
    requires x < y && u < Pow(n)
    ensures Shift(x, n) + u < Shift(y, n) + v
  {
    ShiftAdds(x, 1, n);
    ShiftAdds(x + 1, y - x - 1, n);
  }


  lemma {:induction false} ValueBound(k: Key)
    ensures Value(k) < Pow(|k|)
    decreases |k|
  {
    if k != [] { ValueBound(k[..|k| - 1]); }
  }

  lemma {:induction false} ValueOfKeyOf(w: nat, v: nat)
    requires v < Pow(w)
    ensures Value(KeyOf(w, v)) == v
    decreases w
  {
    if w > 0 {
      ValueOfKeyOf(w - 1, v / 62);
      var k := KeyOf(w, v);
      assert k[..|k| - 1] == KeyOf(w - 1, v / 62);
    }
  }

  lemma {:induction false} KeyOfValue(k: Key)
    ensures KeyOf(|k|, Value(k)) == k
    decreases |k|
  {
    if k != [] {
      KeyOfValue(k[..|k| - 1]);
      assert Value(k) / 62 == Value(k[..|k| - 1]) && Value(k) % 62 == k[|k| - 1];
    }
  }

  lemma {:induction false} ValueConcat(a: Key, b: Key)
    ensures Value(a + b) == Shift(Value(a), |b|) + Value(b)
    decreases |b|
  {
    if b == [] {
      assert a + b == a;
    } else {
      var c := b[..|b| - 1];
      ValueConcat(a, c);
      assert (a + b)[..|a + b| - 1] == a + c;
    }
  }

  /** Same-width keys are ordered as the numbers they denote. */
  lemma {:induction false} ValueOrder(a: Key, b: Key)
    requires |a| == |b|
    ensures Less(a, b) <==> Value(a) < Value(b)
    decreases |b|
  {
    if a != [] {
      var x, y := a[1..], b[1..];
      ValueOrder(x, y);
      ValueCons(a);
      ValueCons(b);
      ValueBound(x);
      ValueBound(y);
      if a[0] < b[0] {
        LeadingDigit(a[0], b[0], |x|, Value(x), Value(y));
      } else if b[0] < a[0] {
        LeadingDigit(b[0], a[0], |x|, Value(y), Value(x));
      }
    }
  }

  lemma ValueCons(k: Key)
    requires k != []
    ensures Value(k) == Shift(k[0], |k| - 1) + Value(k[1..])
  {
    assert k == [k[0]] + k[1..];
    ValueConcat([k[0]], k[1..]);
    assert Value([k[0]]) == k[0];
  }

  function Fill(n: nat, d: Digit): (k: Key)
    ensures |k| == n && forall i :: 0 <= i < n ==> k[i] == d
  {
    seq(n, _ => d)
  }

  lemma {:induction false} ValueOfFill(n: nat)
    ensures Value(Fill(n, 0)) == 0
    ensures Value(Fill(n, TOP)) == Pow(n) - 1
    decreases n
  {
    if n > 0 {
      ValueOfFill(n - 1);
      assert Fill(n, 0)[..n - 1] == Fill(n - 1, 0);
      assert Fill(n, TOP)[..n - 1] == Fill(n - 1, TOP);
    }
  }

  // --------------------------------------------------------- counter steps

  /** A well-formed key is not empty and does not end in the lowest digit. */
  predicate WellFormed(k: Key) { k != [] && k[|k| - 1] != 0 }

  predicate AllTop(k: Key) { forall i :: 0 <= i < |k| ==> k[i] == TOP }

  /** The next number whose numeral does not end in zero. */
  function NextValue(v: nat): nat { if (v + 1) % 62 == 0 then v + 2 else v + 1 }

  function PrevValue(v: nat): nat
    requires v > 1
  {
    if v % 62 == 1 then v - 2 else v - 1
  }

  function After(last: Key): Ranked {
    if last == [] then Rank(FIRST_RANK)
    else if Value(last) + 1 < Pow(|last|) then Rank(KeyOf(|last|, NextValue(Value(last))))
    else if |last| >= MAX_RANK_LENGTH then Exhausted
    else Rank(last + [1])
  }

  function Before(first: Key): Ranked {
    if first == [] then Rank(FIRST_RANK)
    else if Value(first) > 1 then Rank(KeyOf(|first|, PrevValue(Value(first))))
    else Exhausted
  }

  /** Incrementing a digit above a tail of top digits adds one to the number. */
  lemma CarryValue(head: Key, d: Digit, m: nat)
    requires d < TOP
    ensures Value(head + [d + 1] + Fill(m, 0)) == Value(head + [d] + Fill(m, TOP)) + 1
  {
    ThenFill(head + [d], m);
    ThenFill(head + [d + 1], m);
    ShiftAdds(Value(head) * 62 + d, 1, m);
  }

  lemma ThenFill(k: Key, m: nat)
    ensures Value(k + Fill(m, 0)) == Shift(Value(k), m)
    ensures Value(k + Fill(m, TOP)) == Shift(Value(k), m) + Pow(m) - 1
  {
    ValueConcat(k, Fill(m, 0));
    ValueConcat(k, Fill(m, TOP));
    ValueOfFill(m);
  }

  lemma LastDigit(k: Key)
    requires k != []
    ensures Value(k) % 62 == k[|k| - 1]
  {}


  lemma ByValue(k: Key, w: nat, v: nat)
    requires |k| == w && Value(k) == v
    ensures k == KeyOf(w, v)
  {
    KeyOfValue(k);
  }

  /** The carry followed by the trailing-zero fix-up is the next counter value. */
  lemma Carried(last: Key, i: nat)
    requires i < |last| && last[i] < TOP
    requires forall j :: i < j < |last| ==> last[j] == TOP
    ensures var k := last[..i] + [last[i] + 1] + Fill(|last| - i - 1, 0);
            After(last) == Rank(if k[|k| - 1] == 0 then k[|k| - 1 := 1] else k)
  {
    var k := last[..i] + [last[i] + 1] + Fill(|last| - i - 1, 0);
    assert last == last[..i] + [last[i]] + Fill(|last| - i - 1, TOP);
    CarryValue(last[..i], last[i], |last| - i - 1);
    ValueBound(last);
    TopIsLargest(last);
    LastDigit(k);
    ByValue(if k[|k| - 1] == 0 then k[|k| - 1 := 1] else k, |last|, NextValue(Value(last)));
  }

  /** `rank_after`: the carry loop and the trailing-zero fix-up compute `After`. */
  method RankAfter(last: Key) returns (r: Ranked)
    ensures r == After(last)
  {
    if last == [] {
      return Rank(FIRST_RANK);
    }
    var digits := last;
    var i := |digits| - 1;
    while i >= 0
      invariant -1 <= i < |last| && digits == last
      invariant forall j :: i < j < |last| ==> last[j] == TOP
    {
      if digits[i] + 1 < BASE {
        digits := digits[i := digits[i] + 1];
        var j := i + 1;
        while j < |digits|
          invariant i < j <= |last| && |digits| == |last|
          invariant digits[..i] == last[..i] && digits[i] == last[i] + 1
          invariant forall q :: i < q < j ==> digits[q] == 0
        {
          digits := digits[j := 0];
          j := j + 1;
        }
        assert digits == last[..i] + [last[i] + 1] + Fill(|last| - i - 1, 0);
        Carried(last, i);
        if digits[|digits| - 1] == 0 {
          digits := digits[|digits| - 1 := 1];
        }
        return Rank(digits);
      }
      i := i - 1;
    }
    assert last == Fill(|last|, TOP);
    ValueOfFill(|last|);
    if |last| >= MAX_RANK_LENGTH {
      return Exhausted;
    }
    return Rank(last + [1]);
  }

  /** Decrementing a digit above a tail of zeros takes one from the number. */
  lemma BorrowValue(head: Key, d: Digit, m: nat)
    requires d > 0
    ensures Value(head + [d - 1] + Fill(m, TOP)) + 1 == Value(head + [d] + Fill(m, 0))
    ensures Value(head + [d] + Fill(m, 0)) >= Pow(m)
  {
    ThenFill(head + [d - 1], m);
    ThenFill(head + [d], m);
    ShiftAdds(Value(head) * 62 + d - 1, 1, m);
  }

  lemma AtLeastBase(n: nat)
    requires n > 0
    ensures Pow(n) >= 62
  {
    ShiftGrows(1, n - 1);
  }

  /** What a borrow does when the end digit, 0 or 1, also turns into the top digit. */
  lemma BorrowPastEnd(first: Key, head: Key, d: Digit, m: nat)
    requires m > 0 && first != [] && first[|first| - 1] <= 1 && d > 0
    requires first[|first| - 1 := 0] == head + [d] + Fill(m, 0)
    ensures Value(first) > 1
    ensures Value(head + [d - 1] + Fill(m, TOP)) == PrevValue(Value(first))
  {
    BorrowValue(head, d, m);
    AtLeastBase(m);
  }


  /** `rank_before`: the borrow loop computes `Before`. */
  method RankBefore(first: Key) returns (r: Ranked)
    ensures r == Before(first)
  {
    if first == [] {
      return Rank(FIRST_RANK);
    }
    var digits := first;
    var lastIndex := |digits| - 1;
    var i := lastIndex;
    while i >= 0
      invariant -1 <= i <= lastIndex && digits == first
      invariant forall j :: i < j < lastIndex ==> first[j] == 0
      invariant i < lastIndex ==> first[lastIndex] <= 1
    {
      var floor := if i == lastIndex then 1 else 0;
      if digits[i] > floor {
        digits := digits[i := digits[i] - 1];
        var j := i + 1;
        while j < |digits|
          invariant i < j <= |first| && |digits| == |first|
          invariant digits[..i] == first[..i] && digits[i] == first[i] - 1
          invariant forall q :: i < q < j ==> digits[q] == TOP
        {
          digits := digits[j := TOP];
          j := j + 1;
        }
        LastDigit(first);
        if i < lastIndex {
          assert digits == first[..i] + [first[i] - 1] + Fill(|first| - i - 1, TOP);
          assert first[lastIndex := 0] == first[..i] + [first[i]] + Fill(lastIndex - i, 0);
          BorrowPastEnd(first, first[..i], first[i], lastIndex - i);
        } else {
          assert digits == first[lastIndex := first[lastIndex] - 1];
        }
        ByValue(digits, |first|, PrevValue(Value(first)));
        return Rank(digits);
      }
      i := i - 1;
    }
    assert first[..lastIndex] == Fill(lastIndex, 0);
    ValueOfFill(lastIndex);
    return Exhausted;
  }

  lemma StepWellFormed(w: nat, v: nat)
    requires w > 0 && v < Pow(w) && v % 62 != 0
    ensures WellFormed(KeyOf(w, v)) && Value(KeyOf(w, v)) == v
  {
    ValueOfKeyOf(w, v);
    LastDigit(KeyOf(w, v));
  }

  /** An append lands strictly after, keeps the no-trailing-zero rule, and either keeps
      the width or adds one character; it fails only on a long key of top digits. */
  lemma AfterIsNext(last: Key)
    requires last == [] || WellFormed(last)
    ensures After(last).Exhausted? <==> last != [] && AllTop(last) && |last| >= MAX_RANK_LENGTH
    ensures After(last).Rank? ==>
              WellFormed(After(last).key) && Less(last, After(last).key)
              && |After(last).key| <= (if last == [] then RANK_WIDTH else if AllTop(last) then |last| + 1 else |last|)
  {
    if last != [] {
      ValueBound(last);
      TopIsLargest(last);
      if Value(last) + 1 < Pow(|last|) {
        StepWellFormed(|last|, NextValue(Value(last)));
        ValueOrder(last, KeyOf(|last|, NextValue(Value(last))));
      } else {
        DecidesLess(last, last + [1], |last|);
      }
    }
  }

  lemma TopIsLargest(k: Key)
    ensures AllTop(k) <==> Value(k) + 1 == Pow(|k|)
  {
    ValueOfFill(|k|);
    if Value(k) == Value(Fill(|k|, TOP)) {
      SameNumber(k, Fill(|k|, TOP));
    }
    assert AllTop(k) ==> k == Fill(|k|, TOP);
  }


  /** A prepend lands strictly before at the same width; it fails only at the least key. */
  lemma BeforeIsPrevious(first: Key)
    requires first == [] || WellFormed(first)
    ensures Before(first).Exhausted? <==> first != [] && Value(first) == 1
    ensures Before(first).Rank? ==>
              WellFormed(Before(first).key)
              && (first != [] ==> Less(Before(first).key, first) && |Before(first).key| == |first|)
  {
    if first != [] {
      ValueBound(first);
      LastDigit(first);
      if Value(first) > 1 {
        StepWellFormed(|first|, PrevValue(Value(first)));
        ValueOrder(KeyOf(|first|, PrevValue(Value(first))), first);
      }
    }
  }

  lemma AfterNumber(last: Key)
    requires WellFormed(last) && !AllTop(last)
    ensures After(last).Rank? && |After(last).key| == |last| && WellFormed(After(last).key)
    ensures Value(After(last).key) == NextValue(Value(last))
  {
    ValueBound(last);
    TopIsLargest(last);
    LastDigit(last);
    hide Value, Shift, KeyOf, AllTop;
    var next := NextValue(Value(last));
    assert next < Pow(|last|) by { NextFits(last); }
    StepWellFormed(|last|, next);
  }

  /** The next number has no more digits unless every digit was at the top. */
  lemma NextFits(k: Key)
    requires WellFormed(k) && !AllTop(k)
    ensures Value(k) + 1 < Pow(|k|) && NextValue(Value(k)) < Pow(|k|) && NextValue(Value(k)) % 62 != 0
  {
    ValueBound(k);
    TopIsLargest(k);
    LastDigit(k);
    PowEven(|k|);
  }

  lemma PowEven(n: nat)
    requires n > 0
    ensures Pow(n) % 62 == 0
  {}

  lemma BeforeNumber(first: Key)
    requires WellFormed(first) && Value(first) > 1
    ensures Before(first).Rank? && |Before(first).key| == |first| && WellFormed(Before(first).key)
    ensures Value(Before(first).key) == PrevValue(Value(first))
  {
    ValueBound(first);
    LastDigit(first);
    StepWellFormed(|first|, PrevValue(Value(first)));
  }

  lemma SameNumber(a: Key, b: Key)
    requires |a| == |b| && Value(a) == Value(b)
    ensures a == b
  {
    KeyOfValue(a);
    KeyOfValue(b);
  }

  /** Nothing of the same width that obeys the trailing-zero rule lies between a key and
      its successor: the counter visits every such key. */
  lemma AfterIsImmediate(last: Key, other: Key)
    requires WellFormed(last) && WellFormed(other) && !AllTop(last) && |other| == |last|
    ensures After(last).Rank?
    ensures Less(last, other) <==> other == After(last).key || Less(After(last).key, other)
  {
    AfterNumber(last);
    var next := After(last).key;
    ValueOrder(last, other);
    ValueOrder(next, other);
    LastDigit(other);
    LastDigit(last);
    NoGap(Value(last), Value(other));
    if Value(other) == Value(next) {
      SameNumber(other, next);
    }
  }

  /** While the width is kept, append and prepend undo each other. */
  lemma StepsInvert(k: Key)
    requires WellFormed(k)
    ensures !AllTop(k) ==> After(k).Rank? && Before(After(k).key) == Rank(k)
    ensures Value(k) > 1 ==> Before(k).Rank? && After(Before(k).key) == Rank(k)
  {
    LastDigit(k);
    NumberSteps(Value(k));
    if !AllTop(k) {
      AfterNumber(k);
      BeforeNumber(After(k).key);
      SameNumber(Before(After(k).key).key, k);
    }
    if Value(k) > 1 {
      BeforeNumber(k);
      var b := Before(k).key;
      ValueBound(k);
      TopIsLargest(b);
      AfterNumber(b);
      SameNumber(After(b).key, k);
    }
  }

  lemma NumberSteps(v: nat)
    requires v % 62 != 0
    ensures PrevValue(NextValue(v)) == v && NextValue(v) % 62 != 0
    ensures v > 1 ==> NextValue(PrevValue(v)) == v && PrevValue(v) % 62 != 0
    ensures Ordinal(NextValue(v)) == Ordinal(v) + 1
  {}

  lemma NoGap(v: nat, u: nat)
    requires v % 62 != 0 && u % 62 != 0
    ensures v < u <==> NextValue(v) <= u
  {}

  /** The place of a number among the numbers that do not end in zero. */
  function Ordinal(v: nat): int { v / 62 * 61 + v % 62 - 1 }

  /** `n` appends in a row, starting after `k`. */
  function Appends(k: Key, n: nat): Ranked {
    if n == 0 then Rank(k)
    else if Appends(k, n - 1).Exhausted? then Exhausted
    else After(Appends(k, n - 1).key)
  }

  /** Each append moves one ordinal forward until the width is used up. */
  lemma {:induction false} AppendsCount(k: Key, n: nat)
    requires WellFormed(k) && Ordinal(Value(k)) + n < Pow(|k| - 1) * 61
    ensures Appends(k, n).Rank? && WellFormed(Appends(k, n).key) && |Appends(k, n).key| == |k|
    ensures Ordinal(Value(Appends(k, n).key)) == Ordinal(Value(k)) + n
    decreases n
  {
    if n > 0 {
      AppendsCount(k, n - 1);
      var last := Appends(k, n - 1).key;
      OneAppend(last);
      assert Appends(k, n) == After(last);
    }
  }

  lemma OneAppend(last: Key)
    requires WellFormed(last) && Ordinal(Value(last)) + 1 < Pow(|last| - 1) * 61
    ensures After(last).Rank? && WellFormed(After(last).key) && |After(last).key| == |last|
    ensures Ordinal(Value(After(last).key)) == Ordinal(Value(last)) + 1
  {
    if AllTop(last) {
      TopOrdinal(last);
    }
    AfterNumber(last);
    LastDigit(last);
    NumberSteps(Value(last));
  }

  lemma TopOrdinal(k: Key)
    requires k != [] && AllTop(k)
    ensures Ordinal(Value(k)) == Pow(|k| - 1) * 61 - 1
  {
    TopIsLargest(k);
    assert Value(k) == (Pow(|k| - 1) - 1) * 62 + 61;
  }

  /** From the first key, 7,269,003 appends stay four characters wide and the next one
      does not. */
  lemma FirstLevelCapacity(n: nat)
    ensures n <= 7269003 ==> Appends(FIRST_RANK, n).Rank? && |Appends(FIRST_RANK, n).key| == RANK_WIDTH
    ensures n == 7269004 ==> Appends(FIRST_RANK, n).Rank? && |Appends(FIRST_RANK, n).key| == RANK_WIDTH + 1
  {
    FirstValue();
    if n <= 7269003 {
      AppendsCount(FIRST_RANK, n);
    } else if n == 7269004 {
      AppendsCount(FIRST_RANK, 7269003);
    }
  }


  lemma FirstValue()
    ensures Ordinal(Value(FIRST_RANK)) == 7269004 && Pow(3) * 61 == 14538008
  {
    assert Value([31]) == 31;
    assert [31, 0][..1] == [31];
    assert Value([31, 0]) == 1922;
    assert [31, 0, 0][..2] == [31, 0];
    assert Value([31, 0, 0]) == 119164;
    assert FIRST_RANK[..3] == [31, 0, 0];
  }

  // ------------------------------------------------------- middle inserts

  /** The digit bounding position `p` from below; -1 once `before` has run out. */
  function Low(before: Key, p: nat): int { if p < |before| then before[p] else -1 }

  function High(after: Key, p: nat): int { if p < |after| then after[p] else BASE }

  predicate Room(before: Key, after: Key, p: nat) { Low(before, p) + 1 < High(after, p) }

  /** The first position at or after `p` with room, or the length limit. */
  function FirstRoom(before: Key, after: Key, p: nat): (r: nat)
    requires p <= MAX_RANK_LENGTH
    ensures p <= r <= MAX_RANK_LENGTH
    ensures r < MAX_RANK_LENGTH ==> Room(before, after, r)
    ensures forall q :: p <= q < r ==> !Room(before, after, q)
    decreases MAX_RANK_LENGTH - p
  {
    if p == MAX_RANK_LENGTH || Room(before, after, p) then p else FirstRoom(before, after, p + 1)
  }

  /** The first `p` characters of `before`, continued with the lowest digit. */
  function Padded(before: Key, p: nat): (k: Key)
    ensures |k| == p
    ensures forall q :: 0 <= q < p ==> k[q] == if q < |before| then before[q] else 0
  {
    seq(p, q => if 0 <= q < |before| then before[q] else 0)
  }

  function Middle(before: Key, after: Key, p: nat): (d: Digit)
    requires Room(before, after, p)
    ensures Low(before, p) < d < High(after, p)
  {
    (Low(before, p) + 1 + High(after, p)) / 2
  }

  /** What the search builds at a position with room. */
  function Inserted(before: Key, after: Key, p: nat): Key
    requires Room(before, after, p)
  {
    var d := Middle(before, after, p);
    Padded(before, p) + [d] + if d == 0 then [MID] else []
  }

  function Between(before: Key, after: Key): Ranked {
    if before == [] then Before(after)
    else if after == [] then After(before)
    else if !Less(before, after) then Exhausted
    else
      var p := FirstRoom(before, after, 0);
      if p == MAX_RANK_LENGTH then Exhausted
      else
        var k := Inserted(before, after, p);
        if Less(before, k) && Less(k, after) then Rank(k) else Exhausted
  }

  /** No position short of the limit has room. */
  predicate Crowded(before: Key, after: Key) {
    forall q :: 0 <= q < MAX_RANK_LENGTH ==> !Room(before, after, q)
  }

  ghost predicate SomeDecides(a: Key, b: Key, n: nat) {
    exists q: nat :: q < n && Decides(a, b, q)
  }

  /** Up to the first position with room, the padded `before` is still a proper prefix
      of `after` or already strictly below it. */
  lemma PaddedBelow(before: Key, after: Key, p: nat)
    requires WellFormed(before) && WellFormed(after) && Less(before, after)
    requires forall q :: 0 <= q < p ==> !Room(before, after, q)
    ensures (p < |after| && Agree(Padded(before, p), after, p)) || SomeDecides(Padded(before, p), after, p)
  {
    var w := LessDecides(before, after);
    if w < p && w < |before| {
      assert Decides(Padded(before, p), after, w);
    } else if w < p {
      ZerosFollow(before, after, p);
    }
  }

  /** Past the end of a proper prefix, no room means `after` continues with zeros. */
  lemma ZerosFollow(before: Key, after: Key, p: nat)
    requires |before| < |after| && Agree(before, after, |before|)
    requires forall q :: 0 <= q < p ==> !Room(before, after, q)
    ensures forall q :: |before| <= q < p && q < |after| ==> after[q] == 0
  {
    forall q | |before| <= q < p && q < |after| ensures after[q] == 0 {
      assert !Room(before, after, q);
    }
  }

  lemma PickAboveBefore(before: Key, after: Key, p: nat, tail: Key)
    requires before != [] && Room(before, after, p)
    ensures Less(before, Padded(before, p) + [Middle(before, after, p)] + tail)
  {
    var k := Padded(before, p) + [Middle(before, after, p)] + tail;
    var w := if p < |before| then p else |before|;
    DecidesLess(before, k, w);
  }

  lemma PickBelowAfter(before: Key, after: Key, p: nat, tail: Key)
    requires WellFormed(before) && WellFormed(after) && Less(before, after)
    requires Room(before, after, p) && forall q :: 0 <= q < p ==> !Room(before, after, q)
    ensures Less(Padded(before, p) + [Middle(before, after, p)] + tail, after)
  {
    var k := Padded(before, p) + [Middle(before, after, p)] + tail;
    PaddedBelow(before, after, p);
    if p < |after| && Agree(Padded(before, p), after, p) {
      DecidesLess(k, after, p);
    } else {
      var q: nat :| q < p && Decides(Padded(before, p), after, q);
      DecidesLess(k, after, q);
    }
  }

  /** At the first position with room, a key strictly between two well-formed neighbours;
      the final order check of the search cannot fire. */
  lemma InsertedBetween(before: Key, after: Key, p: nat)
    requires WellFormed(before) && WellFormed(after) && Less(before, after)
    requires Room(before, after, p) && forall q :: 0 <= q < p ==> !Room(before, after, q)
    ensures Less(before, Inserted(before, after, p)) && Less(Inserted(before, after, p), after)
  {
    var tail := if Middle(before, after, p) == 0 then [MID] else [];
    PickAboveBefore(before, after, p, tail);
    PickBelowAfter(before, after, p, tail);
  }

  /** The rank between two well-formed keys: it is strictly between them, it is
      well-formed, it is at most one character longer than the longer neighbour and never
      longer than 49, and asking fails exactly when no position has room, so only when a
      neighbour already has 48 characters. */
  lemma BetweenIsBetween(before: Key, after: Key)
    requires WellFormed(before) && WellFormed(after) && Less(before, after)
    ensures Between(before, after).Exhausted? <==> Crowded(before, after)
    ensures Between(before, after).Exhausted? ==> |before| >= MAX_RANK_LENGTH || |after| >= MAX_RANK_LENGTH
    ensures Between(before, after).Rank? ==>
              var k := Between(before, after).key;
              Less(before, k) && Less(k, after) && WellFormed(k)
              && |k| <= MAX_RANK_LENGTH + 1 && (|k| <= |before| + 1 || |k| <= |after| + 1)
  {
    var p := FirstRoom(before, after, 0);
    var longer := if |before| > |after| then |before| else |after|;
    assert Room(before, after, longer);
    if p < MAX_RANK_LENGTH { InsertedBetween(before, after, p); }
  }

  /** The first room is at `n`, where `after` still has a digit 1 and `before` none: only
      there is the middle digit zero at the very last position. */
  predicate LastSlot(before: Key, after: Key) {
    var last := MAX_RANK_LENGTH - 1;
    |before| <= last < |after| && after[last] == 1 && forall q :: 0 <= q < last ==> !Room(before, after, q)
  }

  lemma InsertedLength(before: Key, after: Key, p: nat)
    requires Room(before, after, p)
    ensures |Inserted(before, after, p)| == p + if Low(before, p) == -1 && High(after, p) == 1 then 2 else 1
  {}

  /** The documentation bounds keys by 48 characters. A returned key has 49 exactly when the
      only room is the digit 0 at the last position. */
  lemma LongestExact(before: Key, after: Key)
    requires WellFormed(before) && WellFormed(after) && Less(before, after) && Between(before, after).Rank?
    ensures |Between(before, after).key| == MAX_RANK_LENGTH + 1 <==> LastSlot(before, after)
  {
    hide Less, Inserted;
    var last := MAX_RANK_LENGTH - 1;
    var p := FirstRoom(before, after, 0);
    InsertedLength(before, after, p);
    assert Between(before, after).key == Inserted(before, after, p);
    if LastSlot(before, after) {
      assert Room(before, after, last);
      assert p == last;
    }
  }

  /** Two keys whose gap is filled by a key of 49 characters. */
  lemma KeyOfFortyNine()
    ensures var before, after := [5], [5] + Fill(46, 0) + [1];
            WellFormed(before) && WellFormed(after) && Less(before, after) && Between(before, after).Rank?
            && |Between(before, after).key| == MAX_RANK_LENGTH + 1
  {
    var before, after := [5], [5] + Fill(46, 0) + [1];
    DecidesLess(before, after, 1);
    forall q | 0 <= q < 47 ensures !Room(before, after, q) {}
    assert Room(before, after, 47);
    BetweenIsBetween(before, after);
    LongestExact(before, after);
  }

  /** `rank_between`, on any keys, well-formed or not: the digit loop with its final order
      check computes `Between`. */
  method RankBetween(before: Key, after: Key) returns (r: Ranked)
    ensures r == Between(before, after)
  {
    if before == [] || after == [] {
      if before == [] {
        r := RankBefore(after);
      } else {
        r := RankAfter(before);
      }
      return;
    }
    if !Less(before, after) {
      return Exhausted;
    }
    var out: Key := [];
    var position := 0;
    while |out| < MAX_RANK_LENGTH
      invariant position == |out| <= MAX_RANK_LENGTH
      invariant out == Padded(before, position)
      invariant FirstRoom(before, after, 0) == FirstRoom(before, after, position)
    {
      var low := if position < |before| then before[position] else -1;
      var high := if position < |after| then after[position] else BASE;
      if low + 1 < high {
        out := out + [(low + 1 + high) / 2];
        if out[|out| - 1] == 0 {
          out := out + [MID];
        }
        assert out == Inserted(before, after, position);
        if !Less(before, out) || !Less(out, after) {
          return Exhausted;
        }
        return Rank(out);
      }
      out := out + [if low >= 0 then low else 0];
      position := position + 1;
    }
    return Exhausted;
  }

  /** The documentation says the rank fails when the gap cannot be filled within the
      length limit. Once the neighbours have parted, though, the search still bounds itself
      by the digits of `after`; here it fails although two characters would do. */
  lemma SpuriousExhaustion()
    ensures var before, after := [10] + Fill(47, 5), [11] + Fill(47, 1);
            WellFormed(before) && WellFormed(after) && Between(before, after).Exhausted?
            && Less(before, [10, 6]) && Less([10, 6], after)
  {
    var before, after := [10] + Fill(47, 5), [11] + Fill(47, 1);
    assert Crowded(before, after);
    DecidesLess(before, [10, 6], 1);
    DecidesLess([10, 6], after, 0);
    DecidesLess(before, after, 0);
  }

  /** Length of the longest common prefix. */
  function Common(a: Key, b: Key): (n: nat)
    ensures Agree(a, b, n)
    ensures n < |a| && n < |b| ==> a[n] != b[n]
    decreases |a|
  {
    if a == [] || b == [] || a[0] != b[0] then 0
    else
      assert a == [a[0]] + a[1..] && b == [b[0]] + b[1..];
      1 + Common(a[1..], b[1..])
  }

  /** A key the search could have returned without exceeding the limit. */
  ghost predicate Fits(before: Key, after: Key, k: Key) {
    WellFormed(k) && |k| <= MAX_RANK_LENGTH && Less(before, k) && Less(k, after)
  }

  /** The neighbours part inside the limit, and `after` goes on past the parting. */
  predicate PartsEarly(before: Key, after: Key) {
    var n := Common(before, after);
    n < MAX_RANK_LENGTH && n < |before| && n + 1 < |after|
  }

  /** The search fails although a short key fits exactly when no position has room and the
      neighbours part early. */
  lemma ExhaustionExact(before: Key, after: Key)
    requires WellFormed(before) && WellFormed(after) && Less(before, after)
    ensures Between(before, after).Exhausted? && (exists k :: Fits(before, after, k))
            <==> Crowded(before, after) && PartsEarly(before, after)
  {
    BetweenIsBetween(before, after);
    PartsUpwards(before, after);
    if !Crowded(before, after) {
    } else if PartsEarly(before, after) {
      var n := Common(before, after);
      var k := after[..n + 1];
      DecidesLess(before, k, n);
      DecidesLess(k, after, n + 1);
      assert Fits(before, after, k);
    } else {
      forall k | Fits(before, after, k) ensures false {
        NothingFits(before, after, k);
      }
    }
  }


  lemma PartsUpwards(a: Key, b: Key)
    requires Less(a, b)
    ensures var n := Common(a, b); n < |b| && (n < |a| ==> a[n] < b[n])
  {
    var p := LessDecides(a, b);
    assert p == Common(a, b);
  }

  lemma NothingFits(before: Key, after: Key, k: Key)
    requires WellFormed(before) && WellFormed(after) && Less(before, after)
    requires Crowded(before, after) && !PartsEarly(before, after)
    ensures !Fits(before, after, k)
  {
    if Fits(before, after, k) {
      var n := Common(before, after);
      PartsUpwards(before, after);
      var lo := LessDecides(before, k);
      var hi := LessDecides(k, after);
      if n == |before| {
        ZerosFollow(before, after, MAX_RANK_LENGTH);
      } else if n < MAX_RANK_LENGTH {
        assert !Room(before, after, n);
        assert lo < MAX_RANK_LENGTH ==> !Room(before, after, lo);
        OnlyLongerBetween(before, after, k, lo, hi, n);
      }
      assert false;
    }
  }


  /** Below a neighbour that ends where the two part, only longer keys are left. */
  lemma OnlyLongerBetween(before: Key, after: Key, k: Key, lo: nat, hi: nat, n: nat)
    requires n < |before| && n + 1 == |after| && Agree(before, after, n) && Low(before, n) + 1 == High(after, n)
    requires n < lo < MAX_RANK_LENGTH ==> lo < |before| && before[lo] == TOP
    requires k != [] && |k| <= MAX_RANK_LENGTH
    ensures !(Decides(before, k, lo) && Decides(k, after, hi))
  {}

  // ----------------------------------------------------------- renumbering

  /** The least width, at least four, whose numbers leave four slots per key. */
  function WidthFrom(w: nat, count: nat): (r: nat)
    ensures r >= w && Pow(r) >= (count + 1) * 4
    ensures r > w ==> Pow(r - 1) < (count + 1) * 4
    decreases (count + 1) * 4 - Pow(w)
  {
    ShiftGrows(1, w);
    if Pow(w) >= (count + 1) * 4 then w else WidthFrom(w + 1, count)
  }

  function Width(count: nat): nat { WidthFrom(RANK_WIDTH, count) }

  function Stride(count: nat): (r: nat)
    ensures r >= 4 && count * r + r <= Pow(Width(count))
  {
    Pow(Width(count)) / (count + 1)
  }


  /** Numbers ending in zero are nudged up by one. */
  function Settle(v: nat): nat { if v % 62 == 0 then v + 1 else v }

  /** The evenly spread number of the key at position `i`. */
  function Slot(count: nat, i: nat): nat {
    (i + 1) * Stride(count)
  }

  function Spread(count: nat): (keys: seq<Key>)
    ensures |keys| == count
  {
    seq(count, i requires 0 <= i < count => KeyOf(Width(count), Settle(Slot(count, i))))
  }

  lemma StrideFits(count: nat, i: nat, j: nat)
    requires i <= j < count
    ensures Slot(count, i) + (j - i) * Stride(count) == Slot(count, j)
    ensures Stride(count) <= Slot(count, i) <= Slot(count, j) <= Pow(Width(count)) - Stride(count)
  {
    Multiples(i, j, count, Stride(count));
  }

  lemma Multiples(i: nat, j: nat, n: nat, r: nat)
    requires i <= j < n
    ensures (i + 1) * r + (j - i) * r == (j + 1) * r
    ensures r <= (i + 1) * r <= (j + 1) * r <= n * r
  {
  }


  lemma SpreadAt(count: nat, i: nat)
    requires i < count
    ensures WellFormed(Spread(count)[i]) && |Spread(count)[i]| == Width(count)
    ensures Value(Spread(count)[i]) == Settle(Slot(count, i)) < Pow(Width(count))
  {
    StrideFits(count, i, i);
    StepWellFormed(Width(count), Settle(Slot(count, i)));
  }

  /** A renumbered level is strictly increasing, whatever its size. */
  lemma SpreadIncreases(count: nat, i: nat, j: nat)
    requires i < j < count
    ensures Less(Spread(count)[i], Spread(count)[j])
  {
    SpreadAt(count, i);
    SpreadAt(count, j);
    StrideFits(count, i, j);
    AtLeastOnce(j - i, Stride(count));
    ValueOrder(Spread(count)[i], Spread(count)[j]);
  }

  lemma AtLeastOnce(n: nat, r: nat)
    requires n > 0
    ensures n * r >= r
  {
  }

  /** After renumbering, a further insert before the first, between any two neighbours or
      after the last never fails while the keys are narrower than the limit. */
  lemma SpreadHasRoom(count: nat, i: nat)
    requires 0 < count && i <= count && Width(count) < MAX_RANK_LENGTH
    ensures Between(if i == 0 then [] else Spread(count)[i - 1], if i == count then [] else Spread(count)[i]).Rank?
  {
    if i == 0 {
      SpreadAt(count, 0);
      BeforeIsPrevious(Spread(count)[0]);
    } else if i == count {
      SpreadAt(count, count - 1);
      AfterIsNext(Spread(count)[count - 1]);
    } else {
      SpreadAt(count, i - 1);
      SpreadAt(count, i);
      SpreadIncreases(count, i - 1, i);
      BetweenIsBetween(Spread(count)[i - 1], Spread(count)[i]);
    }
  }

  /** How wide a renumbered level is: at most `w` characters exactly when `w` is at least
      four and leaves four slots for each key. So keys stay below the length limit for every
      level that could exist: they pass 48 characters only beyond 62^48 / 4 siblings. */
  lemma WidthExact(count: nat, w: nat)
    ensures Width(count) <= w <==> w >= RANK_WIDTH && (count + 1) * 4 <= Pow(w)
  {
    if w < Width(count) {
      if w >= RANK_WIDTH { PowMonotone(w, Width(count) - 1); }
    } else {
      PowMonotone(Width(count), w);
    }
  }

  lemma {:induction false} PowMonotone(m: nat, n: nat)
    requires m <= n
    ensures Pow(m) <= Pow(n)
    decreases n
  {
    if m < n { PowMonotone(m, n - 1); }
  }

  function Reversed(s: Key): (r: Key)
    ensures |r| == |s|
  {
    if s == [] then [] else Reversed(s[1..]) + [s[0]]
  }

  lemma {:induction false} ReversedSnoc(s: Key, d: Digit)
    ensures Reversed(s + [d]) == [d] + Reversed(s)
    decreases |s|
  {
    if s != [] {
      assert (s + [d])[1..] == s[1..] + [d];
      ReversedSnoc(s[1..], d);
    }
  }

  /** Key `i` of a renumbering, before and after the fix-up of its last digit. */
  lemma SpreadKey(count: nat, i: nat)
    requires 0 < i <= count
    ensures i * Stride(count) < Pow(Width(count))
    ensures var k := KeyOf(Width(count), i * Stride(count));
            Spread(count)[i - 1] == if k[|k| - 1] == 0 then k[|k| - 1 := 1] else k
  {
    StrideFits(count, i - 1, i - 1);
    SettledDigits(Width(count), i * Stride(count));
  }

  /** `resequence`: repeated division writes the digits of each evenly spread number. */
  method Resequence(count: int) returns (keys: seq<Key>)
    ensures keys == Spread(if count < 0 then 0 else count)
  {
    if count <= 0 {
      return [];
    }
    var width := RANK_WIDTH;
    while Pow(width) < (count + 1) * 4
      invariant Width(count) == WidthFrom(width, count)
      decreases (count + 1) * 4 - Pow(width)
    {
      ShiftGrows(1, width);
      width := width + 1;
    }
    var step := Pow(width) / (count + 1);
    assert width == Width(count) && step == Stride(count);
    hide Spread, KeyOf, Width, Stride, Pow;
    keys := [];
    for i := 1 to count + 1
      invariant keys == Spread(count)[..i - 1]
    {
      var value := i * step;
      SpreadKey(count, i);
      var digits := DigitsOf(width, value);
      if digits[|digits| - 1] == 0 {
        digits := digits[|digits| - 1 := 1];
      }
      assert digits == Spread(count)[i - 1];
      keys := keys + [digits];
    }
  }

  lemma SettledDigits(w: nat, v: nat)
    requires w > 0 && v < Pow(w)
    ensures var k := KeyOf(w, v); KeyOf(w, Settle(v)) == if k[w - 1] == 0 then k[w - 1 := 1] else k
  {
    var k := KeyOf(w, v);
    ValueOfKeyOf(w, v);
    LastDigit(k);
    ByValue(if k[w - 1] == 0 then k[w - 1 := 1] else k, w, Settle(v));
  }

  /** The inner digit loop of `resequence`, then `digits.reverse()`. */
  method DigitsOf(width: nat, number: nat) returns (digits: Key)
    ensures digits == KeyOf(width, number)
  {
    var value: nat := number;
    digits := [];
    for n := 0 to width
      invariant KeyOf(width, number) == KeyOf(width - n, value) + Reversed(digits)
    {
      ReversedSnoc(digits, value % BASE);
      digits := digits + [value % BASE];
      value := value / BASE;
    }
    digits := Reversed(digits);
  }
}
