/** Generated names (`unique_name` and `fork_name` in `tree_agent/store.py`, and their
  counterparts `_unique_conversation_name` and `_fork_name` in
  `tree_agent/server/services/tree.py`).

  Both search counters upwards until a candidate is free. The candidates differ, so among
  any |taken| + 1 of them one is free: the search ends. */
module Naming {
  import opened Base


  // --------------------------------------------------------------- numerals

  function DigitChar(d: nat): char
    requires d < 10
  {
    ('0' as int + d) as char
  }

  predicate IsDigit(c: char) { '0' <= c <= '9' }

  predicate IsSpace(c: char) { c in {' ', '\t', '\n', '\r', '\U{B}', '\U{C}', '\U{3000}'} }

  function Decimal(n: nat): (s: string)
    ensures |s| > 0 && forall i :: 0 <= i < |s| ==> IsDigit(s[i])
  {
    if n < 10 then [DigitChar(n)] else Decimal(n / 10) + [DigitChar(n % 10)]
  }

  function Numeral(s: string): nat {
    if s == [] then 0
    else Numeral(s[..|s| - 1]) * 10 + if IsDigit(s[|s| - 1]) then s[|s| - 1] as int - '0' as int else 0
  }

  lemma {:induction false} DecimalReadsBack(n: nat)
    ensures Numeral(Decimal(n)) == n
    decreases n
  {
    if n >= 10 {
      DecimalReadsBack(n / 10);
      assert Decimal(n)[..|Decimal(n)| - 1] == Decimal(n / 10);
    } else {
      assert Decimal(n)[..0] == [];
    }
  }

  lemma DecimalsDiffer(m: nat, n: nat)
    requires m != n
    ensures Decimal(m) != Decimal(n)
  {
    DecimalReadsBack(m);
    DecimalReadsBack(n);
  }

  // ------------------------------------------------------------- the search

  ghost predicate Injective(candidate: nat -> string) {
    forall i: nat, j: nat :: i != j ==> candidate(i) != candidate(j)
  }

  /** The taken names that some counter from `n` on would produce. */
  ghost function Hits(candidate: nat -> string, taken: set<string>, n: nat): set<string> {
    set x | x in taken && Produced(candidate, x, n)
  }

  ghost predicate Produced(candidate: nat -> string, x: string, n: nat) {
    exists m: nat :: m >= n && candidate(m) == x
  }

  lemma HitsShrink(candidate: nat -> string, taken: set<string>, n: nat)
    requires Injective(candidate) && candidate(n) in taken
    ensures Hits(candidate, taken, n) == Hits(candidate, taken, n + 1) + {candidate(n)}
    ensures |Hits(candidate, taken, n)| == |Hits(candidate, taken, n + 1)| + 1
  {
    assert Produced(candidate, candidate(n), n);
    forall x ensures Produced(candidate, x, n) <==> Produced(candidate, x, n + 1) || x == candidate(n) {
      if Produced(candidate, x, n) && x != candidate(n) {
        var m: nat :| m >= n && candidate(m) == x;
        assert m >= n + 1;
      }
    }
    assert candidate(n) !in Hits(candidate, taken, n + 1);
  }

  /** The first counter from `n` on whose candidate is free. At most `|taken|` candidates
      are tried in vain. */
  function FirstFree(candidate: nat -> string, taken: set<string>, n: nat): (r: nat)
    requires Injective(candidate)
    ensures r >= n && candidate(r) !in taken
    ensures forall m: nat :: n <= m < r ==> candidate(m) in taken
    ensures r - n <= |Hits(candidate, taken, n)|
    decreases |Hits(candidate, taken, n)|
  {
    if candidate(n) !in taken then n
    else
      HitsShrink(candidate, taken, n);
      FirstFree(candidate, taken, n + 1)
  }

  lemma FewTries(candidate: nat -> string, taken: set<string>, n: nat)
    requires Injective(candidate)
    ensures FirstFree(candidate, taken, n) <= n + |taken|
  {
    SubsetSize(Hits(candidate, taken, n), taken);
  }

  // ------------------------------------------------------------- candidates

  function Lower(c: char): char {
    if 'A' <= c <= 'Z' then (c as int - 'A' as int + 'a' as int) as char else c
  }

  /** `COLLATE NOCASE`. The renaming jobs compare with `str.lower` instead; both are
      taken to be this one fold. */
  function Fold(name: string): (r: string)
    ensures |r| == |name|
  {
    seq(|name|, i requires 0 <= i < |name| => Lower(name[i]))
  }

  /** The service compares names folded, the in-memory workspace compares them as they are. */
  function Compared(fold: bool, name: string): string { if fold then Fold(name) else name }

  function Numbered(base: string, n: nat): string { base + " " + Decimal(n) }

  /** The first fork carries no counter. */
  function ForkSuffix(n: nat): string {
    if n < 2 then "(\U{5206}\U{5C94})" else "(\U{5206}\U{5C94} " + Decimal(n) + ")"
  }

  /** Counters start at one; the source's counter is one ahead of the candidate. */
  function Forked(base: string, n: nat): string { base + " " + ForkSuffix(n + 1) }

  lemma NumberedDiffer(fold: bool, base: string)
    ensures Injective((n: nat) => Compared(fold, Numbered(base, n)))
  {
    forall i: nat, j: nat | i != j
      ensures Compared(fold, Numbered(base, i)) != Compared(fold, Numbered(base, j))
    {
      DecimalsDiffer(i, j);
      TailKept(fold, base, Decimal(i));
      TailKept(fold, base, Decimal(j));
    }
  }

  lemma ForkSuffixesDiffer(i: nat, j: nat)
    requires 1 <= i < j
    ensures ForkSuffix(i) != ForkSuffix(j)
  {
    var s := ForkSuffix(j);
    assert s[3] == ' ';
    if i >= 2 {
      DecimalsDiffer(i, j);
      assert ForkSuffix(i)[4..|ForkSuffix(i)| - 1] == Decimal(i);
      assert s[4..|s| - 1] == Decimal(j);
    }
  }

  predicate Caseless(s: string) { forall i :: 0 <= i < |s| ==> Lower(s[i]) == s[i] }


  lemma TailKept(fold: bool, base: string, tail: string)
    requires Caseless(tail)
    ensures Compared(fold, base + " " + tail)[|base| + 1..] == tail
  {}

  lemma ForkedPairDiffers(fold: bool, base: string, i: nat, j: nat)
    requires i < j
    ensures Compared(fold, Forked(base, i)) != Compared(fold, Forked(base, j))
  {
    var x, y := ForkSuffix(i + 1), ForkSuffix(j + 1);
    ForkSuffixesDiffer(i + 1, j + 1);
    TailKept(fold, base, x);
    TailKept(fold, base, y);
  }

  lemma ForkedDiffer(fold: bool, base: string)
    ensures Injective((n: nat) => Compared(fold, Forked(base, n)))
  {
    forall i: nat, j: nat | i != j
      ensures Compared(fold, Forked(base, i)) != Compared(fold, Forked(base, j))
    {
      if i < j { ForkedPairDiffers(fold, base, i, j); } else { ForkedPairDiffers(fold, base, j, i); }
    }
  }

  /** The first counter from `n` on that makes "base n" a free name. */
  function FreeNumber(fold: bool, taken: set<string>, base: string, n: nat): (r: nat)
    ensures n <= r <= n + |taken| && Compared(fold, Numbered(base, r)) !in taken
    ensures forall m: nat :: n <= m < r ==> Compared(fold, Numbered(base, m)) in taken
  {
    NumberedDiffer(fold, base);
    var candidate := (k: nat) => Compared(fold, Numbered(base, k));
    FewTries(candidate, taken, n);
    assert forall m: nat :: candidate(m) == Compared(fold, Numbered(base, m));
    FirstFree(candidate, taken, n)
  }

  function FreeFork(fold: bool, taken: set<string>, base: string): (r: nat)
    ensures r <= |taken| && Compared(fold, Forked(base, r)) !in taken
    ensures forall m: nat :: m < r ==> Compared(fold, Forked(base, m)) in taken
  {
    ForkedDiffer(fold, base);
    var candidate := (k: nat) => Compared(fold, Forked(base, k));
    FewTries(candidate, taken, 0);
    assert forall m: nat :: candidate(m) == Compared(fold, Forked(base, m));
    FirstFree(candidate, taken, 0)
  }

  /** `unique_name`: the base itself, or the base with the first free counter from two. */
  method UniqueName(fold: bool, taken: set<string>, base: string) returns (name: string)
    ensures Compared(fold, name) !in taken
    ensures name == if Compared(fold, base) !in taken then base else Numbered(base, FreeNumber(fold, taken, base, 2))
  {
    if Compared(fold, base) !in taken {
      return base;
    }
    var counter: nat := 2;
    while Compared(fold, Numbered(base, counter)) in taken
      invariant 2 <= counter <= FreeNumber(fold, taken, base, 2)
      decreases FreeNumber(fold, taken, base, 2) - counter
    {
      counter := counter + 1;
    }
    name := Numbered(base, counter);
  }

  // ----------------------------------------------------------- length check

  function Ten(k: nat): nat { if k == 0 then 1 else 10 * Ten(k - 1) }

  lemma {:induction false} DecimalShort(n: nat, k: nat)
    requires k > 0 && n < Ten(k)
    ensures |Decimal(n)| <= k
    decreases k
  {
    if n >= 10 { DecimalShort(n / 10, k - 1); }
  }

  const NAME_MAX: nat := 200

  /** SQLite's `trim`: spaces at both ends. */
  function TrimSpaces(name: string): (r: string)
    ensures r == [] || (r[0] != ' ' && r[|r| - 1] != ' ')
    decreases |name|
  {
    if name == [] then []
    else if name[0] == ' ' then TrimSpaces(name[1..])
    else if name[|name| - 1] == ' ' then TrimSpaces(name[..|name| - 1])
    else name
  }

  /** `CHECK (length(trim(name)) BETWEEN 1 AND 200)` on both tables. */
  predicate NameFits(name: string) { 1 <= |TrimSpaces(name)| <= NAME_MAX }

  // ------------------------------------------------------------ fork suffix

  predicate AllSpace(s: string) { forall i :: 0 <= i < |s| ==> IsSpace(s[i]) }

  predicate AllDigits(s: string) { forall i :: 0 <= i < |s| ==> IsDigit(s[i]) }

  /** The parenthesised part of a fork name: the word, then optionally space and digits. */
  predicate IsForkSuffix(s: string) {
    |s| >= 4 && s[..3] == "(\U{5206}\U{5C94}" && s[|s| - 1] == ')'
    && var mid := s[3..|s| - 1];
       mid == [] || exists k :: 0 <= k < |mid| && AllSpace(mid[..k]) && AllDigits(mid[k..])
  }

  /** Position of the last opening parenthesis, or the length. Nothing inside a fork suffix
      is one, so a suffix at the end of a name can only start there. */
  function LastParen(s: string): (i: nat)
    ensures i <= |s| && (i < |s| ==> s[i] == '(')
    ensures forall j :: i < j < |s| ==> s[j] != '('
    ensures i == |s| ==> '(' !in s
  {
    if s == [] then 0
    else if s[|s| - 1] == '(' then |s| - 1
    else
      var i := LastParen(s[..|s| - 1]);
      if i == |s| - 1 then |s| else i
  }

  predicate HasForkSuffix(name: string) { IsForkSuffix(name[LastParen(name)..]) }

  function TrimRight(s: string): (r: string)
    ensures |r| <= |s| && r == s[..|r|]
    ensures r != [] ==> !IsSpace(r[|r| - 1])
  {
    if s == [] || !IsSpace(s[|s| - 1]) then s else TrimRight(s[..|s| - 1])
  }

  /** `_FORK_SUFFIX.sub("", name)`: one suffix and the space before it come off. */
  function StripFork(name: string): (r: string)
    ensures |r| <= |name| && (HasForkSuffix(name) ==> |r| < |name|)
  {
    if HasForkSuffix(name) then TrimRight(name[..LastParen(name)]) else name
  }

  /** How many fork suffixes a name has stacked up. */
  function ForkCount(name: string): nat
    decreases |name|
  {
    if HasForkSuffix(name) then 1 + ForkCount(StripFork(name)) else 0
  }

  lemma ForkSuffixIsOne(n: nat)
    ensures IsForkSuffix(ForkSuffix(n)) && LastParen(ForkSuffix(n)) == 0
  {
    var s := ForkSuffix(n);
    if n >= 2 {
      assert s[..3] == "(\U{5206}\U{5C94}";
      var mid := s[3..|s| - 1];
      assert mid == " " + Decimal(n);
      assert AllSpace(mid[..1]) && mid[1..] == Decimal(n);
    } else {
      assert s[..3] == "(\U{5206}\U{5C94}" && s[3..|s| - 1] == [];
    }
  }


  /** A generated fork name strips back to its base. */
  lemma ForkedStrips(base: string, n: nat)
    ensures HasForkSuffix(Forked(base, n)) && StripFork(Forked(base, n)) == TrimRight(base)
  {
    var suffix, name := ForkSuffix(n + 1), Forked(base, n);
    ForkSuffixIsOne(n + 1);
    assert |suffix| > 0;
    hide IsForkSuffix, ForkSuffix, IsSpace;
    OnlyParen(base, suffix);
    assert name == base + " " + suffix && name[|base| + 1..] == suffix && name[..|base| + 1] == base + " ";
    SpaceTrimmed(base);
  }

  lemma OnlyParen(base: string, suffix: string)
    requires suffix != [] && LastParen(suffix) == 0
    ensures LastParen(base + " " + suffix) == |base| + 1
  {
    var name := base + " " + suffix;
    assert name[|base| + 1] == suffix[0];
    forall j | |base| + 1 < j < |name| ensures name[j] != '(' {
      assert name[j] == suffix[j - |base| - 1];
    }
  }

  lemma SpaceTrimmed(base: string)
    ensures TrimRight(base + " ") == TrimRight(base)
  {
    assert (base + " ")[..|base|] == base;
  }

  /** The new name carries one suffix more than what is left of the source name. */
  lemma ForkCountExact(name: string, n: nat)
    ensures ForkCount(Forked(StripFork(name), n)) == 1 + ForkCount(TrimRight(StripFork(name)))
  {
    ForkedStrips(StripFork(name), n);
  }

  /** Re-forking does not stack suffixes: from a stripped name that carried at most one,
      every generated name carries exactly one. */
  lemma ForkDoesNotStack(name: string, n: nat)
    requires TrimRight(name) == name && ForkCount(name) <= 1
    ensures ForkCount(Forked(StripFork(name), n)) == 1
  {
    ForkCountExact(name, n);
  }


  /** `fork_name`: the first free fork of the stripped base. */
  method ForkName(fold: bool, taken: set<string>, name: string) returns (candidate: string)
    ensures Compared(fold, candidate) !in taken
    ensures candidate == Forked(StripFork(name), FreeFork(fold, taken, StripFork(name)))
  {
    var base := StripFork(name);
    candidate := base + " " + ForkSuffix(1);
    var counter: nat := 2;
    while Compared(fold, candidate) in taken
      invariant 2 <= counter <= FreeFork(fold, taken, base) + 2 && candidate == Forked(base, counter - 2)
      decreases FreeFork(fold, taken, base) + 2 - counter
    {
      candidate := base + " " + ForkSuffix(counter);
      counter := counter + 1;
    }
  }
}
