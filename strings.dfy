/** The string and list primitives of Python that the analysis relies on,
    restricted to ASCII: `str.lower`, `str.strip`, `str.replace("\n", " ")`,
    slicing, `str.endswith`, `", ".join`, `<` on strings, `set(...)`, and
    `sorted(set(...))`. */
module Strings {

  // ---------------------------------------------------------------------
  // Characters
  // ---------------------------------------------------------------------

  predicate IsUpper(c: char) { 'A' <= c <= 'Z' }

  /** `c.lower()` for an ASCII character; every other character is left as is. */
  function LowerChar(c: char): (r: char)
    ensures !IsUpper(r)
  {
    if IsUpper(c) then (c as int + 32) as char else c
  }

  /** A character that `\w` matches: an ASCII letter, a digit or `_`. */
  predicate IsWordChar(c: char) {
    'a' <= c <= 'z' || 'A' <= c <= 'Z' || '0' <= c <= '9' || c == '_'
  }

  /** `c.isspace()` on ASCII: space, \t \n \v \f \r and the separators 0x1C-0x1F. */
  predicate IsSpace(c: char) {
    c == ' ' || 9 <= c as int <= 13 || 28 <= c as int <= 31
  }

  // ---------------------------------------------------------------------
  // Lower-casing
  // ---------------------------------------------------------------------

  /** `s.lower()`. */
  function Lower(s: string): (r: string)
    ensures |r| == |s|
    ensures forall i | 0 <= i < |s| :: r[i] == LowerChar(s[i])
  {
    seq(|s|, i requires 0 <= i < |s| => LowerChar(s[i]))
  }

  predicate IsLowercase(s: string) {
    forall i | 0 <= i < |s| :: !IsUpper(s[i])
  }

  lemma LowerOfLowercase(s: string)
    requires IsLowercase(s)
    ensures Lower(s) == s
  {
    assert forall i | 0 <= i < |s| :: Lower(s)[i] == s[i];
  }

  /** Lower-casing twice is lower-casing once. */
  lemma LowerIdempotent(s: string)
    ensures Lower(Lower(s)) == Lower(s)
  {
    LowerOfLowercase(Lower(s));
  }

  /** Lower-casing commutes with concatenation. */
  lemma LowerAppend(a: string, b: string)
    ensures Lower(a + b) == Lower(a) + Lower(b)
  {
    assert forall i | 0 <= i < |a + b| :: Lower(a + b)[i] == (Lower(a) + Lower(b))[i];
  }

  // ---------------------------------------------------------------------
  // replace("\n", " "), strip(), slicing, endswith
  // ---------------------------------------------------------------------

  /** `s.replace("\n", " ")`. */
  function ReplaceNewlines(s: string): (r: string)
    ensures |r| == |s|
    ensures forall i | 0 <= i < |r| :: r[i] != '\n'
    ensures forall i | 0 <= i < |s| :: r[i] == (if s[i] == '\n' then ' ' else s[i])
  {
    seq(|s|, i requires 0 <= i < |s| => if s[i] == '\n' then ' ' else s[i])
  }

  /** The first index at or after `i` that is not whitespace, or `|s|`. */
  function SkipSpaces(s: string, i: nat): (n: nat)
    requires i <= |s|
    ensures i <= n <= |s|
    ensures forall k | i <= k < n :: IsSpace(s[k])
    ensures n == |s| || !IsSpace(s[n])
    decreases |s| - i
  {
    if i < |s| && IsSpace(s[i]) then SkipSpaces(s, i + 1) else i
  }

  /** The end of `s[lo..hi]` once its trailing whitespace is dropped. */
  function SkipSpacesBack(s: string, lo: nat, hi: nat): (n: nat)
    requires lo <= hi <= |s|
    ensures lo <= n <= hi
    ensures forall k | n <= k < hi :: IsSpace(s[k])
    ensures n == lo || !IsSpace(s[n - 1])
  {
    if lo < hi && IsSpace(s[hi - 1]) then SkipSpacesBack(s, lo, hi - 1) else hi
  }

  /** Where `Strip(s)` begins and ends in `s`. */
  function StripStart(s: string): (n: nat)
    ensures n <= |s|
  {
    SkipSpaces(s, 0)
  }

  function StripStop(s: string): (n: nat)
    ensures StripStart(s) <= n <= |s|
  {
    SkipSpacesBack(s, StripStart(s), |s|)
  }

  /** `s.strip()`: the slice of `s` left after dropping whitespace at both ends. */
  function Strip(s: string): (r: string)
    ensures |r| == StripStop(s) - StripStart(s)
    ensures r == [] || (!IsSpace(r[0]) && !IsSpace(r[|r| - 1]))
  {
    s[StripStart(s)..StripStop(s)]
  }

  /** Stripping keeps every stretch `s[a..b]` that starts and ends with a
      non-whitespace character. */
  lemma StripKeeps(s: string, a: int, b: int)
    requires 0 <= a < b <= |s| && !IsSpace(s[a]) && !IsSpace(s[b - 1])
    ensures StripStart(s) <= a && b <= StripStop(s)
  {
  }

  /** `Strip(s)` is empty exactly when every character of `s` is whitespace
      (Python's `not s.strip()`). */
  lemma StripEmptyIffBlank(s: string)
    ensures Strip(s) == [] <==> forall i | 0 <= i < |s| :: IsSpace(s[i])
  {
    if Strip(s) != [] {
      assert !IsSpace(s[StripStart(s)]);
    }
  }

  /** Python's `s[:n]`. */
  function Take(s: string, n: nat): (r: string)
    ensures |s| <= n ==> r == s
    ensures n < |s| ==> |r| == n
    ensures r == s[..|r|]
  {
    if n < |s| then s[..n] else s
  }

  /** `s.endswith(suffix)`. */
  predicate EndsWith(s: string, suffix: string) {
    |suffix| <= |s| && s[|s| - |suffix|..] == suffix
  }

  /** `sep.join(xs)`. */
  function Join(xs: seq<string>, sep: string): (r: string)
    ensures xs == [] ==> r == ""
    ensures xs != [] ==> |xs[0]| <= |r| && r[..|xs[0]|] == xs[0]
  {
    if xs == [] then ""
    else if |xs| == 1 then xs[0]
    else xs[0] + sep + Join(xs[1..], sep)
  }

  // ---------------------------------------------------------------------
  // Duplicates and sets of list elements
  // ---------------------------------------------------------------------

  /** `set(xs)`. */
  function Elems<T>(xs: seq<T>): set<T> {
    set x | x in xs
  }

  lemma ElemsAppend<T>(xs: seq<T>, ys: seq<T>)
    ensures Elems(xs + ys) == Elems(xs) + Elems(ys)
  {
    assert forall x :: x in xs + ys <==> x in xs || x in ys;
  }

  lemma ElemsSingleton<T>(x: T)
    ensures Elems([x]) == {x}
  {
  }

  predicate NoDuplicates<T(==)>(xs: seq<T>) {
    forall i, j | 0 <= i < j < |xs| :: xs[i] != xs[j]
  }

  /** A list never has more distinct elements than entries, and has as many
      exactly when it has no duplicates. */
  lemma {:induction false} ElemsCard<T>(xs: seq<T>)
    ensures |Elems(xs)| <= |xs|
    ensures NoDuplicates(xs) <==> |Elems(xs)| == |xs|
  {
    if xs != [] {
      var init, last := xs[..|xs| - 1], xs[|xs| - 1];
      ElemsCard(init);
      assert xs == init + [last];
      assert Elems(xs) == Elems(init) + {last};
      if last in init {
        assert Elems(xs) == Elems(init);
        var k :| 0 <= k < |init| && init[k] == last;
        assert xs[k] == xs[|xs| - 1];
      } else {
        assert |Elems(xs)| == |Elems(init)| + 1;
        assert NoDuplicates(xs) <==> NoDuplicates(init);
      }
    }
  }

  /** `list(s)` for a Python set: every element once, in an order the
      language leaves unspecified (each step picks an arbitrary element). */
  method ListOfSet<T(==)>(s: set<T>) returns (xs: seq<T>)
    ensures NoDuplicates(xs)
    ensures Elems(xs) == s
    ensures |xs| == |s|
  {
    xs := [];
    var rest := s;
    while rest != {}
      invariant Elems(xs) + rest == s && Elems(xs) !! rest
      invariant |xs| + |rest| == |s|
      invariant NoDuplicates(xs)
      decreases |rest|
    {
      var x :| x in rest;
      assert Elems(xs + [x]) == Elems(xs) + {x};
      xs := xs + [x];
      rest := rest - {x};
    }
  }

  // ---------------------------------------------------------------------
  // Python's ordering on strings, and sorted(set(...))
  // ---------------------------------------------------------------------

  /** `a < b` on Python strings: code-point lexicographic order. */
  predicate LexLess(a: string, b: string) {
    if a == [] then b != []
    else if b == [] then false
    else if a[0] != b[0] then a[0] < b[0]
    else LexLess(a[1..], b[1..])
  }

  lemma {:induction false} LexLessIrreflexive(a: string)
    ensures !LexLess(a, a)
  {
    if a != [] { LexLessIrreflexive(a[1..]); }
  }

  lemma {:induction false} LexLessTransitive(a: string, b: string, c: string)
    requires LexLess(a, b) && LexLess(b, c)
    ensures LexLess(a, c)
  {
    if a != [] && b != [] && c != [] && a[0] == b[0] && b[0] == c[0] {
      LexLessTransitive(a[1..], b[1..], c[1..]);
    }
  }

  lemma {:induction false} LexLessTotal(a: string, b: string)
    requires a != b
    ensures LexLess(a, b) || LexLess(b, a)
  {
    if a != [] && b != [] && a[0] == b[0] {
      assert a == [a[0]] + a[1..] && b == [b[0]] + b[1..];
      LexLessTotal(a[1..], b[1..]);
    }
  }

  lemma {:induction false} LexLessAsymmetric(a: string, b: string)
    requires LexLess(a, b)
    ensures !LexLess(b, a)
  {
    if !LexLess(b, a) {
    } else {
      LexLessTransitive(a, b, a);
      LexLessIrreflexive(a);
    }
  }

  /** Ascending with no duplicates. */
  predicate StrictlySorted(xs: seq<string>) {
    forall i, j | 0 <= i < j < |xs| :: LexLess(xs[i], xs[j])
  }

  lemma StrictlySortedNoDuplicates(xs: seq<string>)
    requires StrictlySorted(xs)
    ensures NoDuplicates(xs)
  {
    forall i, j | 0 <= i < j < |xs| ensures xs[i] != xs[j] {
      LexLessIrreflexive(xs[i]);
    }
  }

  function InsertSorted(x: string, xs: seq<string>): (r: seq<string>)
    requires StrictlySorted(xs)
    ensures StrictlySorted(r)
    ensures Elems(r) == Elems(xs) + {x}
  {
    if xs == [] then [x]
    else if x == xs[0] then xs
    else if LexLess(x, xs[0]) then
      assert forall j | 0 < j < |xs| :: LexLess(x, xs[j]) by {
        forall j | 0 < j < |xs| ensures LexLess(x, xs[j]) { LexLessTransitive(x, xs[0], xs[j]); }
      }
      assert Elems([x] + xs) == Elems(xs) + {x};
      [x] + xs
    else
      LexLessTotal(x, xs[0]);
      var rest := InsertSorted(x, xs[1..]);
      assert Elems(xs) == {xs[0]} + Elems(xs[1..]) by { assert xs == [xs[0]] + xs[1..]; }
      assert forall y | y in Elems(rest) :: LexLess(xs[0], y) by {
        forall y | y in Elems(rest) ensures LexLess(xs[0], y) {
          if y != x {
            var k :| 1 <= k < |xs| && xs[k] == y;
          }
        }
      }
      assert Elems([xs[0]] + rest) == {xs[0]} + Elems(rest);
      [xs[0]] + rest
  }

  /** `sorted(set(xs))` (equivalently `sorted(list(set(xs)))`). */
  function SortedSet(xs: seq<string>): (r: seq<string>)
    ensures StrictlySorted(r)
    ensures Elems(r) == Elems(xs)
  {
    if xs == [] then []
    else
      assert Elems(xs) == Elems(xs[..|xs| - 1]) + {xs[|xs| - 1]} by {
        assert xs == xs[..|xs| - 1] + [xs[|xs| - 1]];
      }
      InsertSorted(xs[|xs| - 1], SortedSet(xs[..|xs| - 1]))
  }

  /** A set has exactly one ascending duplicate-free listing, so `SortedSet`
      is Python's `sorted(set(...))` whatever order the elements arrive in. */
  lemma {:induction false} StrictlySortedUnique(a: seq<string>, b: seq<string>)
    requires StrictlySorted(a) && StrictlySorted(b)
    requires Elems(a) == Elems(b)
    ensures a == b
  {
    StrictlySortedNoDuplicates(a);
    StrictlySortedNoDuplicates(b);
    ElemsCard(a);
    ElemsCard(b);
    if a != [] {
      assert b[0] in Elems(a) && a[0] in Elems(b);
      if a[0] != b[0] {
        var i :| 0 <= i < |a| && a[i] == b[0];
        var j :| 0 <= j < |b| && b[j] == a[0];
        assert i > 0 && j > 0;
        LexLessAsymmetric(a[0], a[i]);
      }
      assert Elems(a[1..]) == Elems(a) - {a[0]} by {
        assert a == [a[0]] + a[1..];
      }
      assert Elems(b[1..]) == Elems(b) - {b[0]} by {
        assert b == [b[0]] + b[1..];
      }
      StrictlySortedUnique(a[1..], b[1..]);
      assert a == [a[0]] + a[1..] && b == [b[0]] + b[1..];
    }
  }
}
