/** `extract_skills` (app/services.py:53-72): the catalog is walked category
    by category and keyword by keyword; a keyword is reported, with the
    category it is listed under, when `\b` keyword `s?` `\b` occurs in the
    lower-cased text, unless the same lower-case name was reported before. */
module SkillExtraction {
  import opened Strings
  import opened Models
  import opened Catalog

  // ---------------------------------------------------------------------
  // The pattern r'\b' + re.escape(k) + r's?\b'
  // ---------------------------------------------------------------------

  /** `\b` at position `i` of `t`: the character before `i` is a word
      character exactly when the character at `i` is not (a missing
      character counts as a non-word character). */
  predicate Boundary(t: string, i: nat)
    requires i <= |t|
  {
    (i > 0 && IsWordChar(t[i - 1])) != (i < |t| && IsWordChar(t[i]))
  }

  /** The pattern for keyword `k` matches `t` starting at `i`: a boundary,
      the literal keyword, and then a boundary either right away or after
      one optional `s` (the regex engine tries both). */
  predicate MatchAt(k: string, t: string, i: nat) {
    && i + |k| <= |t|
    && Boundary(t, i)
    && t[i..i + |k|] == k
    && (Boundary(t, i + |k|)
        || (i + |k| < |t| && t[i + |k|] == 's' && Boundary(t, i + |k| + 1)))
  }

  /** What `re.search` decides: the pattern matches somewhere. */
  ghost predicate OccursAsWord(k: string, t: string) {
    exists i | 0 <= i <= |t| :: MatchAt(k, t, i)
  }

  /** Tries every start position from `i` on. */
  function FindFrom(k: string, t: string, i: nat): (b: bool)
    requires i <= |t|
    ensures b <==> exists j | i <= j <= |t| :: MatchAt(k, t, j)
    decreases |t| - i
  {
    if i + |k| > |t| then false
    else MatchAt(k, t, i) || (i < |t| && FindFrom(k, t, i + 1))
  }

  /** `re.search(pattern, t) is not None`. */
  function Search(k: string, t: string): (b: bool)
    ensures b <==> OccursAsWord(k, t)
  {
    FindFrom(k, t, 0)
  }

  // ---------------------------------------------------------------------
  // The catalog as the sequence of (keyword, category) pairs it is walked in
  // ---------------------------------------------------------------------

  /** The keywords of one category, each paired with the category's name. */
  function Pairs(category: string, kws: seq<string>): (r: seq<Skill>)
    ensures |r| == |kws|
    ensures forall i | 0 <= i < |kws| :: r[i] == Skill(kws[i], category)
  {
    if kws == [] then [] else [Skill(kws[0], category)] + Pairs(category, kws[1..])
  }

  /** Every (keyword, category) pair of the catalog, in the order the
      extractor's two loops visit them. */
  function Entries(cats: seq<SkillCategory>): seq<Skill> {
    if cats == [] then [] else Pairs(cats[0].0, cats[0].1) + Entries(cats[1..])
  }

  /** The names of the entries are the catalog's keywords, position by position. */
  lemma {:induction false} EntriesNames(cats: seq<SkillCategory>)
    ensures |Entries(cats)| == |Keywords(cats)|
    ensures forall i | 0 <= i < |Entries(cats)| :: Entries(cats)[i].name == Keywords(cats)[i]
  {
    if cats != [] {
      EntriesNames(cats[1..]);
    }
  }

  /** An entry is a keyword together with the category it is listed under. */
  lemma {:induction false} EntriesMembers(cats: seq<SkillCategory>, s: Skill)
    ensures s in Entries(cats) <==>
      exists c, k | 0 <= c < |cats| && 0 <= k < |cats[c].1| :: s == Skill(cats[c].1[k], cats[c].0)
  {
    if cats != [] {
      EntriesMembers(cats[1..], s);
      var head := Pairs(cats[0].0, cats[0].1);
      assert Entries(cats) == head + Entries(cats[1..]);
      if s in head {
        var k :| 0 <= k < |head| && head[k] == s;
        assert s == Skill(cats[0].1[k], cats[0].0);
      } else if s in Entries(cats[1..]) {
        var c, k :| 0 <= c < |cats[1..]| && 0 <= k < |cats[1..][c].1| && s == Skill(cats[1..][c].1[k], cats[1..][c].0);
        assert cats[1..][c] == cats[c + 1];
      } else {
        forall c, k | 0 <= c < |cats| && 0 <= k < |cats[c].1| ensures s != Skill(cats[c].1[k], cats[c].0) {
          if c == 0 {
            assert head[k] == Skill(cats[c].1[k], cats[c].0);
          } else {
            assert cats[1..][c - 1] == cats[c];
          }
        }
      }
    }
  }

  // ---------------------------------------------------------------------
  // The scan, as a specification
  // ---------------------------------------------------------------------

  /** The skills the loops report for `entries`, having already reported the
      lower-case names in `seen`. */
  function Scan(entries: seq<Skill>, textLower: string, seen: set<string>): seq<Skill> {
    if entries == [] then []
    else
      var k := Lower(entries[0].name);
      if k in seen then Scan(entries[1..], textLower, seen)
      else if Search(k, textLower) then [entries[0]] + Scan(entries[1..], textLower, seen + {k})
      else Scan(entries[1..], textLower, seen)
  }

  /** What `extract_skills(text)` returns for a given catalog. */
  function SkillsOf(catalog: seq<SkillCategory>, text: string): seq<Skill> {
    Scan(Entries(catalog), Lower(text), {})
  }

  /** The entries whose keyword the pattern finds, with no seen-set at all. */
  function Hits(entries: seq<Skill>, textLower: string): (r: seq<Skill>)
    ensures forall s :: s in r <==> s in entries && Search(Lower(s.name), textLower)
  {
    if entries == [] then []
    else if Search(Lower(entries[0].name), textLower) then [entries[0]] + Hits(entries[1..], textLower)
    else Hits(entries[1..], textLower)
  }

  function LowerNames(xs: seq<Skill>): set<string> {
    set s | s in xs :: Lower(s.name)
  }

  predicate DistinctLowerNames(xs: seq<Skill>) {
    forall i, j | 0 <= i < j < |xs| :: Lower(xs[i].name) != Lower(xs[j].name)
  }

  /** `xs` is `ys` with some elements left out, the rest kept in order. */
  predicate IsSubsequence(xs: seq<Skill>, ys: seq<Skill>)
    decreases |ys|
  {
    || xs == []
    || (&& ys != []
        && ((xs[0] == ys[0] && IsSubsequence(xs[1..], ys[1..])) || IsSubsequence(xs, ys[1..])))
  }

  /** The scan reports at most one skill per lower-case name, and none that
      was already seen. */
  lemma {:induction false} ScanDistinct(entries: seq<Skill>, textLower: string, seen: set<string>)
    ensures DistinctLowerNames(Scan(entries, textLower, seen))
    ensures forall s | s in Scan(entries, textLower, seen) :: Lower(s.name) !in seen
  {
    if entries != [] {
      var k := Lower(entries[0].name);
      if k in seen || !Search(k, textLower) {
        ScanDistinct(entries[1..], textLower, seen);
      } else {
        var rest := Scan(entries[1..], textLower, seen + {k});
        ScanDistinct(entries[1..], textLower, seen + {k});
        var r := [entries[0]] + rest;
        forall i, j | 0 <= i < j < |r| ensures Lower(r[i].name) != Lower(r[j].name) {
          if i == 0 {
            assert r[j] == rest[j - 1];
            assert r[j] in rest;
          } else {
            assert r[i] == rest[i - 1] && r[j] == rest[j - 1];
          }
        }
      }
    }
  }

  /** The scan only drops entries: what it reports appears in the catalog
      walk, in category-then-keyword order. */
  lemma {:induction false} ScanSubsequence(entries: seq<Skill>, textLower: string, seen: set<string>)
    ensures IsSubsequence(Scan(entries, textLower, seen), entries)
  {
    if entries != [] {
      var k := Lower(entries[0].name);
      if k in seen || !Search(k, textLower) {
        ScanSubsequence(entries[1..], textLower, seen);
      } else {
        ScanSubsequence(entries[1..], textLower, seen + {k});
        var r := [entries[0]] + Scan(entries[1..], textLower, seen + {k});
        assert r[1..] == Scan(entries[1..], textLower, seen + {k});
      }
    }
  }

  /** A subsequence holds only elements of the sequence it came from. */
  lemma {:induction false} SubsequenceMembers(xs: seq<Skill>, ys: seq<Skill>)
    requires IsSubsequence(xs, ys)
    ensures forall s | s in xs :: s in ys
    decreases |ys|
  {
    if xs != [] {
      if xs[0] == ys[0] && IsSubsequence(xs[1..], ys[1..]) {
        SubsequenceMembers(xs[1..], ys[1..]);
        assert xs == [xs[0]] + xs[1..] && ys == [ys[0]] + ys[1..];
      } else {
        SubsequenceMembers(xs, ys[1..]);
        assert ys == [ys[0]] + ys[1..];
      }
    }
  }

  /** The lower-case names reported are exactly the names of entries the
      pattern finds, less those already seen: a name is reported iff some
      entry carries it, it was not seen, and it occurs as a word. */
  lemma {:induction false} ScanNames(entries: seq<Skill>, textLower: string, seen: set<string>)
    ensures LowerNames(Scan(entries, textLower, seen)) == LowerNames(Hits(entries, textLower)) - seen
  {
    if entries != [] {
      var e := entries[0];
      var k := Lower(e.name);
      var rest := entries[1..];
      assert LowerNames(Hits(entries, textLower)) ==
        (if Search(k, textLower) then {k} else {}) + LowerNames(Hits(rest, textLower));
      if k in seen || !Search(k, textLower) {
        ScanNames(rest, textLower, seen);
      } else {
        ScanNames(rest, textLower, seen + {k});
        assert Scan(entries, textLower, seen) == [e] + Scan(rest, textLower, seen + {k});
        assert LowerNames([e] + Scan(rest, textLower, seen + {k})) ==
          {k} + LowerNames(Scan(rest, textLower, seen + {k}));
      }
    }
  }

  /** When no two entries share a lower-case name and none was seen, the
      seen-set never rejects anything: the scan is a plain filter. */
  lemma {:induction false} ScanWithoutCollisions(entries: seq<Skill>, textLower: string, seen: set<string>)
    requires DistinctLowerNames(entries)
    requires forall i | 0 <= i < |entries| :: Lower(entries[i].name) !in seen
    ensures Scan(entries, textLower, seen) == Hits(entries, textLower)
  {
    if entries != [] {
      var k := Lower(entries[0].name);
      var rest := entries[1..];
      assert DistinctLowerNames(rest) by {
        forall i, j | 0 <= i < j < |rest| ensures Lower(rest[i].name) != Lower(rest[j].name) {
          assert rest[i] == entries[i + 1] && rest[j] == entries[j + 1];
        }
      }
      forall i | 0 <= i < |rest| ensures Lower(rest[i].name) !in seen + {k} {
        assert rest[i] == entries[i + 1];
      }
      ScanWithoutCollisions(rest, textLower, seen + {k});
      ScanWithoutCollisions(rest, textLower, seen);
    }
  }

  /** No text matches anything when it is empty, so an empty résumé text
      yields no skills. */
  lemma {:induction false} ScanEmptyText(entries: seq<Skill>, seen: set<string>)
    ensures Scan(entries, "", seen) == []
  {
    if entries != [] {
      var k := Lower(entries[0].name);
      assert !MatchAt(k, "", 0);
      assert !Search(k, "");
      ScanEmptyText(entries[1..], seen);
    }
  }

  // ---------------------------------------------------------------------
  // The extractor itself
  // ---------------------------------------------------------------------

  lemma EntriesUnfold(catalog: seq<SkillCategory>, c: nat)
    requires c < |catalog|
    ensures Entries(catalog[c..]) == Pairs(catalog[c].0, catalog[c].1[0..]) + Entries(catalog[c + 1..])
  {
    assert catalog[c..][1..] == catalog[c + 1..];
    assert catalog[c].1[0..] == catalog[c].1;
  }

  lemma ScanStep(category: string, kws: seq<string>, k: nat, tail: seq<Skill>, textLower: string, seen: set<string>)
    requires k < |kws|
    ensures Scan(Pairs(category, kws[k..]) + tail, textLower, seen) ==
      var name := Lower(kws[k]);
      var next := Pairs(category, kws[k + 1..]) + tail;
      if name in seen then Scan(next, textLower, seen)
      else if Search(name, textLower) then [Skill(kws[k], category)] + Scan(next, textLower, seen + {name})
      else Scan(next, textLower, seen)
  {
    var all := Pairs(category, kws[k..]) + tail;
    assert all[0] == Skill(kws[k], category);
    assert all[1..] == Pairs(category, kws[k + 1..]) + tail;
  }

  /** `extract_skills(text)` over `catalog`: the two loops of the source,
      with `found` playing `found_skill_names`. */
  method ExtractSkills(text: string, catalog: seq<SkillCategory>) returns (skills: seq<Skill>)
    ensures skills == SkillsOf(catalog, text)
    ensures DistinctLowerNames(skills)
    ensures IsSubsequence(skills, Entries(catalog))
  {
    skills := [];
    var textLower := Lower(text);
    var found: set<string> := {};
    var c := 0;
    while c < |catalog|
      invariant 0 <= c <= |catalog|
      invariant skills + Scan(Entries(catalog[c..]), textLower, found) == SkillsOf(catalog, text)
    {
      var category, skillsList := catalog[c].0, catalog[c].1;
      EntriesUnfold(catalog, c);
      var k := 0;
      while k < |skillsList|
        invariant 0 <= k <= |skillsList|
        invariant skills + Scan(Pairs(category, skillsList[k..]) + Entries(catalog[c + 1..]), textLower, found)
          == SkillsOf(catalog, text)
      {
        ScanStep(category, skillsList, k, Entries(catalog[c + 1..]), textLower, found);
        var skillLower := Lower(skillsList[k]);
        if skillLower !in found && Search(skillLower, textLower) {
          skills := skills + [Skill(skillsList[k], category)];
          found := found + {skillLower};
        }
        k := k + 1;
      }
      assert Pairs(category, skillsList[k..]) + Entries(catalog[c + 1..]) == Entries(catalog[c + 1..]);
      c := c + 1;
    }
    assert catalog[c..] == [];
    ScanDistinct(Entries(catalog), textLower, {});
    ScanSubsequence(Entries(catalog), textLower, {});
  }

  // ---------------------------------------------------------------------
  // Properties of extract_skills
  // ---------------------------------------------------------------------

  /** The result depends on the text only through `text.lower()`. */
  lemma SkillsOfLowerText(catalog: seq<SkillCategory>, text: string)
    ensures SkillsOf(catalog, Lower(text)) == SkillsOf(catalog, text)
  {
    LowerIdempotent(text);
  }

  /** An empty text yields no skills. */
  lemma SkillsOfEmptyText(catalog: seq<SkillCategory>)
    ensures SkillsOf(catalog, "") == []
  {
    assert Lower("") == "";
    ScanEmptyText(Entries(catalog), {});
  }

  /** A catalog whose keywords are lower case and listed once: the seen-set
      of the scan can never reject one of its keywords. */
  ghost predicate CleanCatalog(cats: seq<SkillCategory>) {
    && (forall kw | kw in Keywords(cats) :: IsLowercase(kw))
    && NoDuplicates(Keywords(cats))
  }

  lemma CleanCatalogEntries(cats: seq<SkillCategory>)
    requires CleanCatalog(cats)
    ensures forall i | 0 <= i < |Entries(cats)| :: Lower(Entries(cats)[i].name) == Entries(cats)[i].name
    ensures DistinctLowerNames(Entries(cats))
  {
    var entries := Entries(cats);
    EntriesNames(cats);
    forall i | 0 <= i < |entries| ensures Lower(entries[i].name) == entries[i].name {
      assert entries[i].name in Keywords(cats);
      LowerOfLowercase(entries[i].name);
    }
    assert DistinctLowerNames(entries) by {
      forall i, j | 0 <= i < j < |entries| ensures Lower(entries[i].name) != Lower(entries[j].name) {
        assert Keywords(cats)[i] != Keywords(cats)[j];
      }
    }
  }

  /** Over a clean catalog a (keyword, category) pair is reported exactly
      when it is listed that way and the keyword occurs as a word in the
      lower-cased text; the scan is then a plain filter of the catalog walk. */
  lemma CleanCatalogSkills(cats: seq<SkillCategory>, text: string, s: Skill)
    requires CleanCatalog(cats)
    ensures SkillsOf(cats, text) == Hits(Entries(cats), Lower(text))
    ensures s in SkillsOf(cats, text) <==> s in Entries(cats) && OccursAsWord(s.name, Lower(text))
  {
    var entries := Entries(cats);
    CleanCatalogEntries(cats);
    ScanWithoutCollisions(entries, Lower(text), {});
    if s in entries {
      var i :| 0 <= i < |entries| && entries[i] == s;
      assert Lower(s.name) == s.name;
    }
  }

  /** The real catalog is clean (its keywords are lower case and pairwise
      distinct), so the properties above hold for SKILL_CATEGORIES. */
  lemma CatalogSkills(text: string, s: Skill)
    ensures SkillsOf(SkillCategories, text) == Hits(Entries(SkillCategories), Lower(text))
    ensures s in SkillsOf(SkillCategories, text) <==>
      s in Entries(SkillCategories) && OccursAsWord(s.name, Lower(text))
  {
    SkillKeywordsLowercase();
    SkillKeywordsDistinct();
    CleanCatalogSkills(SkillCategories, text, s);
  }

  // ---------------------------------------------------------------------
  // The pattern's quirks for keywords that start or end with a symbol
  // ---------------------------------------------------------------------

  /** A keyword ending in a non-word character (`c++`, `c#`) cannot match
      when it is followed by a non-word character or by the end of the text:
      there is no `\b` between two non-word characters. */
  lemma TrailingSymbolNeedsWordAfter(k: string, t: string, i: nat)
    requires k != [] && !IsWordChar(k[|k| - 1])
    requires i + |k| <= |t|
    requires i + |k| == |t| || !IsWordChar(t[i + |k|])
    ensures !MatchAt(k, t, i)
  {
    if t[i..i + |k|] == k {
      assert t[i + |k| - 1] == k[|k| - 1];
    }
  }

  /** A keyword starting with a non-word character (`.net`) can only match
      right after a word character, as inside `asp.net`. */
  lemma LeadingSymbolNeedsWordBefore(k: string, t: string, i: nat)
    requires k != [] && !IsWordChar(k[0])
    requires i <= |t|
    requires i == 0 || !IsWordChar(t[i - 1])
    ensures !MatchAt(k, t, i)
  {
    if i + |k| <= |t| && t[i..i + |k|] == k {
      assert t[i] == k[0];
    }
  }

  lemma CppAtEndNotFound()
    ensures !Search("c++", "use c++")
    ensures !Search("c#", "c# dev")
  {
  }

  lemma DotNetNeedsWordBefore()
    ensures Search(".net", "asp.net")
    ensures !Search(".net", "use .net")
  {
  }

  // ---------------------------------------------------------------------
  // Deciding the pattern on a text given in pieces
  // ---------------------------------------------------------------------

  /** A keyword that starts and ends with a word character is found when it
      stands between non-word characters (or the ends of the text). */
  lemma WordBetween(pre: string, k: string, post: string)
    requires k != [] && IsWordChar(k[0]) && IsWordChar(k[|k| - 1])
    requires pre == [] || !IsWordChar(pre[|pre| - 1])
    requires post == [] || !IsWordChar(post[0])
    ensures OccursAsWord(k, pre + k + post)
  {
    var t := pre + k + post;
    var i := |pre|;
    assert t[i..i + |k|] == k;
    assert t[i] == k[0];
    assert t[i + |k| - 1] == k[|k| - 1];
    if i > 0 {
      assert t[i - 1] == pre[|pre| - 1];
    }
    if i + |k| < |t| {
      assert t[i + |k|] == post[0];
    }
    assert MatchAt(k, t, i);
  }

  /** A keyword with a character the text lacks is not found. */
  lemma AbsentCharNoMatch(k: string, t: string, c: char)
    requires c in k && c !in t
    ensures !OccursAsWord(k, t)
  {
  }

  /** `k[j]` and `m[p]` have a neighbour on the same side that differs. */
  predicate NeighbourDiffers(k: string, j: nat, m: string, p: nat)
    requires j < |k| && p < |m|
  {
    || (0 < j && 0 < p && k[j - 1] != m[p - 1])
    || (j + 1 < |k| && p + 1 < |m| && k[j + 1] != m[p + 1])
  }

  /** When the text is `a + m + b` and the keyword's character `m[p]` occurs
      nowhere else, a match would have to put that character at `p`; it
      cannot when each such character of the keyword has a neighbour that
      differs from the neighbour of `m[p]` inside `m`. */
  lemma UniqueCharNoMatch(k: string, a: string, m: string, b: string, p: nat)
    requires p < |m| && m[p] in k
    requires m[p] !in a && m[p] !in b
    requires forall q | 0 <= q < |m| && q != p :: m[q] != m[p]
    requires forall j | 0 <= j < |k| && k[j] == m[p] :: NeighbourDiffers(k, j, m, p)
    ensures !OccursAsWord(k, a + m + b)
  {
    var t := a + m + b;
    var c := m[p];
    var j :| 0 <= j < |k| && k[j] == c;
    assert NeighbourDiffers(k, j, m, p);
    forall i | 0 <= i <= |t| ensures !MatchAt(k, t, i) {
      if i + |k| <= |t| {
        if i + j < |a| {
          assert t[i + j] == a[i + j];
        } else if i + j >= |a| + |m| {
          assert t[i + j] == b[i + j - |a| - |m|];
        } else if i + j != |a| + p {
          assert t[i + j] == m[i + j - |a|];
        } else if 0 < j && 0 < p && k[j - 1] != m[p - 1] {
          assert t[i + j - 1] == m[p - 1];
        } else {
          assert t[i + j + 1] == m[p + 1];
        }
      }
    }
  }

  /** Over a clean catalog, a lower-case name appears among the reported
      skills exactly when it is a catalog keyword occurring as a word in the
      lower-cased text. */
  lemma CleanCatalogNames(cats: seq<SkillCategory>, text: string, k: string)
    requires CleanCatalog(cats)
    ensures k in LowerNames(SkillsOf(cats, text)) <==>
      k in Keywords(cats) && OccursAsWord(k, Lower(text))
  {
    var entries := Entries(cats);
    EntriesNames(cats);
    CleanCatalogEntries(cats);
    if k in LowerNames(SkillsOf(cats, text)) {
      var s :| s in SkillsOf(cats, text) && Lower(s.name) == k;
      CleanCatalogSkills(cats, text, s);
      var i :| 0 <= i < |entries| && entries[i] == s;
      assert s.name == k && k == Keywords(cats)[i];
    }
    if k in Keywords(cats) && OccursAsWord(k, Lower(text)) {
      var i :| 0 <= i < |Keywords(cats)| && Keywords(cats)[i] == k;
      var s := entries[i];
      CleanCatalogSkills(cats, text, s);
      assert Lower(s.name) == k;
    }
  }

  lemma CatalogNames(text: string, k: string)
    ensures k in LowerNames(SkillsOf(SkillCategories, text)) <==>
      k in Keywords(SkillCategories) && OccursAsWord(k, Lower(text))
  {
    SkillKeywordsLowercase();
    SkillKeywordsDistinct();
    CleanCatalogNames(SkillCategories, text, k);
  }
}
