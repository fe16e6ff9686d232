/** The post-processing of `analyze_education` (app/services.py:102-121) and
    `analyze_experience` (app/services.py:74-100). The regular-expression
    engine and the spaCy model are not part of this model: the education
    analysis takes the match spans of its patterns, the experience analysis
    takes the matched year phrases and the named entities spaCy returns
    (None when the model raises). */
module Snippets {
  import opened Wrappers
  import opened Strings
  import opened Sorting

  // ---------------------------------------------------------------------
  // analyze_education
  // ---------------------------------------------------------------------

  /** Characters of context kept on each side of an education match. */
  const ContextWidth: nat := 30

  /** A regular-expression match `[start, stop)` of `m.start()` and `m.end()`. */
  datatype Span = Span(start: nat, stop: nat)

  predicate ValidSpan(text: string, m: Span) {
    m.start <= m.stop <= |text|
  }

  /** The window `text[max(0, start - 30):min(len(text), stop + 30)]`. */
  function WindowStart(m: Span): nat {
    if m.start >= ContextWidth then m.start - ContextWidth else 0
  }

  function WindowStop(text: string, m: Span): nat {
    if m.stop + ContextWidth <= |text| then m.stop + ContextWidth else |text|
  }

  predicate NoNewline(s: string) {
    forall i | 0 <= i < |s| :: s[i] != '\n'
  }

  /** `x` occurs in `s` starting at index `i`. */
  predicate InfixAt(x: string, s: string, i: int) {
    0 <= i && i + |x| <= |s| && s[i..i + |x|] == x
  }

  /** `context_snippet`: the window around the match with newlines turned
      into spaces, stripped. */
  function ContextSnippet(text: string, m: Span): (r: string)
    requires ValidSpan(text, m)
    ensures NoNewline(r)
    ensures |r| <= m.stop - m.start + 2 * ContextWidth
  {
    var lo, hi := WindowStart(m), WindowStop(text, m);
    assert hi - lo <= m.stop - m.start + 2 * ContextWidth;
    var w := ReplaceNewlines(text[lo..hi]);
    var r := Strip(w);
    assert forall i | 0 <= i < |r| :: r[i] == w[StripStart(w) + i];
    r
  }

  /** `s[lo:hi].replace(...)` is `s.replace(...)[lo:hi]`. */
  lemma ReplaceNewlinesSlice(s: string, lo: int, hi: int)
    requires 0 <= lo <= hi <= |s|
    ensures ReplaceNewlines(s[lo..hi]) == ReplaceNewlines(s)[lo..hi]
  {
  }

  /** The snippet starts and ends with a non-space character. */
  lemma SnippetTrimmed(text: string, m: Span)
    requires ValidSpan(text, m)
    ensures var r := ContextSnippet(text, m);
      r == [] || (!IsSpace(r[0]) && !IsSpace(r[|r| - 1]))
  {
    var w := ReplaceNewlines(text[WindowStart(m)..WindowStop(text, m)]);
    assert ContextSnippet(text, m) == Strip(w);
  }

  /** The snippet is a stretch of the newline-free text inside the window. */
  lemma SnippetInWindow(text: string, m: Span)
    requires ValidSpan(text, m)
    ensures var r := ContextSnippet(text, m);
      exists i | WindowStart(m) <= i && i + |r| <= WindowStop(text, m) ::
        InfixAt(r, ReplaceNewlines(text), i)
  {
    var lo, hi := WindowStart(m), WindowStop(text, m);
    var w := ReplaceNewlines(text[lo..hi]);
    assert ContextSnippet(text, m) == Strip(w);
    StripInfix(w, ReplaceNewlines(text), lo) by {
      ReplaceNewlinesSlice(text, lo, hi);
    }
  }

  /** Stripping a slice of `s` leaves a stretch of `s` inside that slice. */
  lemma StripInfix(w: string, s: string, lo: int)
    requires 0 <= lo && lo + |w| <= |s| && w == s[lo..lo + |w|]
    ensures exists i | lo <= i && i + |Strip(w)| <= lo + |w| :: InfixAt(Strip(w), s, i)
  {
    InfixOfSlice(Strip(w), w, s, lo, StripStart(w));
  }

  /** A stretch of a slice is a stretch of the whole. */
  lemma InfixOfSlice(r: string, w: string, s: string, lo: int, a: int)
    requires 0 <= lo && lo + |w| <= |s| && w == s[lo..lo + |w|]
    requires 0 <= a && a + |r| <= |w| && r == w[a..a + |r|]
    ensures InfixAt(r, s, lo + a)
  {
    assert forall k | 0 <= k < |r| :: r[k] == s[lo + a + k];
  }

  /** A stretch at `a` of `w` that lies inside `w[l..h]` is a stretch of it. */
  lemma InfixWithin(x: string, w: string, l: int, h: int, a: int)
    requires 0 <= l <= a && a + |x| <= h <= |w| && InfixAt(x, w, a)
    ensures InfixAt(x, w[l..h], a - l)
  {
    var v := w[l..h];
    assert forall k | 0 <= k < |x| :: v[a - l + k] == x[k];
  }

  /** Stripping keeps a stretch that starts and ends with a non-space. */
  lemma StripKeepsInfix(x: string, w: string, a: int)
    requires InfixAt(x, w, a) && |x| > 0 && !IsSpace(x[0]) && !IsSpace(x[|x| - 1])
    ensures exists i :: InfixAt(x, Strip(w), i)
  {
    assert x[0] == w[a] && x[|x| - 1] == w[a + |x| - 1];
    StripKeeps(w, a, a + |x|);
    InfixWithin(x, w, StripStart(w), StripStop(w), a);
    assert InfixAt(x, Strip(w), a - StripStart(w));
  }

  /** A match that starts and ends with a non-space character (as every
      education pattern's matches do) appears, newlines replaced, inside its
      snippet. */
  lemma SnippetContainsMatch(text: string, m: Span)
    requires ValidSpan(text, m) && m.start < m.stop
    requires !IsSpace(text[m.start]) && !IsSpace(text[m.stop - 1])
    ensures exists i :: InfixAt(ReplaceNewlines(text[m.start..m.stop]), ContextSnippet(text, m), i)
  {
    var lo, hi := WindowStart(m), WindowStop(text, m);
    MatchInWindow(text, lo, hi, m.start, m.stop);
    var w := ReplaceNewlines(text[lo..hi]);
    StripKeepsInfix(ReplaceNewlines(text[m.start..m.stop]), w, m.start - lo);
    assert ContextSnippet(text, m) == Strip(w);
  }

  /** Inside the replaced window, the replaced match sits at its offset and
      keeps its non-space ends. */
  lemma MatchInWindow(text: string, lo: int, hi: int, s: int, e: int)
    requires 0 <= lo <= s < e <= hi <= |text|
    requires !IsSpace(text[s]) && !IsSpace(text[e - 1])
    ensures var x := ReplaceNewlines(text[s..e]);
      && InfixAt(x, ReplaceNewlines(text[lo..hi]), s - lo)
      && |x| > 0 && !IsSpace(x[0]) && !IsSpace(x[|x| - 1])
  {
    var w := ReplaceNewlines(text[lo..hi]);
    var x := ReplaceNewlines(text[s..e]);
    assert forall k | 0 <= k < |x| :: x[k] == w[s - lo + k];
  }

  /** `{f(x) for x in xs}`, built entry by entry. */
  ghost function Image<A, B>(f: A --> B, xs: seq<A>): set<B>
    requires forall i | 0 <= i < |xs| :: f.requires(xs[i])
  {
    if xs == [] then {} else Image(f, xs[..|xs| - 1]) + {f(xs[|xs| - 1])}
  }

  lemma {:induction false} ImageMembers<A, B>(f: A --> B, xs: seq<A>, y: B)
    requires forall i | 0 <= i < |xs| :: f.requires(xs[i])
    ensures y in Image(f, xs) <==> exists i | 0 <= i < |xs| :: y == f(xs[i])
  {
    if xs != [] {
      var init := xs[..|xs| - 1];
      ImageMembers(f, init, y);
      assert forall i | 0 <= i < |init| :: init[i] == xs[i];
    }
  }

  lemma ImageStep<A, B>(f: A --> B, xs: seq<A>, i: int)
    requires forall i | 0 <= i < |xs| :: f.requires(xs[i])
    requires 0 <= i < |xs|
    ensures Image(f, xs[..i + 1]) == Image(f, xs[..i]) + {f(xs[i])}
  {
    assert xs[..i + 1][..i] == xs[..i];
  }

  /** `context_snippet` as a function of the match. */
  ghost function SnippetOf(text: string): Span --> string {
    m requires ValidSpan(text, m) => ContextSnippet(text, m)
  }

  /** The snippets of a list of spans. */
  ghost function SnippetSet(text: string, spans: seq<Span>): set<string>
    requires forall i | 0 <= i < |spans| :: ValidSpan(text, spans[i])
  {
    Image(SnippetOf(text), spans)
  }

  /** A snippet is in the set exactly when some span gives it. */
  lemma SnippetSetMembers(text: string, spans: seq<Span>, x: string)
    requires forall i | 0 <= i < |spans| :: ValidSpan(text, spans[i])
    ensures x in SnippetSet(text, spans) <==> exists i | 0 <= i < |spans| :: x == ContextSnippet(text, spans[i])
  {
    ImageMembers(SnippetOf(text), spans, x);
  }

  lemma SnippetSetStep(text: string, spans: seq<Span>, i: int)
    requires forall i | 0 <= i < |spans| :: ValidSpan(text, spans[i])
    requires 0 <= i < |spans|
    ensures SnippetSet(text, spans[..i + 1]) == SnippetSet(text, spans[..i]) + {ContextSnippet(text, spans[i])}
  {
    ImageStep(SnippetOf(text), spans, i);
  }

  lemma SnippetSetNoNewline(text: string, spans: seq<Span>)
    requires forall i | 0 <= i < |spans| :: ValidSpan(text, spans[i])
    ensures forall x | x in SnippetSet(text, spans) :: NoNewline(x)
  {
    forall x | x in SnippetSet(text, spans) {
      SnippetSetMembers(text, spans, x);
    }
  }

  /** `analyze_education(text)`, given the spans the education patterns
      match, pattern after pattern: one snippet per distinct context, in
      unspecified order. */
  method AnalyzeEducation(text: string, spans: seq<Span>) returns (snippets: seq<string>)
    requires forall i | 0 <= i < |spans| :: ValidSpan(text, spans[i])
    ensures NoDuplicates(snippets)
    ensures Elems(snippets) == SnippetSet(text, spans)
    ensures forall x | x in snippets :: NoNewline(x)
    ensures spans == [] ==> snippets == []
  {
    var educationFound: set<string> := {};
    var i := 0;
    while i < |spans|
      invariant 0 <= i <= |spans|
      invariant educationFound == SnippetSet(text, spans[..i])
    {
      var contextSnippet := ContextSnippet(text, spans[i]);
      SnippetSetStep(text, spans, i);
      educationFound := educationFound + {contextSnippet};
      i := i + 1;
    }
    assert spans[..i] == spans;
    snippets := ListOfSet(educationFound);
    SnippetSetNoNewline(text, spans);
    assert forall x | x in snippets :: x in Elems(snippets);
  }

  // ---------------------------------------------------------------------
  // analyze_experience
  // ---------------------------------------------------------------------

  /** A named entity from spaCy: its text and its label (`label_`). */
  datatype Entity = Entity(text: string, tag: string)

  const MentionPrefix := "Mention of: "
  const DatesMarker := "Key Dates Found:"
  const MaxDates: nat := 10

  /** `[ent.text.replace("\n", " ") for ent in doc.ents if ent.label_ == "DATE"]`. */
  function DateTexts(ents: seq<Entity>): (r: seq<string>)
    ensures forall d | d in r :: NoNewline(d)
    ensures forall d :: d in r <==> exists e | e in ents && e.tag == "DATE" :: d == ReplaceNewlines(e.text)
  {
    if ents == [] then []
    else
      var rest := DateTexts(ents[1..]);
      assert forall e :: e in ents <==> e == ents[0] || e in ents[1..];
      if ents[0].tag == "DATE" then [ReplaceNewlines(ents[0].text)] + rest else rest
  }

  /** The sort key `len`. */
  function LengthOf(s: string): real { |s| as real }

  /** The regex mentions as reported. */
  ghost function Mentions(yearMatches: seq<string>): set<string> {
    set m | m in yearMatches :: MentionPrefix + m
  }

  lemma MarkerNotMention(m: string)
    ensures MentionPrefix + m != DatesMarker
  {
    assert (MentionPrefix + m)[0] == 'M';
  }

  /** The kept dates: entries of `dates`, each once, at most ten, no date
      left out longer than one kept, so it holds the ten longest. */
  ghost predicate LongestDates(kept: seq<string>, dates: seq<string>) {
    && NoDuplicates(kept)
    && Elems(kept) <= Elems(dates)
    && |kept| == (if |Elems(dates)| <= MaxDates then |Elems(dates)| else MaxDates)
    && SortedDesc(kept, LengthOf)
    && forall i, j | 0 <= i < |dates| && 0 <= j < |kept| && dates[i] !in kept :: |dates[i]| <= |kept[j]|
  }

  /** An experience summary listing the dates `kept`: duplicate free, in
      unspecified order, holding every "Mention of: " phrase and, when there
      are DATE entities, the marker and the longest ten distinct dates (of
      dates of equal length which are kept depends on set order). */
  ghost predicate ExperienceSummary(summary: seq<string>, yearMatches: seq<string>, entities: Option<seq<Entity>>,
                                    kept: seq<string>) {
    && NoDuplicates(summary)
    && Elems(summary) == Mentions(yearMatches) +
         (if entities.Some? && DateTexts(entities.value) != [] then {DatesMarker} + Elems(kept) else {})
    && (entities.Some? ==> LongestDates(kept, DateTexts(entities.value)))
    && (entities.None? ==> kept == [])
  }

  /** `analyze_experience(text, nlp)`, given `yearMatches` (the matched
      strings of both year patterns, in order) and `entities` (spaCy's
      entities, or None when the model raised); `keptDates` are the dates it
      lists. */
  method AnalyzeExperience(yearMatches: seq<string>, entities: Option<seq<Entity>>)
    returns (summary: seq<string>, ghost keptDates: seq<string>)
    ensures ExperienceSummary(summary, yearMatches, entities, keptDates)
    ensures DatesMarker in summary <==> entities.Some? && DateTexts(entities.value) != []
  {
    var experienceMatches := MentionLines(yearMatches);
    ghost var mentions := Elems(experienceMatches);
    keptDates := [];
    ghost var dateLines: set<string> := {};
    if entities.Some? {
      var dateEntities := DateTexts(entities.value);
      if |dateEntities| > 0 {
        var lines, topDates := KeyDates(dateEntities);
        dateLines := {DatesMarker} + Elems(topDates);
        ElemsAppend([DatesMarker], topDates);
        ElemsSingleton(DatesMarker);
        ElemsAppend(experienceMatches, lines);
        experienceMatches := experienceMatches + lines;
        keptDates := topDates;
      } else {
        NoDatesKept(dateEntities);
      }
    }
    assert Elems(experienceMatches) == mentions + dateLines;
    summary := ListOfSet(Elems(experienceMatches));
    MarkerNotInMentions(yearMatches);
    assert DatesMarker in summary <==> DatesMarker in Elems(summary);
  }

  /** `experience_matches` after the loop over the year matches: one
      "Mention of: " line per match, in order. */
  method MentionLines(yearMatches: seq<string>) returns (lines: seq<string>)
    ensures |lines| == |yearMatches|
    ensures forall i | 0 <= i < |lines| :: lines[i] == MentionPrefix + yearMatches[i]
    ensures Elems(lines) == Mentions(yearMatches)
  {
    lines := [];
    var i := 0;
    while i < |yearMatches|
      invariant 0 <= i <= |yearMatches|
      invariant |lines| == i
      invariant forall k | 0 <= k < i :: lines[k] == MentionPrefix + yearMatches[k]
      invariant Elems(lines) == Mentions(yearMatches[..i])
    {
      MentionsStep(yearMatches, i);
      ElemsAppend(lines, [MentionPrefix + yearMatches[i]]);
      lines := lines + [MentionPrefix + yearMatches[i]];
      i := i + 1;
    }
    assert yearMatches[..i] == yearMatches;
  }

  /** The lines added for the DATE entities: the marker, then the longest
      ten distinct dates, longest first. */
  method KeyDates(dateEntities: seq<string>) returns (lines: seq<string>, kept: seq<string>)
    ensures lines == [DatesMarker] + kept
    ensures LongestDates(kept, dateEntities)
  {
    var uniqueDates := ListOfSet(Elems(dateEntities));
    var sortedDates := SortDesc(uniqueDates, LengthOf);
    SortedPermutation(uniqueDates, sortedDates);
    uniqueDates := sortedDates;
    var topDates := KeepLongest(uniqueDates, dateEntities);
    lines := [DatesMarker] + topDates;
    kept := topDates;
  }

  lemma NoDatesKept(dates: seq<string>)
    requires dates == []
    ensures LongestDates([], dates)
  {
  }

  lemma MentionsStep(yearMatches: seq<string>, i: int)
    requires 0 <= i < |yearMatches|
    ensures Mentions(yearMatches[..i + 1]) == Mentions(yearMatches[..i]) + {MentionPrefix + yearMatches[i]}
  {
    assert yearMatches[..i + 1] == yearMatches[..i] + [yearMatches[i]];
  }

  lemma MarkerNotInMentions(yearMatches: seq<string>)
    ensures DatesMarker !in Mentions(yearMatches)
  {
    forall m | m in yearMatches ensures MentionPrefix + m != DatesMarker {
      MarkerNotMention(m);
    }
  }

  /** `unique_dates[:10]` after the sort, proved to be the longest dates. */
  method KeepLongest(sorted: seq<string>, dates: seq<string>) returns (kept: seq<string>)
    requires NoDuplicates(sorted) && SortedDesc(sorted, LengthOf) && Elems(sorted) == Elems(dates)
    ensures kept == sorted[..if |sorted| <= MaxDates then |sorted| else MaxDates]
    ensures LongestDates(kept, dates)
  {
    ElemsCard(sorted);
    var n := if |sorted| <= MaxDates then |sorted| else MaxDates;
    kept := sorted[..n];
    PrefixOfSorted(sorted, n);
    forall i, j | 0 <= i < |dates| && 0 <= j < |kept| && dates[i] !in kept ensures |dates[i]| <= |kept[j]| {
      assert dates[i] in Elems(dates);
      DroppedShorter(sorted, n, dates[i], kept[j]);
    }
  }

  /** What the sort guarantees for a duplicate-free `u`. */
  lemma SortedPermutation(u: seq<string>, sorted: seq<string>)
    requires NoDuplicates(u) && sorted == SortDesc(u, LengthOf)
    ensures NoDuplicates(sorted) && Elems(sorted) == Elems(u) && |sorted| == |Elems(u)|
    ensures SortedDesc(sorted, LengthOf)
  {
    SortDescPermutes(u, LengthOf);
    PermutationNoDuplicates(u, sorted);
    ElemsCard(u);
  }

  lemma PrefixOfSorted(sorted: seq<string>, n: int)
    requires NoDuplicates(sorted) && SortedDesc(sorted, LengthOf) && 0 <= n <= |sorted|
    ensures NoDuplicates(sorted[..n]) && SortedDesc(sorted[..n], LengthOf)
    ensures Elems(sorted[..n]) <= Elems(sorted)
  {
  }

  lemma DroppedShorter(sorted: seq<string>, n: int, d: string, t: string)
    requires SortedDesc(sorted, LengthOf) && 0 <= n <= |sorted|
    requires d in sorted && d !in sorted[..n] && t in sorted[..n]
    ensures |d| <= |t|
  {
    var j :| 0 <= j < |sorted| && sorted[j] == d;
    var k :| 0 <= k < n && sorted[..n][k] == t;
    assert j >= n by {
      assert forall q | 0 <= q < n :: sorted[q] == sorted[..n][q];
    }
    PrefixKeepsLargest(sorted, LengthOf, n, k, j);
  }

  /** A permutation of a duplicate-free list is duplicate free and has the
      same elements. */
  lemma PermutationNoDuplicates<T>(u: seq<T>, v: seq<T>)
    requires NoDuplicates(u) && multiset(u) == multiset(v)
    ensures NoDuplicates(v) && Elems(v) == Elems(u) && |v| == |u|
  {
    assert forall x :: x in v <==> x in multiset(v);
    assert forall x :: x in u <==> x in multiset(u);
    assert Elems(v) == Elems(u);
    assert |v| == |multiset(v)| == |u|;
    ElemsCard(u);
    ElemsCard(v);
  }
}
