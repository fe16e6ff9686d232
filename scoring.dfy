/** The role scorer of app/services.py: `suggest_role_matches` (lines
    123-143) ranks every role of the catalog by the share of its required and
    good-to-have skills that were found, and `analyze_target_role` (lines
    145-175) breaks one role down into found and missing skills. Scores are
    exact reals: the float arithmetic and the final `round(score, 2)` are not
    modelled. */
module RoleScoring {
  import opened Wrappers
  import opened Strings
  import opened Models
  import opened Catalog
  import opened SkillExtraction
  import opened Sorting

  // ---------------------------------------------------------------------
  // The score formula
  // ---------------------------------------------------------------------

  /** `len(found.intersection(xs)) / len(xs)`, or 0 for an empty list: the
      denominator counts list entries, duplicates included. */
  function Fraction(found: set<string>, xs: seq<string>): (r: real)
    ensures 0.0 <= r <= 1.0
    ensures xs == [] ==> r == 0.0
    ensures r == 1.0 <==> xs != [] && NoDuplicates(xs) && Elems(xs) <= found
  {
    ElemsCard(xs);
    FoundShare(found, Elems(xs));
    if |xs| == 0 then 0.0
    else
      RatioBounds(|found * Elems(xs)|, |xs|);
      (|found * Elems(xs)| as real) / (|xs| as real)
  }

  /** A ratio of naturals `a / n` with `a <= n` lies in [0, 1] and is 1 only for `a == n`. */
  lemma RatioBounds(a: int, n: int)
    requires 0 <= a <= n && 0 < n
    ensures 0.0 <= (a as real) / (n as real) <= 1.0
    ensures (a as real) / (n as real) == 1.0 <==> a == n
  {
    var q := (a as real) / (n as real);
    assert q * (n as real) == a as real;
  }

  /** Ratios over the same positive denominator are ordered as their numerators. */
  lemma RatioMonotone(a: int, b: int, n: int)
    requires a <= b && 0 < n
    ensures (a as real) / (n as real) <= (b as real) / (n as real)
  {
    var d := ((b - a) as real) / (n as real);
    assert d * (n as real) == (b - a) as real;
    assert (b as real) / (n as real) - (a as real) / (n as real) == d;
  }

  /** `len(found & s)` is at most `len(s)`, with equality exactly when `s` is
      contained in `found`. */
  lemma FoundShare(found: set<string>, s: set<string>)
    ensures |found * s| <= |s|
    ensures |found * s| == |s| <==> s <= found
  {
    assert s == (found * s) + (s - found);
    assert |s| == |found * s| + |s - found|;
    if |found * s| == |s| {
      assert s - found == {};
    }
  }

  /** `(required_score * 0.7 + good_to_have_score * 0.3) * 100`. */
  function RoleScore(found: set<string>, p: RoleProfile): (r: real)
    ensures 0.0 <= r <= 100.0
    ensures r == 100.0 <==> Fraction(found, p.requiredSkills) == 1.0 && Fraction(found, p.goodToHave) == 1.0
  {
    (Fraction(found, p.requiredSkills) * 0.7 + Fraction(found, p.goodToHave) * 0.3) * 100.0
  }

  /** Finding more skills never lowers a role's score. */
  lemma RoleScoreMonotone(f1: set<string>, f2: set<string>, p: RoleProfile)
    requires f1 <= f2
    ensures RoleScore(f1, p) <= RoleScore(f2, p)
  {
    ShareMonotone(f1, f2, Elems(p.requiredSkills));
    ShareMonotone(f1, f2, Elems(p.goodToHave));
    FractionMonotone(f1, f2, p.requiredSkills);
    FractionMonotone(f1, f2, p.goodToHave);
  }

  lemma ShareMonotone(f1: set<string>, f2: set<string>, s: set<string>)
    requires f1 <= f2
    ensures |f1 * s| <= |f2 * s|
  {
    assert f2 * s == (f1 * s) + (f2 * s - f1 * s);
  }

  lemma FractionMonotone(f1: set<string>, f2: set<string>, xs: seq<string>)
    requires f1 <= f2
    ensures Fraction(f1, xs) <= Fraction(f2, xs)
  {
    if |xs| > 0 {
      ShareMonotone(f1, f2, Elems(xs));
      RatioMonotone(|f1 * Elems(xs)|, |f2 * Elems(xs)|, |xs|);
    }
  }

  /** analyze_target_role divides by the size of the skill SET, not the
      length of the list: `len(found & set(xs)) / len(set(xs))`. */
  function SetFraction(found: set<string>, xs: seq<string>): (r: real)
    ensures 0.0 <= r <= 1.0
    ensures r == 1.0 <==> xs != [] && Elems(xs) <= found
  {
    FoundShare(found, Elems(xs));
    assert xs != [] ==> xs[0] in Elems(xs);
    if |Elems(xs)| == 0 then 0.0
    else
      RatioBounds(|found * Elems(xs)|, |Elems(xs)|);
      (|found * Elems(xs)| as real) / (|Elems(xs)| as real)
  }

  /** The score analyze_target_role computes. */
  function TargetScore(found: set<string>, p: RoleProfile): (r: real)
    ensures 0.0 <= r <= 100.0
  {
    (SetFraction(found, p.requiredSkills) * 0.7 + SetFraction(found, p.goodToHave) * 0.3) * 100.0
  }

  /** For duplicate-free lists (every catalog profile) both ways of dividing
      agree, so the target score equals that role's ranking score. */
  lemma TargetScoreAgrees(found: set<string>, p: RoleProfile)
    requires NoDuplicates(p.requiredSkills) && NoDuplicates(p.goodToHave)
    ensures TargetScore(found, p) == RoleScore(found, p)
  {
    ElemsCard(p.requiredSkills);
    ElemsCard(p.goodToHave);
  }

  // ---------------------------------------------------------------------
  // Ranking: sorted(role_scores.items(), key=score, reverse=True)
  // ---------------------------------------------------------------------

  function ScoreOf(m: RoleMatch): real { m.score }

  // ---------------------------------------------------------------------
  // suggest_role_matches
  // ---------------------------------------------------------------------

  /** The `role_scores` dictionary after the loop, in insertion order. */
  function Scores(found: set<string>, roles: seq<JobRole>): (r: seq<RoleMatch>)
    ensures |r| == |roles|
    ensures forall i | 0 <= i < |roles| :: r[i] == RoleMatch(roles[i].0, RoleScore(found, roles[i].1))
  {
    seq(|roles|, i requires 0 <= i < |roles| => RoleMatch(roles[i].0, RoleScore(found, roles[i].1)))
  }

  /** `suggest_role_matches(skills)` over the role catalog `roles` (a
      dictionary, so its names are distinct): one match per role, each
      scored by the formula, ranked by `SortDesc` on the score. */
  method SuggestRoleMatches(skills: seq<Skill>, roles: seq<JobRole>) returns (matches: seq<RoleMatch>)
    requires NoDuplicates(RoleNames(roles))
    ensures matches == SortDesc(Scores(LowerNames(skills), roles), ScoreOf)
    ensures |matches| == |roles|
    ensures SortedDesc(matches, ScoreOf)
    ensures forall v :: WithKey(matches, ScoreOf, v) == WithKey(Scores(LowerNames(skills), roles), ScoreOf, v)
    ensures forall i | 0 <= i < |roles| ::
      RoleMatch(roles[i].0, RoleScore(LowerNames(skills), roles[i].1)) in matches
    ensures forall m | m in matches :: 0.0 <= m.score <= 100.0
  {
    var skillNamesFound := LowerNames(skills);
    var roleScores: seq<RoleMatch> := [];
    var i := 0;
    while i < |roles|
      invariant 0 <= i <= |roles|
      invariant roleScores == Scores(skillNamesFound, roles[..i])
    {
      var role, requirements := roles[i].0, roles[i].1;
      var finalScore := RoleScore(skillNamesFound, requirements);
      roleScores := roleScores + [RoleMatch(role, finalScore)];
      i := i + 1;
    }
    assert roles[..i] == roles;
    matches := SortDesc(roleScores, ScoreOf);
    SortDescCorrect(roleScores, ScoreOf);
    forall k | 0 <= k < |roles| ensures RoleMatch(roles[k].0, RoleScore(skillNamesFound, roles[k].1)) in matches {
      assert roleScores[k] in multiset(roleScores);
    }
    forall m | m in matches ensures 0.0 <= m.score <= 100.0 {
      assert m in multiset(roleScores);
    }
    assert |matches| == |multiset(matches)|;
  }

  // ---------------------------------------------------------------------
  // analyze_target_role
  // ---------------------------------------------------------------------

  /** The entries of `xs` that are (`keep`) or are not in `found`. */
  function Select(xs: seq<string>, found: set<string>, keep: bool): (r: seq<string>)
    ensures Elems(r) == if keep then Elems(xs) * found else Elems(xs) - found
  {
    if xs == [] then []
    else
      var rest := Select(xs[1..], found, keep);
      assert Elems(xs) == {xs[0]} + Elems(xs[1..]) by { assert xs == [xs[0]] + xs[1..]; }
      if (xs[0] in found) == keep then [xs[0]] + rest else rest
  }

  /** `analyze_target_role(skills, target)`: None for a role the catalog
      does not have; otherwise the target score and, sorted ascending, the
      found and missing required and good-to-have skills. */
  function AnalyzeTargetRole(skills: seq<Skill>, target: string, roles: seq<JobRole>): (r: Option<TargetRoleAnalysis>)
    ensures r.None? <==> target !in RoleNames(roles)
    ensures r.Some? ==> LookupRole(roles, target).Some? && r.value.role == target
  {
    match LookupRole(roles, target)
    case None => None
    case Some(p) =>
      var found := LowerNames(skills);
      Some(TargetRoleAnalysis(
        target,
        TargetScore(found, p),
        SortedSet(Select(p.requiredSkills, found, true)),
        SortedSet(Select(p.requiredSkills, found, false)),
        SortedSet(Select(p.goodToHave, found, true)),
        SortedSet(Select(p.goodToHave, found, false))))
  }

  /** For a known role the four lists are ascending without duplicates, the
      found and missing lists partition the role's required set and its
      good-to-have set, and each list is the unique ascending listing of its
      set (so it is what `sorted(list(...))` returns). */
  lemma TargetRoleBreakdown(skills: seq<Skill>, target: string, roles: seq<JobRole>)
    requires target in RoleNames(roles)
    ensures var r := AnalyzeTargetRole(skills, target, roles).value;
      var p := LookupRole(roles, target).value;
      var found := LowerNames(skills);
      && (target, p) in roles
      && r.score == TargetScore(found, p)
      && StrictlySorted(r.requiredFound) && StrictlySorted(r.requiredMissing)
      && StrictlySorted(r.goodToHaveFound) && StrictlySorted(r.goodToHaveMissing)
      && Elems(r.requiredFound) == Elems(p.requiredSkills) * found
      && Elems(r.requiredMissing) == Elems(p.requiredSkills) - found
      && Elems(r.goodToHaveFound) == Elems(p.goodToHave) * found
      && Elems(r.goodToHaveMissing) == Elems(p.goodToHave) - found
  {
  }

  /** Membership form of the breakdown: a skill is listed as found exactly
      when the role lists it and it was found, as missing exactly when the
      role lists it and it was not. */
  lemma TargetRoleMembers(skills: seq<Skill>, target: string, roles: seq<JobRole>, k: string)
    requires target in RoleNames(roles)
    ensures var r := AnalyzeTargetRole(skills, target, roles).value;
      var p := LookupRole(roles, target).value;
      var found := LowerNames(skills);
      && (k in r.requiredFound <==> k in p.requiredSkills && k in found)
      && (k in r.requiredMissing <==> k in p.requiredSkills && k !in found)
      && (k in r.goodToHaveFound <==> k in p.goodToHave && k in found)
      && (k in r.goodToHaveMissing <==> k in p.goodToHave && k !in found)
  {
    TargetRoleBreakdown(skills, target, roles);
    var r := AnalyzeTargetRole(skills, target, roles).value;
    var p := LookupRole(roles, target).value;
    var found := LowerNames(skills);
    SelectMember(r.requiredFound, p.requiredSkills, found, true, k);
    SelectMember(r.requiredMissing, p.requiredSkills, found, false, k);
    SelectMember(r.goodToHaveFound, p.goodToHave, found, true, k);
    SelectMember(r.goodToHaveMissing, p.goodToHave, found, false, k);
  }

  lemma SelectMember(r: seq<string>, xs: seq<string>, found: set<string>, keep: bool, k: string)
    requires Elems(r) == if keep then Elems(xs) * found else Elems(xs) - found
    ensures k in r <==> k in xs && (k in found) == keep
  {
    assert k in r <==> k in Elems(r);
    assert k in xs <==> k in Elems(xs);
  }

  /** No skill is both found and missing, and together they are the role's
      skills. */
  lemma TargetRolePartition(skills: seq<Skill>, target: string, roles: seq<JobRole>)
    requires target in RoleNames(roles)
    ensures var r := AnalyzeTargetRole(skills, target, roles).value;
      var p := LookupRole(roles, target).value;
      && Elems(r.requiredFound) !! Elems(r.requiredMissing)
      && Elems(r.requiredFound) + Elems(r.requiredMissing) == Elems(p.requiredSkills)
      && Elems(r.goodToHaveFound) !! Elems(r.goodToHaveMissing)
      && Elems(r.goodToHaveFound) + Elems(r.goodToHaveMissing) == Elems(p.goodToHave)
  {
    TargetRoleBreakdown(skills, target, roles);
    var p := LookupRole(roles, target).value;
    var found := LowerNames(skills);
    SplitSet(Elems(p.requiredSkills), found);
    SplitSet(Elems(p.goodToHave), found);
  }

  lemma SplitSet(s: set<string>, found: set<string>)
    ensures (s * found) !! (s - found) && (s * found) + (s - found) == s
  {
  }

  // ---------------------------------------------------------------------
  // The shipped catalogs
  // ---------------------------------------------------------------------

  /** A role listing `k` (required or good to have) scores below 100 for any
      found set without `k`. */
  lemma MissingSkillBelow100(found: set<string>, p: RoleProfile, k: string)
    requires k in p.requiredSkills || k in p.goodToHave
    requires k !in found
    ensures RoleScore(found, p) < 100.0
  {
  }

  /** The Frontend, Backend and DevOps roles list skills that are not in any
      skill category ("api", "figma", "security", ...), so the extractor
      never reports them and those roles score below 100 for every résumé. */
  lemma UncataloguedRolesBelow100(text: string)
    ensures var found := LowerNames(SkillsOf(SkillCategories, text));
      && RoleScore(found, FrontendDeveloper) < 100.0
      && RoleScore(found, BackendDeveloper) < 100.0
      && RoleScore(found, DevOpsEngineer) < 100.0
  {
    var found := LowerNames(SkillsOf(SkillCategories, text));
    UncataloguedRoleSkills();
    CatalogNames(text, "api");
    CatalogNames(text, "security");
    MissingSkillBelow100(found, FrontendDeveloper, "api");
    MissingSkillBelow100(found, BackendDeveloper, "api");
    MissingSkillBelow100(found, DevOpsEngineer, "security");
  }

  /** For every catalog role the target analysis reports the same score as
      the role's entry in the ranking. */
  lemma CatalogTargetScore(skills: seq<Skill>, target: string)
    requires target in RoleNames(JobRoles)
    ensures AnalyzeTargetRole(skills, target, JobRoles).value.score ==
      RoleScore(LowerNames(skills), LookupRole(JobRoles, target).value)
  {
    var p := LookupRole(JobRoles, target).value;
    var i :| 0 <= i < |JobRoles| && JobRoles[i] == (target, p);
    JobRolesWellFormed();
    TargetScoreAgrees(LowerNames(skills), p);
  }

  /** The catalog has distinct role names, so the ranking over it is
      well-defined: five matches, one per role. */
  method SuggestCatalogRoles(skills: seq<Skill>) returns (matches: seq<RoleMatch>)
    ensures matches == SortDesc(Scores(LowerNames(skills), JobRoles), ScoreOf)
    ensures |matches| == 5
  {
    JobRoleOrder();
    matches := SuggestRoleMatches(skills, JobRoles);
  }
}
