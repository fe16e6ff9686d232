/** The two résumé fixtures of tests/test_services.py and what the model
    says about them. Each text is written as the concatenation of its
    tokens (words and separators), so that facts about it can be proved a
    token at a time; `Concat` of the tokens is exactly the fixture's string. */
module Samples {
  import opened Strings
  import opened Catalog
  import opened SkillExtraction
  import opened RoleScoring
  import opened Models
  import opened Wrappers

  // ---------------------------------------------------------------------
  // Texts given as tokens
  // ---------------------------------------------------------------------

  /** The tokens `ts[lo..hi]` joined with no separator. */
  function Concat(ts: seq<string>, lo: nat, hi: nat): string
    requires lo <= hi <= |ts|
    decreases hi - lo
  {
    if lo == hi then "" else ts[lo] + Concat(ts, lo + 1, hi)
  }

  function LowerAll(ts: seq<string>): (r: seq<string>)
    ensures |r| == |ts|
    ensures forall i | 0 <= i < |ts| :: r[i] == Lower(ts[i])
  {
    seq(|ts|, i requires 0 <= i < |ts| => Lower(ts[i]))
  }

  lemma AppendAssoc(x: string, y: string, z: string)
    ensures x + (y + z) == (x + y) + z
  {
  }

  lemma {:induction false} ConcatSplit(ts: seq<string>, lo: nat, mid: nat, hi: nat)
    requires lo <= mid <= hi <= |ts|
    ensures Concat(ts, lo, hi) == Concat(ts, lo, mid) + Concat(ts, mid, hi)
    decreases mid - lo
  {
    if lo < mid {
      ConcatSplit(ts, lo + 1, mid, hi);
      AppendAssoc(ts[lo], Concat(ts, lo + 1, mid), Concat(ts, mid, hi));
    }
  }

  /** Lower-casing a text lower-cases each of its tokens. */
  lemma {:induction false} ConcatLower(ts: seq<string>, lo: nat, hi: nat)
    requires lo <= hi <= |ts|
    ensures Lower(Concat(ts, lo, hi)) == Concat(LowerAll(ts), lo, hi)
    decreases hi - lo
  {
    if lo < hi {
      LowerAppend(ts[lo], Concat(ts, lo + 1, hi));
      ConcatLower(ts, lo + 1, hi);
    }
  }

  /** A character occurs in a text exactly when it occurs in one of its tokens. */
  lemma {:induction false} ConcatChars(ts: seq<string>, lo: nat, hi: nat, c: char)
    requires lo <= hi <= |ts|
    ensures c in Concat(ts, lo, hi) <==> exists i | lo <= i < hi :: c in ts[i]
    decreases hi - lo
  {
    if lo < hi {
      ConcatChars(ts, lo + 1, hi, c);
    }
  }

  lemma {:induction false} ConcatLast(ts: seq<string>, lo: nat, hi: nat)
    requires lo < hi <= |ts| && ts[hi - 1] != []
    ensures Concat(ts, lo, hi) != []
    ensures Concat(ts, lo, hi)[|Concat(ts, lo, hi)| - 1] == ts[hi - 1][|ts[hi - 1]| - 1]
  {
    ConcatSplit(ts, lo, hi - 1, hi);
    assert Concat(ts, hi - 1, hi) == ts[hi - 1] + "";
  }

  /** A token that is a keyword starting and ending with word characters,
      between tokens that end and start with non-word characters, is found. */
  lemma WordToken(ts: seq<string>, n: nat)
    requires n < |ts| && ts[n] != [] && IsWordChar(ts[n][0]) && IsWordChar(ts[n][|ts[n]| - 1])
    requires n == 0 || (ts[n - 1] != [] && !IsWordChar(ts[n - 1][|ts[n - 1]| - 1]))
    requires n + 1 == |ts| || (ts[n + 1] != [] && !IsWordChar(ts[n + 1][0]))
    ensures OccursAsWord(ts[n], Concat(ts, 0, |ts|))
  {
    var pre, post := Concat(ts, 0, n), Concat(ts, n + 1, |ts|);
    ConcatSplit(ts, 0, n, |ts|);
    assert Concat(ts, n, |ts|) == ts[n] + post;
    AppendAssoc(pre, ts[n], post);
    if n > 0 {
      ConcatLast(ts, 0, n);
    }
    if n + 1 < |ts| {
      assert post == ts[n + 1] + Concat(ts, n + 2, |ts|);
    }
    WordBetween(pre, ts[n], post);
  }

  /** A keyword with a character found in no token is not found. */
  lemma AbsentCharTokens(k: string, ts: seq<string>, c: char)
    requires c in k
    requires forall i | 0 <= i < |ts| :: c !in ts[i]
    ensures !OccursAsWord(k, Concat(ts, 0, |ts|))
  {
    ConcatChars(ts, 0, |ts|, c);
    AbsentCharNoMatch(k, Concat(ts, 0, |ts|), c);
  }

  /** `UniqueCharNoMatch` with the middle part `m` made of the tokens in
      `[lo, hi)`. */
  lemma UniqueCharTokens(k: string, ts: seq<string>, lo: nat, hi: nat, p: nat)
    requires lo <= hi <= |ts|
    requires p < |Concat(ts, lo, hi)|
    requires Concat(ts, lo, hi)[p] in k
    requires forall i | 0 <= i < |ts| && !(lo <= i < hi) :: Concat(ts, lo, hi)[p] !in ts[i]
    requires forall q | 0 <= q < |Concat(ts, lo, hi)| && q != p :: Concat(ts, lo, hi)[q] != Concat(ts, lo, hi)[p]
    requires forall j | 0 <= j < |k| && k[j] == Concat(ts, lo, hi)[p] :: NeighbourDiffers(k, j, Concat(ts, lo, hi), p)
    ensures !OccursAsWord(k, Concat(ts, 0, |ts|))
  {
    var m := Concat(ts, lo, hi);
    var c := m[p];
    ConcatSplit(ts, 0, lo, |ts|);
    ConcatSplit(ts, lo, hi, |ts|);
    ConcatChars(ts, 0, lo, c);
    ConcatChars(ts, hi, |ts|, c);
    AppendAssoc(Concat(ts, 0, lo), m, Concat(ts, hi, |ts|));
    UniqueCharNoMatch(k, Concat(ts, 0, lo), m, Concat(ts, hi, |ts|), p);
  }

  // ---------------------------------------------------------------------
  // Finding catalog keywords in a text given as tokens
  // ---------------------------------------------------------------------

  /** The lower-case names `extract_skills` reports for `text`. */
  function SkillNames(text: string): set<string> {
    LowerNames(SkillsOf(SkillCategories, text))
  }

  /** A word token that is the `j`-th keyword of category `c` is reported. */
  lemma FoundToken(text: string, ts: seq<string>, n: nat, c: nat, j: nat)
    requires Lower(text) == Concat(ts, 0, |ts|)
    requires n < |ts| && ts[n] != [] && IsWordChar(ts[n][0]) && IsWordChar(ts[n][|ts[n]| - 1])
    requires n == 0 || (ts[n - 1] != [] && !IsWordChar(ts[n - 1][|ts[n - 1]| - 1]))
    requires n + 1 == |ts| || (ts[n + 1] != [] && !IsWordChar(ts[n + 1][0]))
    requires c < |SkillCategories| && j < |SkillCategories[c].1| && SkillCategories[c].1[j] == ts[n]
    ensures ts[n] in SkillNames(text)
  {
    WordToken(ts, n);
    KeywordsContains(SkillCategories, c, j);
    CatalogNames(text, ts[n]);
  }

  /** A name that does not occur as a word is not reported. */
  lemma NotFound(text: string, k: string)
    requires !OccursAsWord(k, Lower(text))
    ensures k !in SkillNames(text)
  {
    CatalogNames(text, k);
  }

  // ---------------------------------------------------------------------
  // The Software Engineer fixture
  // ---------------------------------------------------------------------

  const SweTokens: seq<string> := [
    "\n    Skills:\n    ", "Python", ", ", "Java", ", ", "Git", ", ", "Docker", ", ", "Kubernetes",
    ", ", "AWS", ", ", "SQL", ", ", "JavaScript", ", ", "React", "\n    "]
  const SweLowerTokens: seq<string> := [
    "\n    skills:\n    ", "python", ", ", "java", ", ", "git", ", ", "docker", ", ", "kubernetes",
    ", ", "aws", ", ", "sql", ", ", "javascript", ", ", "react", "\n    "]

  /** `sample_text_swe`. */
  function SweText(): string {
    Concat(SweTokens, 0, |SweTokens|)
  }

  lemma SweTokensLower0()
    ensures Lower(SweTokens[0]) == SweLowerTokens[0]
    ensures Lower(SweTokens[1]) == SweLowerTokens[1]
    ensures Lower(SweTokens[2]) == SweLowerTokens[2]
    ensures Lower(SweTokens[3]) == SweLowerTokens[3]
    ensures Lower(SweTokens[4]) == SweLowerTokens[4]
  {
  }

  lemma SweTokensLower1()
    ensures Lower(SweTokens[5]) == SweLowerTokens[5]
    ensures Lower(SweTokens[6]) == SweLowerTokens[6]
    ensures Lower(SweTokens[7]) == SweLowerTokens[7]
    ensures Lower(SweTokens[8]) == SweLowerTokens[8]
    ensures Lower(SweTokens[9]) == SweLowerTokens[9]
  {
  }

  lemma SweTokensLower2()
    ensures Lower(SweTokens[10]) == SweLowerTokens[10]
    ensures Lower(SweTokens[11]) == SweLowerTokens[11]
    ensures Lower(SweTokens[12]) == SweLowerTokens[12]
    ensures Lower(SweTokens[13]) == SweLowerTokens[13]
    ensures Lower(SweTokens[14]) == SweLowerTokens[14]
  {
  }

  lemma SweTokensLower3()
    ensures Lower(SweTokens[15]) == SweLowerTokens[15]
    ensures Lower(SweTokens[16]) == SweLowerTokens[16]
    ensures Lower(SweTokens[17]) == SweLowerTokens[17]
    ensures Lower(SweTokens[18]) == SweLowerTokens[18]
  {
  }

  lemma SweLower()
    ensures Lower(SweText()) == Concat(SweLowerTokens, 0, |SweLowerTokens|)
  {
    ConcatLower(SweTokens, 0, |SweTokens|);
    SweTokensLower0();
    SweTokensLower1();
    SweTokensLower2();
    SweTokensLower3();
    assert forall i | 0 <= i < |SweTokens| :: Lower(SweTokens[i]) == SweLowerTokens[i];
    assert LowerAll(SweTokens) == SweLowerTokens;
  }

  lemma SweFindsPython() ensures "python" in SkillNames(SweText()) {
    SweLower();
    FoundToken(SweText(), SweLowerTokens, 1, 0, 0);
  }

  lemma SweFindsJava() ensures "java" in SkillNames(SweText()) {
    SweLower();
    FoundToken(SweText(), SweLowerTokens, 3, 0, 1);
  }

  lemma SweFindsGit() ensures "git" in SkillNames(SweText()) {
    SweLower();
    FoundToken(SweText(), SweLowerTokens, 5, 6, 7);
  }

  lemma SweFindsDocker() ensures "docker" in SkillNames(SweText()) {
    SweLower();
    FoundToken(SweText(), SweLowerTokens, 7, 4, 4);
  }

  lemma SweFindsSql() ensures "sql" in SkillNames(SweText()) {
    SweLower();
    FoundToken(SweText(), SweLowerTokens, 13, 0, 14);
  }

  lemma SweFindsReact() ensures "react" in SkillNames(SweText()) {
    SweLower();
    FoundToken(SweText(), SweLowerTokens, 17, 1, 2);
  }

  lemma SweMissesTeamwork() ensures "teamwork" !in SkillNames(SweText()) {
    SweLower();
    AbsentCharTokens("teamwork", SweLowerTokens, 'm');
    NotFound(SweText(), "teamwork");
  }

  lemma SweMissesAgile() ensures "agile" !in SkillNames(SweText()) {
    SweLower();
    assert Concat(SweLowerTokens, 4, 6) == ", git";
    UniqueCharTokens("agile", SweLowerTokens, 4, 6, 2);
    NotFound(SweText(), "agile");
  }

  /** test_extract_skills_swe: python, react, docker, git, sql and java are
      found, figma is not; teamwork and agile are not found either. */
  lemma SweSkills()
    ensures "python" in SkillNames(SweText()) && "java" in SkillNames(SweText())
    ensures "git" in SkillNames(SweText()) && "docker" in SkillNames(SweText())
    ensures "sql" in SkillNames(SweText()) && "react" in SkillNames(SweText())
    ensures "figma" !in SkillNames(SweText())
    ensures "teamwork" !in SkillNames(SweText()) && "agile" !in SkillNames(SweText())
  {
    SweFindsPython();
    SweFindsJava();
    SweFindsGit();
    SweFindsDocker();
    SweFindsSql();
    SweFindsReact();
    UncataloguedRoleSkills();
    CatalogNames(SweText(), "figma");
    SweMissesTeamwork();
    SweMissesAgile();
  }

  // ---------------------------------------------------------------------
  // The Data Scientist fixture
  // ---------------------------------------------------------------------

  const DsTokens: seq<string> := [
    "\n    Skills:\n    ", "Python", ", ", "R", ", ", "SQL", ", ", "Pandas", ", ", "Scikit-learn",
    ", ", "TensorFlow", ", ", "Matplotlib", ", ", "Tableau", "\n    "]
  const DsLowerTokens: seq<string> := [
    "\n    skills:\n    ", "python", ", ", "r", ", ", "sql", ", ", "pandas", ", ", "scikit-learn",
    ", ", "tensorflow", ", ", "matplotlib", ", ", "tableau", "\n    "]

  /** `sample_text_ds`. */
  function DsText(): string {
    Concat(DsTokens, 0, |DsTokens|)
  }

  lemma DsTokensLower0()
    ensures Lower(DsTokens[0]) == DsLowerTokens[0]
    ensures Lower(DsTokens[1]) == DsLowerTokens[1]
    ensures Lower(DsTokens[2]) == DsLowerTokens[2]
    ensures Lower(DsTokens[3]) == DsLowerTokens[3]
    ensures Lower(DsTokens[4]) == DsLowerTokens[4]
  {
  }

  lemma DsTokensLower1()
    ensures Lower(DsTokens[5]) == DsLowerTokens[5]
    ensures Lower(DsTokens[6]) == DsLowerTokens[6]
    ensures Lower(DsTokens[7]) == DsLowerTokens[7]
    ensures Lower(DsTokens[8]) == DsLowerTokens[8]
    ensures Lower(DsTokens[9]) == DsLowerTokens[9]
  {
  }

  lemma DsTokensLower2()
    ensures Lower(DsTokens[10]) == DsLowerTokens[10]
    ensures Lower(DsTokens[11]) == DsLowerTokens[11]
    ensures Lower(DsTokens[12]) == DsLowerTokens[12]
    ensures Lower(DsTokens[13]) == DsLowerTokens[13]
    ensures Lower(DsTokens[14]) == DsLowerTokens[14]
  {
  }

  lemma DsTokensLower3()
    ensures Lower(DsTokens[15]) == DsLowerTokens[15]
    ensures Lower(DsTokens[16]) == DsLowerTokens[16]
  {
  }

  lemma DsLower()
    ensures Lower(DsText()) == Concat(DsLowerTokens, 0, |DsLowerTokens|)
  {
    ConcatLower(DsTokens, 0, |DsTokens|);
    DsTokensLower0();
    DsTokensLower1();
    DsTokensLower2();
    DsTokensLower3();
    assert forall i | 0 <= i < |DsTokens| :: Lower(DsTokens[i]) == DsLowerTokens[i];
    assert LowerAll(DsTokens) == DsLowerTokens;
  }

  lemma DsFindsPython() ensures "python" in SkillNames(DsText()) {
    DsLower();
    FoundToken(DsText(), DsLowerTokens, 1, 0, 0);
  }

  lemma DsFindsSql() ensures "sql" in SkillNames(DsText()) {
    DsLower();
    FoundToken(DsText(), DsLowerTokens, 5, 0, 14);
  }

  lemma DsFindsPandas() ensures "pandas" in SkillNames(DsText()) {
    DsLower();
    FoundToken(DsText(), DsLowerTokens, 7, 5, 4);
  }

  lemma DsFindsScikitLearn() ensures "scikit-learn" in SkillNames(DsText()) {
    DsLower();
    FoundToken(DsText(), DsLowerTokens, 9, 5, 2);
  }

  lemma DsFindsTensorflow() ensures "tensorflow" in SkillNames(DsText()) {
    DsLower();
    FoundToken(DsText(), DsLowerTokens, 11, 5, 0);
  }

  lemma DsFindsTableau() ensures "tableau" in SkillNames(DsText()) {
    DsLower();
    FoundToken(DsText(), DsLowerTokens, 15, 5, 17);
  }

  lemma DsMissesDocker() ensures "docker" !in SkillNames(DsText()) {
    DsLower();
    assert Concat(DsLowerTokens, 9, 10) == "scikit-learn";
    UniqueCharTokens("docker", DsLowerTokens, 9, 10, 1);
    NotFound(DsText(), "docker");
  }

  /** test_extract_skills_ds: python, sql, pandas, tensorflow, scikit-learn
      and tableau are found, docker is not. */
  lemma DsSkills()
    ensures "python" in SkillNames(DsText()) && "sql" in SkillNames(DsText())
    ensures "pandas" in SkillNames(DsText()) && "tensorflow" in SkillNames(DsText())
    ensures "scikit-learn" in SkillNames(DsText()) && "tableau" in SkillNames(DsText())
    ensures "docker" !in SkillNames(DsText())
  {
    DsFindsPython();
    DsFindsSql();
    DsFindsPandas();
    DsFindsScikitLearn();
    DsFindsTensorflow();
    DsFindsTableau();
    DsMissesDocker();
  }

  // ---------------------------------------------------------------------
  // Target-role analysis of the Software Engineer fixture
  // ---------------------------------------------------------------------

  /** test_target_role_analysis_swe: java is a found and teamwork a missing
      required skill, docker a found and agile a missing good-to-have one. */
  lemma SweTargetRole()
    ensures var r := AnalyzeTargetRole(SkillsOf(SkillCategories, SweText()), "Software Engineer", JobRoles);
      && r.Some?
      && r.value.role == "Software Engineer"
      && "java" in r.value.requiredFound && "teamwork" in r.value.requiredMissing
      && "docker" in r.value.goodToHaveFound && "agile" in r.value.goodToHaveMissing
  {
    SweSkills();
    SweTargetRoleOf(SkillsOf(SkillCategories, SweText()));
  }

  lemma SweTargetRoleOf(skills: seq<Skill>)
    requires "java" in LowerNames(skills) && "teamwork" !in LowerNames(skills)
    requires "docker" in LowerNames(skills) && "agile" !in LowerNames(skills)
    ensures var r := AnalyzeTargetRole(skills, "Software Engineer", JobRoles);
      && r.Some?
      && r.value.role == "Software Engineer"
      && "java" in r.value.requiredFound && "teamwork" in r.value.requiredMissing
      && "docker" in r.value.goodToHaveFound && "agile" in r.value.goodToHaveMissing
  {
    LookupSoftwareEngineer();
    TargetRoleMembers(skills, "Software Engineer", JobRoles, "java");
    TargetRoleMembers(skills, "Software Engineer", JobRoles, "teamwork");
    TargetRoleMembers(skills, "Software Engineer", JobRoles, "docker");
    TargetRoleMembers(skills, "Software Engineer", JobRoles, "agile");
  }

  /** test_invalid_target_role: a role outside the catalog gives no analysis. */
  lemma UnknownTargetRole(skills: seq<Skill>)
    ensures AnalyzeTargetRole(skills, "Galactic Emperor", JobRoles).None?
  {
    JobRoleOrder();
    assert "Galactic Emperor" !in RoleNames(JobRoles);
  }
}
