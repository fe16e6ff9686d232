/** The two static catalogs of app/constants.py, in declaration order
    (Python dictionaries keep insertion order, and both the skill scan and
    the tie order of the role ranking depend on it). */
module Catalog {
  import opened Wrappers
  import opened Strings

  /** One category of the skill catalog: its name and its keywords, in order. */
  type SkillCategory = (string, seq<string>)

  /** A role profile: required skills, good-to-have skills, and the wording
      suggested for the résumé (experience keywords). */
  datatype RoleProfile = RoleProfile(
    requiredSkills: seq<string>,
    goodToHave: seq<string>,
    experienceKeywords: seq<string>)

  type JobRole = (string, RoleProfile)

  // ---------------------------------------------------------------------
  // SKILL_CATEGORIES
  // ---------------------------------------------------------------------

  const ProgrammingLanguages: seq<string> := [
    "python", "java", "javascript", "typescript", "c++", "c#", "go", "golang", "ruby",
    "php", "swift", "kotlin", "r", "matlab", "sql", "scala", "perl", "rust"]
  const WebFrontend: seq<string> := [
    "html", "css", "react", "angular", "vue", "vue.js", "next.js", "nextjs",
    "svelte", "jquery", "bootstrap", "tailwind", "tailwindcss", "sass", "less", "webpack", "babel"]
  const WebBackend: seq<string> := [
    "node.js", "nodejs", "express", "django", "flask", "fastapi", "ruby on rails",
    "spring", "spring boot", ".net", "asp.net", "laravel"]
  const DatabaseSystems: seq<string> := [
    "mysql", "postgresql", "mongodb", "redis", "oracle", "sqlite",
    "microsoft sql server", "sql server", "cassandra", "elasticsearch", "dynamodb", "firebase"]
  const DevOpsCloud: seq<string> := [
    "aws", "azure", "gcp", "google cloud platform", "docker", "kubernetes", "k8s",
    "terraform", "ansible", "jenkins", "gitlab ci", "github actions", "ci/cd",
    "prometheus", "grafana", "linux", "bash", "powershell", "nginx", "apache"]
  const DataScienceML: seq<string> := [
    "tensorflow", "pytorch", "scikit-learn", "keras", "pandas", "numpy", "scipy",
    "matplotlib", "seaborn", "jupyter", "spark", "apache spark", "hadoop", "nlp",
    "computer vision", "opencv", "d3.js", "tableau", "power bi", "looker"]
  const ProjectManagementTools: seq<string> := [
    "agile", "scrum", "kanban", "jira", "confluence", "trello", "asana", "git",
    "github", "gitlab", "bitbucket", "svn", "project management"]
  const SoftSkills: seq<string> := [
    "leadership", "communication", "teamwork", "problem solving", "analytical",
    "critical thinking", "collaboration", "mentoring", "adaptability", "time management"]

  const SkillCategories: seq<SkillCategory> := [
    ("Programming Languages", ProgrammingLanguages),
    ("Web Development (Frontend)", WebFrontend),
    ("Web Development (Backend)", WebBackend),
    ("Database Systems", DatabaseSystems),
    ("DevOps & Cloud", DevOpsCloud),
    ("Data Science & ML", DataScienceML),
    ("Project Management & Tools", ProjectManagementTools),
    ("Soft Skills", SoftSkills)]

  // ---------------------------------------------------------------------
  // JOB_ROLES
  // ---------------------------------------------------------------------

  const SoftwareEngineer := RoleProfile(
    ["python", "java", "javascript", "sql", "git", "teamwork"],
    ["docker", "kubernetes", "aws", "ci/cd", "agile", "react", "node.js", "c++"],
    ["development", "implementation", "testing", "debugging", "optimization", "code review"])
  const DataScientist := RoleProfile(
    ["python", "r", "sql", "pandas", "scikit-learn", "matplotlib"],
    ["tensorflow", "pytorch", "spark", "tableau", "power bi", "nlp", "computer vision", "aws"],
    ["analysis", "modeling", "visualization", "research", "prediction", "a/b testing", "algorithms"])
  const FrontendDeveloper := RoleProfile(
    ["html", "css", "javascript", "react", "git", "api"],
    ["typescript", "vue", "angular", "next.js", "tailwind", "figma", "sass", "webpack"],
    ["frontend", "ui", "user interface", "web applications", "responsive", "cross-browser"])
  const BackendDeveloper := RoleProfile(
    ["node.js", "python", "java", "sql", "api", "rest", "git", "mongodb", "postgresql"],
    ["docker", "kubernetes", "aws", "gcp", "django", "flask", "spring boot", "microservices", "graphql"],
    ["backend", "api development", "database design", "server-side", "microservices", "performance"])
  const DevOpsEngineer := RoleProfile(
    ["linux", "aws", "docker", "kubernetes", "ci/cd", "jenkins", "terraform", "bash"],
    ["python", "ansible", "prometheus", "grafana", "gcp", "azure", "security"],
    ["automation", "deployment", "monitoring", "infrastructure", "iac", "scalability", "reliability"])

  const JobRoles: seq<JobRole> := [
    ("Software Engineer", SoftwareEngineer),
    ("Data Scientist", DataScientist),
    ("Frontend Developer", FrontendDeveloper),
    ("Backend Developer", BackendDeveloper),
    ("DevOps Engineer", DevOpsEngineer)]

  // ---------------------------------------------------------------------
  // Views of the catalogs
  // ---------------------------------------------------------------------

  /** Every keyword of the skill catalog, category after category. */
  function Keywords(cats: seq<SkillCategory>): seq<string> {
    if cats == [] then [] else cats[0].1 + Keywords(cats[1..])
  }

  lemma {:induction false} KeywordsContains(cats: seq<SkillCategory>, c: nat, k: nat)
    requires c < |cats| && k < |cats[c].1|
    ensures cats[c].1[k] in Keywords(cats)
  {
    if c > 0 {
      assert cats[1..][c - 1] == cats[c];
      KeywordsContains(cats[1..], c - 1, k);
    }
  }

  function RoleNames(roles: seq<JobRole>): (r: seq<string>)
    ensures |r| == |roles|
    ensures forall i | 0 <= i < |roles| :: r[i] == roles[i].0
  {
    seq(|roles|, i requires 0 <= i < |roles| => roles[i].0)
  }

  /** `JOB_ROLES.get(name)`: the profile of the first role with that name. */
  function LookupRole(roles: seq<JobRole>, name: string): (r: Option<RoleProfile>)
    ensures r.None? <==> name !in RoleNames(roles)
    ensures r.Some? ==> (name, r.value) in roles
  {
    if roles == [] then None
    else if roles[0].0 == name then Some(roles[0].1)
    else
      assert RoleNames(roles) == [roles[0].0] + RoleNames(roles[1..]);
      LookupRole(roles[1..], name)
  }

  predicate Disjoint(a: seq<string>, b: seq<string>) {
    forall i, j | 0 <= i < |a| && 0 <= j < |b| :: a[i] != b[j]
  }

  lemma DisjointAppend(a: seq<string>, b: seq<string>, c: seq<string>)
    requires Disjoint(a, b) && Disjoint(a, c)
    ensures Disjoint(a, b + c)
  {
    forall i, j | 0 <= i < |a| && 0 <= j < |b + c| ensures a[i] != (b + c)[j] {
      if j >= |b| { assert (b + c)[j] == c[j - |b|]; }
    }
  }

  /** A role profile the scorer can rely on: both skill lists non-empty and
      duplicate-free, no skill both required and good-to-have, and at least
      one experience keyword. */
  predicate WellFormedProfile(p: RoleProfile) {
    && |p.requiredSkills| > 0
    && |p.goodToHave| > 0
    && |p.experienceKeywords| > 0
    && NoDuplicates(p.requiredSkills)
    && NoDuplicates(p.goodToHave)
    && NoDuplicates(p.experienceKeywords)
    && Disjoint(p.requiredSkills, p.goodToHave)
  }

  lemma NoDuplicatesAppend(a: seq<string>, b: seq<string>)
    requires NoDuplicates(a) && NoDuplicates(b) && Disjoint(a, b)
    ensures NoDuplicates(a + b)
  {
    forall i, j | 0 <= i < j < |a + b| ensures (a + b)[i] != (a + b)[j] {
      if i < |a| && j >= |a| {
        assert (a + b)[i] == a[i] && (a + b)[j] == b[j - |a|];
      }
    }
  }

  // ---------------------------------------------------------------------
  // Facts about the catalogs, checked by evaluation
  // ---------------------------------------------------------------------

  lemma KeywordsOfSkillCategories()
    ensures Keywords(SkillCategories) == ProgrammingLanguages + (WebFrontend + (WebBackend + (DatabaseSystems + (DevOpsCloud + (DataScienceML + (ProjectManagementTools + SoftSkills))))))
  {
    var c := SkillCategories;
    assert Keywords(c[8..]) == [];
    assert Keywords(c[7..]) == c[7].1 + Keywords(c[8..]) by { assert c[7..][1..] == c[8..]; }
    assert Keywords(c[6..]) == c[6].1 + Keywords(c[7..]) by { assert c[6..][1..] == c[7..]; }
    assert Keywords(c[5..]) == c[5].1 + Keywords(c[6..]) by { assert c[5..][1..] == c[6..]; }
    assert Keywords(c[4..]) == c[4].1 + Keywords(c[5..]) by { assert c[4..][1..] == c[5..]; }
    assert Keywords(c[3..]) == c[3].1 + Keywords(c[4..]) by { assert c[3..][1..] == c[4..]; }
    assert Keywords(c[2..]) == c[2].1 + Keywords(c[3..]) by { assert c[2..][1..] == c[3..]; }
    assert Keywords(c[1..]) == c[1].1 + Keywords(c[2..]) by { assert c[1..][1..] == c[2..]; }
    assert Keywords(c[0..]) == c[0].1 + Keywords(c[1..]) by { assert c[0..][1..] == c[1..]; }
  }

  /** What every category list satisfies: no keyword twice, all keywords in
      lower case, and none of the skills that only role profiles mention. */
  predicate CleanCategory(kws: seq<string>) {
    && NoDuplicates(kws)
    && (forall k | 0 <= k < |kws| :: IsLowercase(kws[k]))
    && (forall k | k in UncataloguedSkills :: k !in kws)
  }

  /** Skills named by some role profile but by no skill category. */
  const UncataloguedSkills: seq<string> := ["api", "rest", "microservices", "graphql", "figma", "security"]

  lemma ProgrammingLanguagesDistinct() ensures NoDuplicates(ProgrammingLanguages) {}
  lemma ProgrammingLanguagesLowercase() ensures forall k | 0 <= k < |ProgrammingLanguages| :: IsLowercase(ProgrammingLanguages[k]) {}
  lemma ProgrammingLanguagesUncatalogued() ensures forall k | k in UncataloguedSkills :: k !in ProgrammingLanguages {}
  lemma CleanProgrammingLanguages() ensures CleanCategory(ProgrammingLanguages) { ProgrammingLanguagesDistinct(); ProgrammingLanguagesLowercase(); ProgrammingLanguagesUncatalogued(); }
  lemma WebFrontendDistinct() ensures NoDuplicates(WebFrontend) {}
  lemma WebFrontendLowercase() ensures forall k | 0 <= k < |WebFrontend| :: IsLowercase(WebFrontend[k]) {}
  lemma WebFrontendUncatalogued() ensures forall k | k in UncataloguedSkills :: k !in WebFrontend {}
  lemma CleanWebFrontend() ensures CleanCategory(WebFrontend) { WebFrontendDistinct(); WebFrontendLowercase(); WebFrontendUncatalogued(); }
  lemma WebBackendDistinct() ensures NoDuplicates(WebBackend) {}
  lemma WebBackendLowercase() ensures forall k | 0 <= k < |WebBackend| :: IsLowercase(WebBackend[k]) {}
  lemma WebBackendUncatalogued() ensures forall k | k in UncataloguedSkills :: k !in WebBackend {}
  lemma CleanWebBackend() ensures CleanCategory(WebBackend) { WebBackendDistinct(); WebBackendLowercase(); WebBackendUncatalogued(); }
  lemma DatabaseSystemsDistinct() ensures NoDuplicates(DatabaseSystems) {}
  lemma DatabaseSystemsLowercase() ensures forall k | 0 <= k < |DatabaseSystems| :: IsLowercase(DatabaseSystems[k]) {}
  lemma DatabaseSystemsUncatalogued() ensures forall k | k in UncataloguedSkills :: k !in DatabaseSystems {}
  lemma CleanDatabaseSystems() ensures CleanCategory(DatabaseSystems) { DatabaseSystemsDistinct(); DatabaseSystemsLowercase(); DatabaseSystemsUncatalogued(); }
  lemma DevOpsCloudDistinct() ensures NoDuplicates(DevOpsCloud) {}
  lemma DevOpsCloudLowercase() ensures forall k | 0 <= k < |DevOpsCloud| :: IsLowercase(DevOpsCloud[k]) {}
  lemma DevOpsCloudUncatalogued() ensures forall k | k in UncataloguedSkills :: k !in DevOpsCloud {}
  lemma CleanDevOpsCloud() ensures CleanCategory(DevOpsCloud) { DevOpsCloudDistinct(); DevOpsCloudLowercase(); DevOpsCloudUncatalogued(); }
  lemma DataScienceMLDistinct() ensures NoDuplicates(DataScienceML) {}
  lemma DataScienceMLLowercase() ensures forall k | 0 <= k < |DataScienceML| :: IsLowercase(DataScienceML[k]) {}
  lemma DataScienceMLUncatalogued() ensures forall k | k in UncataloguedSkills :: k !in DataScienceML {}
  lemma CleanDataScienceML() ensures CleanCategory(DataScienceML) { DataScienceMLDistinct(); DataScienceMLLowercase(); DataScienceMLUncatalogued(); }
  lemma ProjectManagementToolsDistinct() ensures NoDuplicates(ProjectManagementTools) {}
  lemma ProjectManagementToolsLowercase() ensures forall k | 0 <= k < |ProjectManagementTools| :: IsLowercase(ProjectManagementTools[k]) {}
  lemma ProjectManagementToolsUncatalogued() ensures forall k | k in UncataloguedSkills :: k !in ProjectManagementTools {}
  lemma CleanProjectManagementTools() ensures CleanCategory(ProjectManagementTools) { ProjectManagementToolsDistinct(); ProjectManagementToolsLowercase(); ProjectManagementToolsUncatalogued(); }
  lemma SoftSkillsDistinct() ensures NoDuplicates(SoftSkills) {}
  lemma SoftSkillsLowercase() ensures forall k | 0 <= k < |SoftSkills| :: IsLowercase(SoftSkills[k]) {}
  lemma SoftSkillsUncatalogued() ensures forall k | k in UncataloguedSkills :: k !in SoftSkills {}
  lemma CleanSoftSkills() ensures CleanCategory(SoftSkills) { SoftSkillsDistinct(); SoftSkillsLowercase(); SoftSkillsUncatalogued(); }

  lemma DisjointProgrammingLanguages1()
    ensures Disjoint(ProgrammingLanguages, WebFrontend) && Disjoint(ProgrammingLanguages, WebBackend)
  {
  }

  lemma DisjointProgrammingLanguages2()
    ensures Disjoint(ProgrammingLanguages, DatabaseSystems) && Disjoint(ProgrammingLanguages, DevOpsCloud)
  {
  }

  lemma DisjointProgrammingLanguages3()
    ensures Disjoint(ProgrammingLanguages, DataScienceML) && Disjoint(ProgrammingLanguages, ProjectManagementTools)
  {
  }

  lemma DisjointProgrammingLanguages4()
    ensures Disjoint(ProgrammingLanguages, SoftSkills)
  {
  }

  lemma DisjointWebFrontend1()
    ensures Disjoint(WebFrontend, WebBackend) && Disjoint(WebFrontend, DatabaseSystems)
  {
  }

  lemma DisjointWebFrontend2()
    ensures Disjoint(WebFrontend, DevOpsCloud) && Disjoint(WebFrontend, DataScienceML)
  {
  }

  lemma DisjointWebFrontend3()
    ensures Disjoint(WebFrontend, ProjectManagementTools) && Disjoint(WebFrontend, SoftSkills)
  {
  }

  lemma DisjointWebBackend1()
    ensures Disjoint(WebBackend, DatabaseSystems) && Disjoint(WebBackend, DevOpsCloud)
  {
  }

  lemma DisjointWebBackend2()
    ensures Disjoint(WebBackend, DataScienceML) && Disjoint(WebBackend, ProjectManagementTools)
  {
  }

  lemma DisjointWebBackend3()
    ensures Disjoint(WebBackend, SoftSkills)
  {
  }

  lemma DisjointDatabaseSystems1()
    ensures Disjoint(DatabaseSystems, DevOpsCloud) && Disjoint(DatabaseSystems, DataScienceML)
  {
  }

  lemma DisjointDatabaseSystems2()
    ensures Disjoint(DatabaseSystems, ProjectManagementTools) && Disjoint(DatabaseSystems, SoftSkills)
  {
  }

  lemma DisjointDevOpsCloud1()
    ensures Disjoint(DevOpsCloud, DataScienceML) && Disjoint(DevOpsCloud, ProjectManagementTools)
  {
  }

  lemma DisjointDevOpsCloud2()
    ensures Disjoint(DevOpsCloud, SoftSkills)
  {
  }

  lemma DisjointDataScienceML()
    ensures Disjoint(DataScienceML, ProjectManagementTools) && Disjoint(DataScienceML, SoftSkills)
  {
  }

  lemma DisjointProjectManagementTools()
    ensures Disjoint(ProjectManagementTools, SoftSkills)
  {
  }

  /** Every catalog keyword is already lower case, so `skill.lower() == skill`. */
  lemma SkillKeywordsLowercase()
    ensures forall kw | kw in Keywords(SkillCategories) :: IsLowercase(kw)
  {
    KeywordsOfSkillCategories();
    CleanProgrammingLanguages();
    CleanWebFrontend();
    CleanWebBackend();
    CleanDatabaseSystems();
    CleanDevOpsCloud();
    CleanDataScienceML();
    CleanProjectManagementTools();
    CleanSoftSkills();
  }

  /** No keyword is listed twice, within a category or across categories,
      so no keyword can be reported under two categories. */
  lemma SkillKeywordsDistinct()
    ensures NoDuplicates(Keywords(SkillCategories))
  {
    KeywordsOfSkillCategories();
    CleanProgrammingLanguages();
    CleanWebFrontend();
    CleanWebBackend();
    CleanDatabaseSystems();
    CleanDevOpsCloud();
    CleanDataScienceML();
    CleanProjectManagementTools();
    CleanSoftSkills();
    DisjointProgrammingLanguages1();
    DisjointProgrammingLanguages2();
    DisjointProgrammingLanguages3();
    DisjointProgrammingLanguages4();
    DisjointWebFrontend1();
    DisjointWebFrontend2();
    DisjointWebFrontend3();
    DisjointWebBackend1();
    DisjointWebBackend2();
    DisjointWebBackend3();
    DisjointDatabaseSystems1();
    DisjointDatabaseSystems2();
    DisjointDevOpsCloud1();
    DisjointDevOpsCloud2();
    DisjointDataScienceML();
    DisjointProjectManagementTools();
    NoDuplicatesAppend(ProjectManagementTools, SoftSkills);
    DisjointAppend(DataScienceML, ProjectManagementTools, SoftSkills);
    NoDuplicatesAppend(DataScienceML, ProjectManagementTools + SoftSkills);
    DisjointAppend(DevOpsCloud, ProjectManagementTools, SoftSkills);
    DisjointAppend(DevOpsCloud, DataScienceML, ProjectManagementTools + SoftSkills);
    NoDuplicatesAppend(DevOpsCloud, DataScienceML + (ProjectManagementTools + SoftSkills));
    DisjointAppend(DatabaseSystems, ProjectManagementTools, SoftSkills);
    DisjointAppend(DatabaseSystems, DataScienceML, ProjectManagementTools + SoftSkills);
    DisjointAppend(DatabaseSystems, DevOpsCloud, DataScienceML + (ProjectManagementTools + SoftSkills));
    NoDuplicatesAppend(DatabaseSystems, DevOpsCloud + (DataScienceML + (ProjectManagementTools + SoftSkills)));
    DisjointAppend(WebBackend, ProjectManagementTools, SoftSkills);
    DisjointAppend(WebBackend, DataScienceML, ProjectManagementTools + SoftSkills);
    DisjointAppend(WebBackend, DevOpsCloud, DataScienceML + (ProjectManagementTools + SoftSkills));
    DisjointAppend(WebBackend, DatabaseSystems, DevOpsCloud + (DataScienceML + (ProjectManagementTools + SoftSkills)));
    NoDuplicatesAppend(WebBackend, DatabaseSystems + (DevOpsCloud + (DataScienceML + (ProjectManagementTools + SoftSkills))));
    DisjointAppend(WebFrontend, ProjectManagementTools, SoftSkills);
    DisjointAppend(WebFrontend, DataScienceML, ProjectManagementTools + SoftSkills);
    DisjointAppend(WebFrontend, DevOpsCloud, DataScienceML + (ProjectManagementTools + SoftSkills));
    DisjointAppend(WebFrontend, DatabaseSystems, DevOpsCloud + (DataScienceML + (ProjectManagementTools + SoftSkills)));
    DisjointAppend(WebFrontend, WebBackend, DatabaseSystems + (DevOpsCloud + (DataScienceML + (ProjectManagementTools + SoftSkills))));
    NoDuplicatesAppend(WebFrontend, WebBackend + (DatabaseSystems + (DevOpsCloud + (DataScienceML + (ProjectManagementTools + SoftSkills)))));
    DisjointAppend(ProgrammingLanguages, ProjectManagementTools, SoftSkills);
    DisjointAppend(ProgrammingLanguages, DataScienceML, ProjectManagementTools + SoftSkills);
    DisjointAppend(ProgrammingLanguages, DevOpsCloud, DataScienceML + (ProjectManagementTools + SoftSkills));
    DisjointAppend(ProgrammingLanguages, DatabaseSystems, DevOpsCloud + (DataScienceML + (ProjectManagementTools + SoftSkills)));
    DisjointAppend(ProgrammingLanguages, WebBackend, DatabaseSystems + (DevOpsCloud + (DataScienceML + (ProjectManagementTools + SoftSkills))));
    DisjointAppend(ProgrammingLanguages, WebFrontend, WebBackend + (DatabaseSystems + (DevOpsCloud + (DataScienceML + (ProjectManagementTools + SoftSkills)))));
    NoDuplicatesAppend(ProgrammingLanguages, WebFrontend + (WebBackend + (DatabaseSystems + (DevOpsCloud + (DataScienceML + (ProjectManagementTools + SoftSkills))))));
  }

  /** JOB_ROLES holds exactly five roles, in this order, which is also the
      tie order of the role ranking. */
  lemma JobRoleOrder()
    ensures RoleNames(JobRoles) ==
      ["Software Engineer", "Data Scientist", "Frontend Developer", "Backend Developer", "DevOps Engineer"]
    ensures NoDuplicates(RoleNames(JobRoles))
  {
  }

  /** The catalog entry for "Software Engineer" is its profile. */
  lemma LookupSoftwareEngineer()
    ensures "Software Engineer" in RoleNames(JobRoles)
    ensures LookupRole(JobRoles, "Software Engineer") == Some(SoftwareEngineer)
  {
    assert JobRoles[0] == ("Software Engineer", SoftwareEngineer);
  }

  lemma SoftwareEngineerRequired() ensures |SoftwareEngineer.requiredSkills| > 0 && NoDuplicates(SoftwareEngineer.requiredSkills) {}
  lemma SoftwareEngineerGoodToHave() ensures |SoftwareEngineer.goodToHave| > 0 && NoDuplicates(SoftwareEngineer.goodToHave) {}
  lemma SoftwareEngineerKeywords() ensures |SoftwareEngineer.experienceKeywords| > 0 && NoDuplicates(SoftwareEngineer.experienceKeywords) {}
  lemma SoftwareEngineerSplit() ensures Disjoint(SoftwareEngineer.requiredSkills, SoftwareEngineer.goodToHave) {}
  lemma SoftwareEngineerWellFormed() ensures WellFormedProfile(SoftwareEngineer) {
    SoftwareEngineerRequired(); SoftwareEngineerGoodToHave(); SoftwareEngineerKeywords(); SoftwareEngineerSplit();
  }

  lemma DataScientistRequired() ensures |DataScientist.requiredSkills| > 0 && NoDuplicates(DataScientist.requiredSkills) {}
  lemma DataScientistGoodToHave() ensures |DataScientist.goodToHave| > 0 && NoDuplicates(DataScientist.goodToHave) {}
  lemma DataScientistKeywords() ensures |DataScientist.experienceKeywords| > 0 && NoDuplicates(DataScientist.experienceKeywords) {}
  lemma DataScientistSplit() ensures Disjoint(DataScientist.requiredSkills, DataScientist.goodToHave) {}
  lemma DataScientistWellFormed() ensures WellFormedProfile(DataScientist) {
    DataScientistRequired(); DataScientistGoodToHave(); DataScientistKeywords(); DataScientistSplit();
  }

  lemma FrontendDeveloperRequired() ensures |FrontendDeveloper.requiredSkills| > 0 && NoDuplicates(FrontendDeveloper.requiredSkills) {}
  lemma FrontendDeveloperGoodToHave() ensures |FrontendDeveloper.goodToHave| > 0 && NoDuplicates(FrontendDeveloper.goodToHave) {}
  lemma FrontendDeveloperKeywords() ensures |FrontendDeveloper.experienceKeywords| > 0 && NoDuplicates(FrontendDeveloper.experienceKeywords) {}
  lemma FrontendDeveloperSplit() ensures Disjoint(FrontendDeveloper.requiredSkills, FrontendDeveloper.goodToHave) {}
  lemma FrontendDeveloperWellFormed() ensures WellFormedProfile(FrontendDeveloper) {
    FrontendDeveloperRequired(); FrontendDeveloperGoodToHave(); FrontendDeveloperKeywords(); FrontendDeveloperSplit();
  }

  lemma BackendDeveloperRequired() ensures |BackendDeveloper.requiredSkills| > 0 && NoDuplicates(BackendDeveloper.requiredSkills) {}
  lemma BackendDeveloperGoodToHave() ensures |BackendDeveloper.goodToHave| > 0 && NoDuplicates(BackendDeveloper.goodToHave) {}
  lemma BackendDeveloperKeywords() ensures |BackendDeveloper.experienceKeywords| > 0 && NoDuplicates(BackendDeveloper.experienceKeywords) {}
  lemma BackendDeveloperSplit() ensures Disjoint(BackendDeveloper.requiredSkills, BackendDeveloper.goodToHave) {}
  lemma BackendDeveloperWellFormed() ensures WellFormedProfile(BackendDeveloper) {
    BackendDeveloperRequired(); BackendDeveloperGoodToHave(); BackendDeveloperKeywords(); BackendDeveloperSplit();
  }

  lemma DevOpsEngineerRequired() ensures |DevOpsEngineer.requiredSkills| > 0 && NoDuplicates(DevOpsEngineer.requiredSkills) {}
  lemma DevOpsEngineerGoodToHave() ensures |DevOpsEngineer.goodToHave| > 0 && NoDuplicates(DevOpsEngineer.goodToHave) {}
  lemma DevOpsEngineerKeywords() ensures |DevOpsEngineer.experienceKeywords| > 0 && NoDuplicates(DevOpsEngineer.experienceKeywords) {}
  lemma DevOpsEngineerSplit() ensures Disjoint(DevOpsEngineer.requiredSkills, DevOpsEngineer.goodToHave) {}
  lemma DevOpsEngineerWellFormed() ensures WellFormedProfile(DevOpsEngineer) {
    DevOpsEngineerRequired(); DevOpsEngineerGoodToHave(); DevOpsEngineerKeywords(); DevOpsEngineerSplit();
  }

  /** Every role profile is well formed, so the zero-size guards of the
      scorer never fire and `experience_keywords[0]` always exists. */
  lemma JobRolesWellFormed()
    ensures forall i | 0 <= i < |JobRoles| :: WellFormedProfile(JobRoles[i].1)
  {
    SoftwareEngineerWellFormed();
    DataScientistWellFormed();
    FrontendDeveloperWellFormed();
    BackendDeveloperWellFormed();
    DevOpsEngineerWellFormed();
  }

  /** Skills that role profiles ask for but that no skill category lists:
      the extractor can never report them. */
  lemma UncataloguedRoleSkills()
    ensures forall k | k in UncataloguedSkills :: k !in Keywords(SkillCategories)
    ensures "api" in FrontendDeveloper.requiredSkills && "figma" in FrontendDeveloper.goodToHave
    ensures "api" in BackendDeveloper.requiredSkills && "rest" in BackendDeveloper.requiredSkills
    ensures "microservices" in BackendDeveloper.goodToHave && "graphql" in BackendDeveloper.goodToHave
    ensures "security" in DevOpsEngineer.goodToHave
  {
    KeywordsOfSkillCategories();
    CleanProgrammingLanguages();
    CleanWebFrontend();
    CleanWebBackend();
    CleanDatabaseSystems();
    CleanDevOpsCloud();
    CleanDataScienceML();
    CleanProjectManagementTools();
    CleanSoftSkills();
  }

  /** Every skill that the Software Engineer and Data Scientist profiles
      name is listed in some category ("teamwork" under Soft Skills). */
  lemma CataloguedRoleSkills()
    ensures forall k | k in SoftwareEngineer.requiredSkills + SoftwareEngineer.goodToHave
      :: k in Keywords(SkillCategories)
    ensures forall k | k in DataScientist.requiredSkills + DataScientist.goodToHave
      :: k in Keywords(SkillCategories)
    ensures "teamwork" in SoftSkills
  {
    KeywordsOfSkillCategories();
  }
}
