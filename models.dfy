/** The response shapes of app/models.py (Skill, RoleMatch, AnalysisResponse)
    and the dictionary that analyze_target_role returns, as plain values. */
module Models {
  import opened Wrappers

  /** A skill found in a résumé: the catalog keyword and the category it is listed under. */
  datatype Skill = Skill(name: string, category: string)

  /** A role and its match score in [0, 100], kept exact (unrounded). */
  datatype RoleMatch = RoleMatch(role: string, score: real)

  /** The gap breakdown for one target role; the four lists are sorted ascending. */
  datatype TargetRoleAnalysis = TargetRoleAnalysis(
    role: string,
    score: real,
    requiredFound: seq<string>,
    requiredMissing: seq<string>,
    goodToHaveFound: seq<string>,
    goodToHaveMissing: seq<string>)

  datatype AnalysisResponse = AnalysisResponse(
    fileName: string,
    extractedText: string,
    skillsFound: seq<Skill>,
    roleMatches: seq<RoleMatch>,
    targetRoleAnalysis: Option<TargetRoleAnalysis>,
    experienceSummary: seq<string>,
    educationSummary: seq<string>,
    personalizedFeedback: string)
}
