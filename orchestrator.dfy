/** `analyze_resume_file` (app/services.py:261-323): dispatch on the file
    suffix, the blank-text check, the five analyses, the feedback input, one
    log record per analysed file, and the response. The PDF and DOCX
    readers, the regular-expression matches and spaCy's entities are inputs;
    the database is the analyzer's `log`, a list of records appended to. */
module Orchestrator {
  import opened Wrappers
  import opened Strings
  import opened Models
  import opened Catalog
  import opened SkillExtraction
  import opened Sorting
  import opened RoleScoring
  import opened Snippets
  import opened Feedback

  const UnsupportedFileType := "Unsupported file type"
  const NoText := "Could not extract text from the document. It might be empty or image-based."

  /** Characters of the text echoed back in the response. */
  const PreviewLength: nat := 2000

  /** The logged document, without its timestamp and duration. */
  datatype LogRecord = LogRecord(fileName: string, targetRole: string, matchScore: real, skillsFoundCount: nat)

  /** The text the matching reader extracts, or None for another suffix. */
  function TextFor(fileName: string, pdfText: string, docxText: string): (r: Option<string>)
    ensures r.None? <==> !EndsWith(fileName, ".pdf") && !EndsWith(fileName, ".docx")
    ensures EndsWith(fileName, ".pdf") ==> r == Some(pdfText)
    ensures !EndsWith(fileName, ".pdf") && EndsWith(fileName, ".docx") ==> r == Some(docxText)
  {
    if EndsWith(fileName, ".pdf") then Some(pdfText)
    else if EndsWith(fileName, ".docx") then Some(docxText)
    else None
  }

  /** `target_role_analysis.copy()` with `total_skills` and `experience_keywords` added. */
  function FeedbackInputOf(a: TargetRoleAnalysis, skillCount: nat, keywords: seq<string>): FeedbackInput {
    FeedbackInput(Some(a.role), Some(a.requiredFound), Some(a.requiredMissing), Some(a.goodToHaveMissing),
                  Some(skillCount), Some(keywords))
  }

  /** A role catalog in the shape of JOB_ROLES: distinct names, and every
      role lists experience keywords. */
  predicate RoleCatalog(roles: seq<JobRole>) {
    && NoDuplicates(RoleNames(roles))
    && forall i | 0 <= i < |roles| :: |roles[i].1.experienceKeywords| > 0
  }

  lemma JobRolesCatalog()
    ensures RoleCatalog(JobRoles)
  {
    JobRoleOrder();
    JobRolesWellFormed();
  }

  /** A known role of such a catalog lists experience keywords, so
      `experience_keywords[0]` exists. */
  lemma RoleKeywords(roles: seq<JobRole>, target: string)
    requires RoleCatalog(roles) && target in RoleNames(roles)
    ensures |LookupRole(roles, target).value.experienceKeywords| > 0
  {
    var p := LookupRole(roles, target).value;
    var i :| 0 <= i < |roles| && roles[i] == (target, p);
  }

  /** The feedback input for a résumé with skills `skills`: the target
      analysis extended as above for a known role, `{}` otherwise; its
      prompt can always be built. */
  function FeedbackData(skills: seq<Skill>, targetRole: string, roles: seq<JobRole>): (r: FeedbackInput)
    requires RoleCatalog(roles)
    ensures targetRole !in RoleNames(roles) ==> r == EmptyInput
    ensures PromptOf(r).Some?
  {
    match AnalyzeTargetRole(skills, targetRole, roles)
    case None => EmptyInput
    case Some(a) =>
      RoleKeywords(roles, targetRole);
      FeedbackInputOf(a, |skills|, LookupRole(roles, targetRole).value.experienceKeywords)
  }

  /** `match_score` of the log record: the target score, or 0.0 for an unknown role. */
  function MatchScore(skills: seq<Skill>, targetRole: string, roles: seq<JobRole>): (r: real)
    ensures 0.0 <= r <= 100.0
    ensures targetRole !in RoleNames(roles) ==> r == 0.0
  {
    match AnalyzeTargetRole(skills, targetRole, roles)
    case None => 0.0
    case Some(a) =>
      TargetRoleBreakdown(skills, targetRole, roles);
      a.score
  }

  /** The skill-based analyses of a text: the skills found, every catalog
      role ranked by score, the target-role analysis, the score to log and
      the feedback input. */
  method AnalyzeSkills(text: string, targetRole: string, skillCatalog: seq<SkillCategory>, roleCatalog: seq<JobRole>)
    returns (skills: seq<Skill>, roleMatches: seq<RoleMatch>, targetRoleAnalysis: Option<TargetRoleAnalysis>,
             matchScore: real, feedbackData: FeedbackInput)
    requires RoleCatalog(roleCatalog)
    ensures skills == SkillsOf(skillCatalog, text)
    ensures roleMatches == SortDesc(Scores(LowerNames(skills), roleCatalog), ScoreOf)
    ensures targetRoleAnalysis == AnalyzeTargetRole(skills, targetRole, roleCatalog)
    ensures matchScore == MatchScore(skills, targetRole, roleCatalog)
    ensures feedbackData == FeedbackData(skills, targetRole, roleCatalog)
  {
    skills := ExtractSkills(text, skillCatalog);
    roleMatches := SuggestRoleMatches(skills, roleCatalog);
    targetRoleAnalysis := AnalyzeTargetRole(skills, targetRole, roleCatalog);
    feedbackData := EmptyInput;
    matchScore := 0.0;
    if targetRoleAnalysis.Some? {
      feedbackData := FeedbackInputOf(targetRoleAnalysis.value, |skills|,
                                      LookupRole(roleCatalog, targetRole).value.experienceKeywords);
      matchScore := targetRoleAnalysis.value.score;
    }
  }

  /** The experience and education summaries of a text; `keptDates` are the
      dates the experience summary lists. */
  method AnalyzeSections(text: string, yearMatches: seq<string>, entities: Option<seq<Entity>>, educationSpans: seq<Span>)
    returns (experienceSummary: seq<string>, educationSummary: seq<string>, ghost keptDates: seq<string>)
    requires forall i | 0 <= i < |educationSpans| :: ValidSpan(text, educationSpans[i])
    ensures ExperienceSummary(experienceSummary, yearMatches, entities, keptDates)
    ensures DatesMarker in experienceSummary <==> entities.Some? && DateTexts(entities.value) != []
    ensures Elems(educationSummary) == SnippetSet(text, educationSpans)
  {
    experienceSummary, keptDates := AnalyzeExperience(yearMatches, entities);
    educationSummary := AnalyzeEducation(text, educationSpans);
  }

  /** The fields of the response to `fileName` with text `text` other than
      its two summaries, the score logged and the number of model calls: the
      name, the first 2000 characters plus "...", the skills found, every
      catalog role ranked by score, the target-role analysis, and the
      feedback for the feedback input of those skills. */
  ghost predicate SkillFields(response: AnalysisResponse, matchScore: real, feedbackCalls: nat,
                              fileName: string, text: string, targetRole: string,
                              skillCatalog: seq<SkillCategory>, roleCatalog: seq<JobRole>,
                              apiKey: string, configureOk: bool, backend: (Prompt, nat) -> Attempt)
  {
    && RoleCatalog(roleCatalog)
    && var skills := SkillsOf(skillCatalog, text);
    && matchScore == MatchScore(skills, targetRole, roleCatalog)
    && response.fileName == fileName
    && response.extractedText == Take(text, PreviewLength) + "..."
    && response.skillsFound == skills
    && response.roleMatches == SortDesc(Scores(LowerNames(skills), roleCatalog), ScoreOf)
    && response.targetRoleAnalysis == AnalyzeTargetRole(skills, targetRole, roleCatalog)
    && Ok(response.personalizedFeedback) ==
         FeedbackOutcome(FeedbackData(skills, targetRole, roleCatalog), apiKey, configureOk, backend)
    && feedbackCalls <= MaxRetries
    && (feedbackCalls > 0 <==> KeyConfigured(apiKey) && configureOk)
  }

  /** The response to `fileName` with text `text`: the fields above, an
      experience summary listing the dates `keptDates`, and the education
      snippets. */
  ghost predicate AnalysisOf(response: AnalysisResponse, matchScore: real, feedbackCalls: nat, keptDates: seq<string>,
                             fileName: string, text: string, targetRole: string,
                             skillCatalog: seq<SkillCategory>, roleCatalog: seq<JobRole>,
                             yearMatches: seq<string>, entities: Option<seq<Entity>>, educationSpans: seq<Span>,
                             apiKey: string, configureOk: bool, backend: (Prompt, nat) -> Attempt)
  {
    && SkillFields(response, matchScore, feedbackCalls, fileName, text, targetRole, skillCatalog, roleCatalog,
                   apiKey, configureOk, backend)
    && ExperienceSummary(response.experienceSummary, yearMatches, entities, keptDates)
    && (DatesMarker in response.experienceSummary <==> entities.Some? && DateTexts(entities.value) != [])
    && (forall i | 0 <= i < |educationSpans| :: ValidSpan(text, educationSpans[i]))
    && Elems(response.educationSummary) == SnippetSet(text, educationSpans)
  }

  /** The response to `fileName` with the given summaries: the skill-based
      analyses, then the feedback on them. */
  method Respond(fileName: string, text: string, targetRole: string,
                 skillCatalog: seq<SkillCategory>, roleCatalog: seq<JobRole>,
                 experienceSummary: seq<string>, educationSummary: seq<string>,
                 apiKey: string, configureOk: bool, backend: (Prompt, nat) -> Attempt)
    returns (response: AnalysisResponse, matchScore: real, ghost feedbackCalls: nat)
    requires RoleCatalog(roleCatalog)
    ensures SkillFields(response, matchScore, feedbackCalls, fileName, text, targetRole, skillCatalog, roleCatalog,
                        apiKey, configureOk, backend)
    ensures response.experienceSummary == experienceSummary && response.educationSummary == educationSummary
  {
    var skills, roleMatches, targetRoleAnalysis, feedbackData;
    skills, roleMatches, targetRoleAnalysis, matchScore, feedbackData := AnalyzeSkills(text, targetRole, skillCatalog, roleCatalog);
    var personalizedFeedback, calls, _ := GetPersonalizedFeedback(feedbackData, apiKey, configureOk, backend);
    feedbackCalls := calls;
    response := AnalysisResponse(fileName, Take(text, PreviewLength) + "...", skills, roleMatches,
                                 targetRoleAnalysis, experienceSummary, educationSummary, personalizedFeedback.value);
  }

  /** The analyses of a non-blank text: the response of `analyze_resume_file`
      and the score it logs. `feedbackCalls` is the number of model calls,
      `keptDates` the dates the experience summary lists. */
  method AnalyzeText(fileName: string, text: string, targetRole: string,
                     skillCatalog: seq<SkillCategory>, roleCatalog: seq<JobRole>,
                     yearMatches: seq<string>, entities: Option<seq<Entity>>, educationSpans: seq<Span>,
                     apiKey: string, configureOk: bool, backend: (Prompt, nat) -> Attempt)
    returns (response: AnalysisResponse, matchScore: real, ghost feedbackCalls: nat, ghost keptDates: seq<string>)
    requires RoleCatalog(roleCatalog)
    requires forall i | 0 <= i < |educationSpans| :: ValidSpan(text, educationSpans[i])
    ensures SkillFields(response, matchScore, feedbackCalls, fileName, text, targetRole, skillCatalog, roleCatalog,
                        apiKey, configureOk, backend)
    ensures ExperienceSummary(response.experienceSummary, yearMatches, entities, keptDates)
    ensures DatesMarker in response.experienceSummary <==> entities.Some? && DateTexts(entities.value) != []
    ensures Elems(response.educationSummary) == SnippetSet(text, educationSpans)
  {
    var experienceSummary, educationSummary;
    experienceSummary, educationSummary, keptDates := AnalyzeSections(text, yearMatches, entities, educationSpans);
    response, matchScore, feedbackCalls := Respond(fileName, text, targetRole, skillCatalog, roleCatalog,
                                                   experienceSummary, educationSummary, apiKey, configureOk, backend);
  }

  class ResumeAnalyzer {
    /** The catalogs the analysis uses: SKILL_CATEGORIES and JOB_ROLES. */
    const skillCatalog: seq<SkillCategory>
    const roleCatalog: seq<JobRole>

    /** The records written to the analysis log, oldest first. */
    var log: seq<LogRecord>

    predicate Valid() {
      RoleCatalog(roleCatalog)
    }

    constructor()
      ensures skillCatalog == SkillCategories && roleCatalog == JobRoles
      ensures Valid() && log == []
    {
      skillCatalog := SkillCategories;
      roleCatalog := JobRoles;
      log := [];
      JobRolesCatalog();
    }

    /** `analyze_resume_file`. A file with neither suffix, or whose text is
        blank after stripping, is rejected (ValueError) before any analysis,
        feedback call or log write. Otherwise the response is the one
        `AnalyzeText` builds, and one record is logged when `insertOk`
        (false when `insert_one` raises, which is caught and only logged). */
    method AnalyzeResumeFile(fileName: string, targetRole: string, pdfText: string, docxText: string,
                             yearMatches: seq<string>, entities: Option<seq<Entity>>, educationSpans: seq<Span>,
                             apiKey: string, configureOk: bool, backend: (Prompt, nat) -> Attempt, insertOk: bool)
      returns (r: Result<AnalysisResponse, string>, ghost feedbackCalls: nat, ghost keptDates: seq<string>)
      requires Valid()
      requires TextFor(fileName, pdfText, docxText).Some? ==>
        forall i | 0 <= i < |educationSpans| :: ValidSpan(TextFor(fileName, pdfText, docxText).value, educationSpans[i])
      modifies this
      ensures TextFor(fileName, pdfText, docxText).None? ==>
        r == Err(UnsupportedFileType) && log == old(log) && feedbackCalls == 0
      ensures TextFor(fileName, pdfText, docxText).Some? && Strip(TextFor(fileName, pdfText, docxText).value) == [] ==>
        r == Err(NoText) && log == old(log) && feedbackCalls == 0
      ensures TextFor(fileName, pdfText, docxText).Some? && Strip(TextFor(fileName, pdfText, docxText).value) != [] ==>
        var text := TextFor(fileName, pdfText, docxText).value;
        var skills := SkillsOf(skillCatalog, text);
        && r.Ok?
        && log == old(log) + (if insertOk then [LogRecord(fileName, targetRole, MatchScore(skills, targetRole, roleCatalog), |skills|)] else [])
        && AnalysisOf(r.value, MatchScore(skills, targetRole, roleCatalog), feedbackCalls, keptDates, fileName, text, targetRole,
                      skillCatalog, roleCatalog, yearMatches, entities, educationSpans, apiKey, configureOk, backend)
    {
      feedbackCalls, keptDates := 0, [];
      var source := TextFor(fileName, pdfText, docxText);
      if source.None? {
        return Err(UnsupportedFileType), feedbackCalls, keptDates;
      }
      var text := source.value;
      if Strip(text) == [] {
        return Err(NoText), feedbackCalls, keptDates;
      }
      var response, matchScore;
      response, matchScore, feedbackCalls, keptDates := AnalyzeText(fileName, text, targetRole, skillCatalog, roleCatalog,
        yearMatches, entities, educationSpans, apiKey, configureOk, backend);
      if insertOk {
        log := log + [LogRecord(fileName, targetRole, matchScore, |response.skillsFound|)];
      }
      r := Ok(response);
    }
  }
}
