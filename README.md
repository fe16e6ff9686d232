# NeuroLens résumé analysis, modelled in Dafny

NeuroLens takes an uploaded résumé (PDF or DOCX) and an optional target job
role, and returns an analysis:

- the catalogued skills the text mentions;
- every catalogued job role ranked by how well those skills cover it;
- a breakdown of found and missing skills for the target role;
- experience and education snippets;
- AI-written feedback with retries;
- one log record per analysed file, when the database insert succeeds.

This project models that pipeline (`app/services.py`) and its two catalogs
(`SKILL_CATEGORIES` and `JOB_ROLES` in `app/constants.py`), and proves what
each step guarantees.

Modules, one per concern of the source:

- `Wrappers`: `Option` and `Result`.
- `Strings`: the Python string and list operations the code relies on:
  - `lower`, `strip`, `replace("\n", " ")`, slicing and `endswith`;
  - `", ".join`, string `<`;
  - `list(set(...))` and `sorted(set(...))`.
- `Models`: the response records of `app/models.py`.
- `Catalog`: the two catalogs as ordered sequences, in the dictionaries'
  insertion order, with facts about them:
  - every keyword is distinct and lower case;
  - each role profile is well formed;
  - which role skills no category lists.
- `SkillExtraction`: `extract_skills`, including the `\b<kw>s?\b` search.
- `Sorting`: Python's stable `sorted(..., key=..., reverse=True)`.
- `RoleScoring`: `suggest_role_matches` and `analyze_target_role`.
- `Snippets`: `analyze_education` and `analyze_experience`.
- `Feedback`: `get_personalized_feedback` with its retry loop.
- `Orchestrator`: `analyze_resume_file`, as the class `ResumeAnalyzer`.
  - Its fields `skillCatalog` and `roleCatalog` are the two catalogs; the
    constructor sets them to the constants.
  - Its field `log` is the analysis log; each analysed file appends one
    record to it, unless the database insert fails.
- `Samples`: the fixtures of `tests/test_services.py` and the test
  assertions about them, proved.

Where the code needs something from outside, the model takes it as an input:

| source call | modelled as |
|---|---|
| PDF and DOCX readers | the extracted text |
| year regexes | the matched strings |
| education regexes | the match spans |
| spaCy | its entities, `None` when the model raises |
| `GEMINI_API_KEY` | a string |
| `genai.configure` | a success flag |
| `insert_one` | a success flag |
| model call | a function from (prompt, attempt number) to what the call did |

## Model

| member | source | states |
|---|---|---|
| Strings.Lower | app/services.py:56 | `text.lower()` keeps the length and lower-cases each character independently |
| Strings.LowerIdempotent | app/services.py:56-61 | lower-casing an already lower-cased string changes nothing |
| Strings.ReplaceNewlines | app/services.py:117 | same length, no newline left, every other character kept in place |
| Strings.Strip | app/services.py:117 | `strip()` is the slice between the first and last non-whitespace characters; a non-empty result starts and ends with non-whitespace |
| Strings.StripKeeps | app/services.py:117 | stripping never cuts into a stretch that starts and ends with non-whitespace |
| Strings.StripEmptyIffBlank | app/services.py:280 | `not text.strip()` holds exactly when every character is whitespace |
| Strings.Take | app/services.py:323 | `text[:2000]` is the whole text when it is short, otherwise the first 2000 characters, always a prefix |
| Strings.Join | app/services.py:201-203 | `", ".join([])` is empty; a joined list begins with its first element |
| Strings.ElemsCard | app/services.py:100 | a list has at most as many distinct elements as entries, and exactly as many when it has no duplicates; this is where list lengths meet set sizes, for `list(set(...))` here, for the target score's set sizes (app/services.py:157-163) and for the ten-date cut (app/services.py:93-95) |
| Strings.ListOfSet | app/services.py:100 | `list(set(xs))` holds every element once, nothing else, and as many entries as the set has elements |
| Strings.InsertSorted | app/services.py:171-174 | inserting into an ascending duplicate-free list keeps it so and adds exactly that element |
| Strings.SortedSet | app/services.py:171-174 | `sorted(list(set(xs)))` is ascending, duplicate free, with the elements of `xs` |
| Strings.StrictlySortedUnique | app/services.py:171-174 | two ascending duplicate-free lists with the same elements are equal, so the sorted result does not depend on set order |
| Strings.LexLessTotal | app/services.py:171 | Python string `<` orders any two distinct strings |
| Strings.LexLessTransitive | app/services.py:171 | Python string `<` is transitive |
| SkillExtraction.Search | app/services.py:65-67 | `re.search(r'\b' + kw + r's?\b', t)` succeeds exactly when the keyword, optionally followed by `s`, occurs between two word boundaries |
| SkillExtraction.ExtractSkills | app/services.py:53-72 | the loop yields the scan over the catalog; no two skills share a lower-cased name; skills keep catalog order |
| SkillExtraction.ScanDistinct | app/services.py:57-69 | the seen-set makes the reported names distinct and disjoint from what was seen before |
| SkillExtraction.ScanNames | app/services.py:57-69 | the names reported are the names whose pattern matches, minus those already seen |
| SkillExtraction.ScanWithoutCollisions | app/services.py:62-63 | when no two entries share a name, the seen-set check never skips anything |
| SkillExtraction.SkillsOfLowerText | app/services.py:56 | extracting from the lower-cased text gives the same skills |
| SkillExtraction.SkillsOfEmptyText | app/services.py:53-72 | empty text yields no skills |
| SkillExtraction.CatalogSkills | app/services.py:53-72 | with SKILL_CATEGORIES, a skill is reported exactly when it is a catalog entry whose keyword occurs as a word in the lower-cased text |
| SkillExtraction.CatalogNames | app/services.py:53-72 | with SKILL_CATEGORIES, a name is reported exactly when it is a catalog keyword occurring as a word |
| SkillExtraction.TrailingSymbolNeedsWordAfter | app/services.py:65 | a keyword ending in a non-word character (`c++`, `c#`) never matches where it is followed by a non-word character or the end of the text |
| SkillExtraction.LeadingSymbolNeedsWordBefore | app/services.py:65 | a keyword starting with a non-word character (`.net`) never matches at the start of the text or after a non-word character |
| SkillExtraction.CppAtEndNotFound | app/services.py:65 | "c++" is not found in "use c++", nor "c#" in "c# dev" |
| SkillExtraction.DotNetNeedsWordBefore | app/services.py:65 | ".net" is found in "asp.net" but not in "use .net" |
| SkillExtraction.WordBetween | app/services.py:65 | a keyword with word characters at both ends, flanked by non-word characters, is found |
| SkillExtraction.AbsentCharNoMatch | app/services.py:65 | a keyword containing a character the text lacks is not found |
| Catalog.SkillKeywordsDistinct | app/constants.py:1-36 | no keyword is listed twice, within or across categories |
| Catalog.SkillKeywordsLowercase | app/constants.py:1-36 | every keyword is already lower case, so `skill.lower()` is the keyword |
| Catalog.JobRoleOrder | app/constants.py:38-64 | JOB_ROLES holds exactly the five roles, in this order, with distinct names |
| Catalog.JobRolesWellFormed | app/constants.py:38-64 | every profile has non-empty, duplicate-free required and good-to-have lists that share nothing, and at least one experience keyword |
| Catalog.UncataloguedRoleSkills | app/constants.py:49-62 | "api", "rest", "figma", "microservices", "graphql" and "security" are asked for by roles but listed by no category |
| Catalog.CataloguedRoleSkills | app/constants.py:39-48 | every skill the Software Engineer and Data Scientist profiles name is a catalog keyword |
| Catalog.LookupRole | app/services.py:147-151 | `JOB_ROLES[target_role]` is missing exactly when the name is not a role, and otherwise is that role's profile |
| Catalog.LookupSoftwareEngineer | app/constants.py:39-43 | "Software Engineer" is a role and its lookup is its profile |
| Sorting.SortDescCorrect | app/services.py:141 | `sorted(..., reverse=True)` is descending by key, a permutation, and stable: entries with equal keys keep their input order |
| Sorting.SortDescPermutes | app/services.py:93 | the sort is descending and a permutation of its input |
| Sorting.InsertKeepsSorted | app/services.py:141 | inserting into a descending list keeps it descending |
| Sorting.InsertWithKey | app/services.py:141 | an inserted entry goes after every entry with the same key |
| Sorting.WithKey | app/services.py:141 | the entries of a list with a given key are taken from that list |
| Sorting.InsertDesc | app/services.py:141 | an insertion adds exactly the inserted entry |
| Sorting.PrefixKeepsLargest | app/services.py:93-95 | in a descending list every entry of a prefix has a key at least that of every entry after it |
| RoleScoring.Fraction | app/services.py:129-136 | `len(found ∩ skills) / len(skills)`, or 0 for an empty list, lies in [0, 1] and is 1 exactly when the list is duplicate free and entirely found |
| RoleScoring.FoundShare | app/services.py:132-133 | the found share of a set is no larger than the set, and equal exactly when all of it is found |
| RoleScoring.RoleScore | app/services.py:138 | the score lies in [0, 100] and is 100 exactly when both fractions are 1 |
| RoleScoring.RoleScoreMonotone | app/services.py:132-138 | finding more skills never lowers a role's score |
| RoleScoring.FractionMonotone | app/services.py:132-136 | finding more skills never lowers a fraction |
| RoleScoring.MissingSkillBelow100 | app/services.py:132-138 | a role with a required or good-to-have skill not found scores below 100 |
| RoleScoring.SetFraction | app/services.py:157-163 | the set-size fraction lies in [0, 1] and is 1 exactly when the list is non-empty and entirely found |
| RoleScoring.TargetScore | app/services.py:157-164 | the target score lies in [0, 100] |
| RoleScoring.TargetScoreAgrees | app/services.py:129-138 | for duplicate-free profiles the target score (set sizes) equals the ranking score (list lengths) |
| RoleScoring.Scores | app/services.py:128-139 | `role_scores` holds, in role order, each role with its score |
| RoleScoring.SuggestRoleMatches | app/services.py:123-143 | every role appears once with its score in [0, 100]; the list is the stable descending sort of the scores, so ties keep role order |
| RoleScoring.SuggestCatalogRoles | app/services.py:123-143 | with JOB_ROLES, the five roles are ranked by the stable descending sort |
| RoleScoring.UncataloguedRolesBelow100 | app/services.py:123-139 | Frontend, Backend and DevOps can never score 100, because they need skills that no category lists |
| RoleScoring.Select | app/services.py:171-174 | the selected skills are those of the profile that are found (or those that are missing) |
| RoleScoring.AnalyzeTargetRole | app/services.py:145-175 | the analysis is None exactly when the role is unknown, otherwise its `role` is the target and the role exists |
| RoleScoring.TargetRoleBreakdown | app/services.py:151-175 | the score uses set sizes; the four lists are ascending, duplicate free, and hold the found and missing required and good-to-have skills |
| RoleScoring.TargetRoleMembers | app/services.py:168-175 | a skill is in `required_found` exactly when it is required and found, and likewise for the other three lists |
| RoleScoring.TargetRolePartition | app/services.py:171-174 | found and missing are disjoint and together make up the profile's skills |
| RoleScoring.CatalogTargetScore | app/services.py:157-164 | for catalog roles the target score equals the ranking score |
| Snippets.ContextSnippet | app/services.py:115-117 | the snippet has no newline and is at most the match plus 30 characters on each side long |
| Snippets.SnippetTrimmed | app/services.py:117 | a non-empty snippet starts and ends with non-whitespace |
| Snippets.SnippetInWindow | app/services.py:115-117 | the snippet is a stretch of the newline-free text inside the 30-character window |
| Snippets.SnippetContainsMatch | app/services.py:113-117 | a match that starts and ends with non-whitespace appears, newlines replaced, inside its snippet |
| Snippets.SnippetSetMembers | app/services.py:110-118 | a string is in `education_found` exactly when some match gives it as its snippet |
| Snippets.SnippetSetNoNewline | app/services.py:117-118 | no snippet in the set has a newline |
| Snippets.ImageMembers | app/services.py:110-118 | a set built by adding `f(x)` for each element holds exactly the values of `f` on the list |
| Snippets.AnalyzeEducation | app/services.py:102-121 | the result lists each distinct snippet once, newline free; no matches give an empty list |
| Snippets.DateTexts | app/services.py:91 | the dates are exactly the DATE entities' texts with newlines replaced, and have no newline |
| Snippets.MentionLines | app/services.py:83-86 | one "Mention of: " line per year match, in match order, and nothing else |
| Snippets.MarkerNotInMentions | app/services.py:86-94 | the "Key Dates Found:" marker is never a mention line |
| Snippets.KeyDates | app/services.py:92-95 | the marker followed by the kept dates, which are the longest ten distinct dates |
| Snippets.KeepLongest | app/services.py:95 | `unique_dates[:10]` holds at most ten distinct dates, and no date left out is longer than one kept |
| Snippets.SortedPermutation | app/services.py:93 | sorting the distinct dates by length keeps them distinct, descending by length, and the same set |
| Snippets.AnalyzeExperience | app/services.py:74-100 | the summary is duplicate free; it holds every mention, plus the marker and the kept dates exactly when there are DATE entities; the kept dates are the ten longest; nothing but mentions when spaCy raises |
| Feedback.JoinOrNone | app/services.py:201-203 | `', '.join(xs) or 'None'` is never empty, "None" for an empty list |
| Feedback.PromptOf | app/services.py:195-212 | the prompt fails (IndexError) exactly when `experience_keywords` is present but empty, and otherwise uses its first keyword |
| Feedback.EmptyInputPrompt | app/services.py:200-210 | for `{}` every field of the prompt takes its default |
| Feedback.LastResponse | app/services.py:218-223 | `response` after n attempts is the last returned response: some call returned it and every later call raised; it is None exactly when all n calls raised |
| Feedback.FailureMessage | app/services.py:245-254 | with no response, or no candidates, the failure message is the "No response" text |
| Feedback.Delays | app/services.py:217-241 | the sleeps are 1, 2, 4, …: each doubles the previous one |
| Feedback.GetPersonalizedFeedback | app/services.py:179-256 | the result is the feedback outcome below; the key and configure guards make no model call; an empty keyword list raises; otherwise there are one to three calls, stopping at the first whose text is readable; the sleeps are 1 then 2, exactly [1, 2] after three calls, none after the last; after three failures the message comes from the last returned response |
| Feedback.RetryOutcome | app/services.py:216-254 | from attempt k on, the loop returns the text of attempt k when its call and `.text` succeed, and the failure message of the last response when every remaining attempt fails |
| Feedback.FeedbackOutcome | app/services.py:179-256 | the result of `get_personalized_feedback`: the "not configured" message without a usable key, the configure-failure message when `genai.configure` raises, the IndexError exactly when the model is usable and the prompt cannot be built, the retry outcome otherwise |
| Orchestrator.TextFor | app/services.py:273-278 | a ".pdf" name uses the PDF reader, one ending in ".docx" (and not ".pdf") the DOCX reader, any other name is rejected |
| Orchestrator.RoleKeywords | app/services.py:298 | a known role of a well-formed catalog has an experience keyword |
| Orchestrator.JobRolesCatalog | app/constants.py:38-64 | JOB_ROLES has distinct names and every role has experience keywords |
| Orchestrator.FeedbackData | app/services.py:293-299 | `{}` for an unknown role; for any role the prompt can be built, so the IndexError never happens here |
| Orchestrator.MatchScore | app/services.py:294-299 | the logged score is the target score, 0.0 for an unknown role, always within [0, 100] |
| Orchestrator.AnalyzeSkills | app/services.py:286-299 | skills, ranking, target analysis, logged score and feedback input are those of the skill extraction of the text |
| Orchestrator.AnalyzeSections | app/services.py:287-288 | the experience summary is that of `analyze_experience`: duplicate free, exactly the mentions plus, when there are dates, the marker and the kept dates, which are the ten longest; the education summary holds exactly the snippets |
| Orchestrator.Respond | app/services.py:286-330 | the response fields other than the summaries: the name, the first 2000 characters plus "...", the skills, the ranking and the target analysis of the skill extraction, and the feedback outcome for the feedback input of those skills; at most three model calls, some exactly when the key is set and configuration succeeds |
| Orchestrator.AnalyzeText | app/services.py:284-330 | the response echoes the name and the first 2000 characters plus "..."; skills, ranking and target analysis are those of the skill extraction; the feedback is the feedback outcome for the feedback input of those skills (so never the IndexError); the experience summary is that of `analyze_experience` with its kept dates, the education summary holds exactly the snippets; the logged score is the match score |
| Orchestrator.ResumeAnalyzer.constructor | app/services.py:16 | the analyzer uses SKILL_CATEGORIES and JOB_ROLES and starts with an empty log |
| Orchestrator.ResumeAnalyzer.AnalyzeResumeFile | app/services.py:261-330 | an unsupported suffix or blank text is rejected with its message, with no feedback call and no log write; otherwise the response is the full analysis of the text stated by `AnalyzeText` (feedback, experience and education included), and one record (name, role, match score, skill count) is appended when the insert succeeds and none when it fails |
| Samples.SweSkills | tests/test_services.py:27-38 | the Software Engineer fixture yields python, react, docker, git, sql and java, and not figma |
| Samples.DsSkills | tests/test_services.py:40-51 | the Data Scientist fixture yields python, sql, pandas, tensorflow, scikit-learn and tableau, and not docker |
| Samples.SweTargetRole | tests/test_services.py:53-64 | for the Software Engineer fixture the analysis exists, java is a found and teamwork a missing required skill, docker a found and agile a missing good-to-have skill |
| Samples.SweTargetRoleOf | tests/test_services.py:53-64 | the same holds for any skills that include java and docker and exclude teamwork and agile |
| Samples.UnknownTargetRole | tests/test_services.py:66-71 | "Galactic Emperor" gives no analysis |

## Left out

- Reading the files: `extract_text_from_pdf` and `extract_text_from_docx` (app/services.py:25-49) call PyPDF2 and python-docx; the extracted texts are inputs.
- Regular expressions of `analyze_experience` and `analyze_education`: these calls go to the `re` engine.
  - The matched year phrases and the match spans are inputs, in pattern order.
  - The education patterns' spans are given as one list, pattern after pattern.
- spaCy: `nlp_model(text)` runs a neural model; its entities are an input, None when it raises.
- Gemini and asyncio:
  - The model name, the prompt's surrounding text, `asyncio.sleep` and the `GenerativeModel` constructor are not modelled; the sleeps are recorded as a ghost list.
  - A finish reason whose `.name` raises is modelled as a candidate with no reason.
- RoleScoring.SuggestRoleMatches: scores are exact reals, not floats, and are not rounded with `round(score, 2)`.
  - The source sorts by the unrounded float score and returns `round(score, 2)`; the model sorts by the exact score, in the same order, and returns it unrounded.
- RoleScoring.SuggestRoleMatches: requires distinct role names. JOB_ROLES is a dictionary, so its keys are distinct by construction.
- Snippets.AnalyzeExperience: the order of `list(set(...))` is left unspecified, and so the contract speaks of the summary's elements, not their order.
  - The same holds for which of several equally long dates are kept at the cut of ten.
- Snippets.AnalyzeEducation: the contract speaks of the set of snippets, not of the order of `list(education_found)`.
- Strings.Lower and Strings.IsSpace: only ASCII is modelled. Unicode case mapping and whitespace, and Unicode word characters for `\b`, are not.
- The log record leaves out the timestamp and the duration. `time.time()` and `datetime.utcnow()` are clocks.
- `log_analysis_to_db` (app/db_service.py:40-48) and the rest of app/db_service.py: the database is the analyzer's `log`. Whether `insert_one` succeeds is the input `insertOk`: a failed insert is caught and only logged, so nothing is appended and the response is still returned. `get_analysis_metrics` is not part of this model.
- app/main.py (HTTP endpoints), app/config.py and app/logging_config.py are not part of this model; logging calls are dropped.
- Feedback.GetPersonalizedFeedback: the final `return "Error: AI feedback generation failed."` after the loop cannot be reached, because the last attempt always returns. It is kept as dead code after the loop.
