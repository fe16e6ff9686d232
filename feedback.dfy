/** `get_personalized_feedback` (app/services.py:178-256): the guard on the
    API key, the prompt's fields and their defaults, and the retry loop
    around the model call. The Gemini client is not part of this model: the
    configuration step is a flag, and the model call is a function from the
    prompt and the attempt number to what that call did. Sleeping is recorded
    as a ghost list of delays. */
module Feedback {
  import opened Wrappers
  import opened Strings

  const PlaceholderKey := "YOUR_GEMINI_API_KEY_GOES_HERE"
  const NotConfigured := "Error: AI feedback service is not configured."
  const ConfigureFailed := "Error: Could not configure AI feedback service."
  const NoResponse := "Error: Unable to generate AI feedback (No response from model)."
  const ReasonUnavailable := "Error: Unable to generate AI feedback at this time."
  const GenerationFailed := "Error: AI feedback generation failed."

  /** `max_retries`, and `delay` before each retry (1, doubled each time). */
  const MaxRetries: nat := 3
  const FirstDelay: nat := 1

  /** The fields of `analysis_data` the prompt reads; None is a missing key. */
  datatype FeedbackInput = FeedbackInput(
    role: Option<string>,
    requiredFound: Option<seq<string>>,
    requiredMissing: Option<seq<string>>,
    goodToHaveMissing: Option<seq<string>>,
    totalSkills: Option<int>,
    experienceKeywords: Option<seq<string>>)

  /** The `{}` passed when there is no target-role analysis. */
  const EmptyInput := FeedbackInput(None, None, None, None, None, None)

  /** The values interpolated into the prompt template. */
  datatype Prompt = Prompt(
    targetRole: string,
    skillsFound: string,
    criticalMissing: string,
    goodToHaveMissing: string,
    totalSkills: int,
    keywordExample: string)

  /** `', '.join(xs) or 'None'`. */
  function JoinOrNone(xs: seq<string>): (r: string)
    ensures r != ""
    ensures xs == [] ==> r == "None"
    ensures xs != [] && xs[0] != "" ==> r == Join(xs, ", ")
  {
    var j := Join(xs, ", ");
    if j == "" then "None" else j
  }

  /** The prompt for `data`, or None when `experience_keywords` is present
      but empty: `[...][0]` then raises IndexError while the template is
      built, outside every `try`. */
  function PromptOf(data: FeedbackInput): (r: Option<Prompt>)
    ensures r.None? <==> data.experienceKeywords == Some([])
    ensures r.Some? && data.experienceKeywords.Some? ==> r.value.keywordExample == data.experienceKeywords.value[0]
  {
    var keywords := data.experienceKeywords.GetOr(["..."]);
    if keywords == [] then None
    else Some(Prompt(
      data.role.GetOr("N/A"),
      JoinOrNone(data.requiredFound.GetOr([])),
      JoinOrNone(data.requiredMissing.GetOr([])),
      JoinOrNone(data.goodToHaveMissing.GetOr([])),
      data.totalSkills.GetOr(0),
      keywords[0]))
  }

  /** For `{}` every field takes its default. */
  lemma EmptyInputPrompt()
    ensures PromptOf(EmptyInput) == Some(Prompt("N/A", "None", "None", "None", 0, "..."))
  {
  }

  /** `finish_reason` of a candidate: None when reading `.name` raises. */
  datatype Candidate = Candidate(finishReason: Option<string>)

  /** A returned response: `text` is None when reading `response.text` raises. */
  datatype Response = Response(text: Option<string>, candidates: seq<Candidate>)

  /** What one `generate_content_async` call did. */
  datatype Attempt = Raised | Returned(response: Response)

  predicate Succeeds(a: Attempt) {
    a.Returned? && a.response.text.Some?
  }

  /** The value of `response` after attempts `0 .. n-1`: the last response
      returned (a call that raises leaves it unchanged). */
  function LastResponse(p: Prompt, backend: (Prompt, nat) -> Attempt, n: nat): (r: Option<Response>)
    ensures r.Some? ==> exists k | 0 <= k < n ::
      backend(p, k) == Returned(r.value) && forall j | k < j < n :: backend(p, j).Raised?
    ensures r.None? <==> forall k | 0 <= k < n :: backend(p, k).Raised?
  {
    if n == 0 then None
    else match backend(p, n - 1)
      case Returned(resp) => Some(resp)
      case Raised => LastResponse(p, backend, n - 1)
  }

  /** The message after the last failed attempt. */
  function FailureMessage(response: Option<Response>): (r: string)
    ensures response.None? || response.value.candidates == [] ==> r == NoResponse
  {
    if response.Some? && response.value.candidates != [] then
      match response.value.candidates[0].finishReason
      case Some(name) => "Error: AI feedback generation failed (Reason: " + name + ")."
      case None => ReasonUnavailable
    else NoResponse
  }

  /** The delays slept after the first `n` failed attempts: 1, 2, 4, ... */
  function Delays(n: nat): (r: seq<nat>)
    ensures |r| == n
    ensures forall i | 0 < i < n :: r[i] == 2 * r[i - 1]
    ensures n > 0 ==> r[0] == FirstDelay
  {
    if n == 0 then [] else Delays(n - 1) + [if n == 1 then FirstDelay else 2 * Delays(n - 1)[n - 2]]
  }

  predicate KeyConfigured(apiKey: string) {
    apiKey != "" && apiKey != PlaceholderKey
  }

  /** The text the retry loop ends with when attempts `0 .. k-1` have all
      failed: the first readable text from attempt `k` on, or the failure
      message once the last attempt fails too. */
  function RetryOutcome(p: Prompt, backend: (Prompt, nat) -> Attempt, k: nat): (r: string)
    requires k < MaxRetries
    ensures Succeeds(backend(p, k)) ==> r == backend(p, k).response.text.value
    ensures (forall j | k <= j < MaxRetries :: !Succeeds(backend(p, j))) ==>
      r == FailureMessage(LastResponse(p, backend, MaxRetries))
    decreases MaxRetries - k
  {
    if Succeeds(backend(p, k)) then backend(p, k).response.text.value
    else if k == MaxRetries - 1 then FailureMessage(LastResponse(p, backend, MaxRetries))
    else RetryOutcome(p, backend, k + 1)
  }

  /** What `get_personalized_feedback(data)` returns: the two guard messages,
      the IndexError of an empty keyword list, or the retry loop's text. */
  function FeedbackOutcome(data: FeedbackInput, apiKey: string, configureOk: bool,
                           backend: (Prompt, nat) -> Attempt): (r: Result<string, string>)
    ensures r.Err? <==> KeyConfigured(apiKey) && configureOk && PromptOf(data).None?
    ensures !KeyConfigured(apiKey) ==> r == Ok(NotConfigured)
    ensures KeyConfigured(apiKey) && !configureOk ==> r == Ok(ConfigureFailed)
  {
    if !KeyConfigured(apiKey) then Ok(NotConfigured)
    else if !configureOk then Ok(ConfigureFailed)
    else match PromptOf(data)
      case None => Err("IndexError")
      case Some(p) => Ok(RetryOutcome(p, backend, 0))
  }

  /** `get_personalized_feedback(analysis_data)` with the API key `apiKey`
      ("" when unset), `configureOk` false when `genai.configure` raises.
      The result is Err only for the IndexError of `PromptOf`. Once the
      model is called, attempts stop at the first one whose call and `.text`
      succeed, whose text is returned; there are at most three, with sleeps
      of 1 and then 2 between them and none after the last; after three
      failures the message comes from the last response returned. */
  method GetPersonalizedFeedback(data: FeedbackInput, apiKey: string, configureOk: bool,
                                 backend: (Prompt, nat) -> Attempt)
    returns (result: Result<string, string>, ghost calls: nat, ghost sleeps: seq<nat>)
    ensures result == FeedbackOutcome(data, apiKey, configureOk, backend)
    ensures !KeyConfigured(apiKey) ==> result == Ok(NotConfigured) && calls == 0 && sleeps == []
    ensures KeyConfigured(apiKey) && !configureOk ==> result == Ok(ConfigureFailed) && calls == 0 && sleeps == []
    ensures KeyConfigured(apiKey) && configureOk && PromptOf(data).None? ==>
      result == Err("IndexError") && calls == 0 && sleeps == []
    ensures KeyConfigured(apiKey) && configureOk && PromptOf(data).Some? ==>
      var p := PromptOf(data).value;
      && result.Ok?
      && 1 <= calls <= MaxRetries
      && sleeps == Delays(calls - 1)
      && (calls == MaxRetries ==> sleeps == [1, 2])
      && (forall k | 0 <= k < calls - 1 :: !Succeeds(backend(p, k)))
      && if Succeeds(backend(p, calls - 1)) then result.value == backend(p, calls - 1).response.text.value
         else calls == MaxRetries && result.value == FailureMessage(LastResponse(p, backend, MaxRetries))
  {
    calls, sleeps := 0, [];
    if !KeyConfigured(apiKey) {
      return Ok(NotConfigured), calls, sleeps;
    }
    if !configureOk {
      return Ok(ConfigureFailed), calls, sleeps;
    }
    var prompt := PromptOf(data);
    if prompt.None? {
      return Err("IndexError"), calls, sleeps;
    }
    var promptTemplate := prompt.value;
    var delay := FirstDelay;
    var response: Option<Response> := None;
    var attempt: nat := 0;
    while attempt < MaxRetries
      invariant attempt < MaxRetries
      invariant calls == attempt && sleeps == Delays(attempt)
      invariant delay == if attempt == 0 then FirstDelay else 2 * Delays(attempt)[attempt - 1]
      invariant response == LastResponse(promptTemplate, backend, attempt)
      invariant forall k | 0 <= k < attempt :: !Succeeds(backend(promptTemplate, k))
      invariant RetryOutcome(promptTemplate, backend, attempt) == RetryOutcome(promptTemplate, backend, 0)
    {
      calls := calls + 1;
      var outcome := backend(promptTemplate, attempt);
      if outcome.Returned? {
        response := Some(outcome.response);
        if outcome.response.text.Some? {
          return Ok(outcome.response.text.value), calls, sleeps;
        }
      }
      if attempt < MaxRetries - 1 {
        sleeps := sleeps + [delay];
        delay := delay * 2;
      } else {
        return Ok(FailureMessage(response)), calls, sleeps;
      }
      attempt := attempt + 1;
    }
    result := Ok(GenerationFailed);
  }
}
