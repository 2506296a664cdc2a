/** `llm` and `evaluate_relevance`: which backing model a model choice selects, what a call to
    the completion service yields, and how the evaluation reply becomes a relevance verdict.
    The completion service and the JSON parser are parameters. */
module Models {
  import opened Results
  import opened Text

  const CLAUDE_PREFIX: string := "claude/"
  const HAIKU_MODEL: string := "claude-3-haiku-20240307"
  const SONNET_MODEL: string := "claude-3-5-sonnet-20240620"

  /** The output-token limit every call passes to the completion service. */
  const MAX_TOKENS: nat := 1024

  /** The model choice the evaluation always uses. */
  const EVALUATION_CHOICE: string := "claude/3-haiku"

  /** The verdict that replaces an evaluation reply that is not valid JSON. */
  const UNKNOWN_RELEVANCE: string := "UNKNOWN"
  const PARSE_FAILURE_EXPLANATION: string := "Failed to parse evaluation"

  /** Token usage as lines 125-127 of `llm` read it (taken verbatim, never recomputed). */
  datatype Tokens = Tokens(promptTokens: nat, completionTokens: nat, totalTokens: nat)

  /** A reply of the completion service: the generated text and the usage report. */
  datatype Completion = Completion(text: string, usage: Tokens)

  /** What `llm` returns, apart from the wall-clock time it measures. */
  datatype Generation = Generation(answer: string, tokens: Tokens)

  /** The `ValueError` that `llm` raises for a choice it does not know. */
  datatype ModelError = UnknownModel(choice: string)

  /** `json.loads` as far as the evaluation needs it: not JSON at all, a JSON object (its
      members), or some other JSON value. */
  datatype ParseOutcome = Malformed | ParsedObject(fields: map<string, string>) | ParsedOther

  /** The exceptions `evaluate_relevance` does not catch: a missing key (`KeyError`), or a
      JSON value that cannot be indexed by a string (`TypeError`). */
  datatype EvaluationError = KeyMissing(key: string) | NotAnObject

  /** The `(relevance, explanation, tokens)` triple of `evaluate_relevance`. */
  datatype Verdict = Verdict(relevance: string, explanation: string, tokens: Tokens)

  // ---------------------------------------------------------------------------------------
  // Model selection and the generation call

  /** The model-selection branch of `llm`. */
  function SelectModel(choice: string): (r: Result<string, ModelError>)
    ensures r.Err? <==> !StartsWith(choice, CLAUDE_PREFIX)
    ensures r.Err? ==> r.error == UnknownModel(choice)
    ensures r.Ok? ==> (r.value == HAIKU_MODEL <==> Contains(choice, "haiku"))
    ensures r.Ok? ==> r.value == HAIKU_MODEL || r.value == SONNET_MODEL
  {
    if StartsWith(choice, CLAUDE_PREFIX) then
      Ok(if Contains(choice, "haiku") then HAIKU_MODEL else SONNET_MODEL)
    else
      Err(UnknownModel(choice))
  }

  /** The evaluation's fixed choice selects the Haiku model. */
  lemma EvaluationChoiceSelectsHaiku()
    ensures SelectModel(EVALUATION_CHOICE) == Ok(HAIKU_MODEL)
  {
    var c := EVALUATION_CHOICE;
    assert c[..7] == CLAUDE_PREFIX;
    assert OccursAt(c, "haiku", 9);
    ContainsIff(c, "haiku");
  }

  /** The stronger of the two choices the chat interface offers selects the Sonnet model. */
  lemma SonnetChoiceSelectsSonnet()
    ensures SelectModel("claude/3-5-sonnet") == Ok(SONNET_MODEL)
  {
    var s := "claude/3-5-sonnet";
    assert s[..7] == CLAUDE_PREFIX;
    NotContainsMissingFirst(s, "haiku");
  }

  /** A choice outside the `claude/` family is refused. */
  lemma ForeignChoiceRefused()
    ensures SelectModel("openai/gpt-4o") == Err(UnknownModel("openai/gpt-4o"))
  {
    var s := "openai/gpt-4o";
    assert s[..7][0] == 'o';
  }

  /** `llm(prompt, model_choice)` without its timing: the prompt goes to the selected model
      with the fixed output limit, and the reply's text and usage come back unchanged. An
      unknown choice fails before anything is sent. */
  function Llm(prompt: string, choice: string, complete: (string, string, nat) -> Completion): (r: Result<Generation, ModelError>)
    ensures r.Err? <==> !StartsWith(choice, CLAUDE_PREFIX)
    ensures r.Err? ==> r.error == UnknownModel(choice)
    ensures r.Ok? ==> r.value == Generation(complete(SelectModel(choice).value, prompt, MAX_TOKENS).text,
                                            complete(SelectModel(choice).value, prompt, MAX_TOKENS).usage)
  {
    match SelectModel(choice)
    case Err(e) => Err(e)
    case Ok(modelType) =>
      var response := complete(modelType, prompt, MAX_TOKENS);
      var tokens := Tokens(response.usage.promptTokens, response.usage.completionTokens, response.usage.totalTokens);
      Ok(Generation(response.text, tokens))
  }

  // ---------------------------------------------------------------------------------------
  // evaluate_relevance

  const EVALUATION_HEAD: string :=
    "You are an expert evaluator for a Retrieval-Augmented Generation (RAG) system.\n"
    + "    Your task is to analyze the relevance of the generated answer to the given question.\n"
    + "    Based on the relevance of the generated answer, you will classify it\n"
    + "    as \"NON_RELEVANT\", \"PARTLY_RELEVANT\", or \"RELEVANT\".\n"
    + "\n"
    + "    Here is the data for evaluation:\n"
    + "\n"
    + "    Question: "

  const EVALUATION_MIDDLE: string := "\n    Generated Answer: "

  const EVALUATION_TAIL: string :=
    "\n"
    + "\n"
    + "    Please analyze the content and context of the generated answer in relation to the question\n"
    + "    and provide your evaluation in parsable JSON without using code blocks:\n"
    + "\n"
    + "    {\n"
    + "      \"Relevance\": \"NON_RELEVANT\" | \"PARTLY_RELEVANT\" | \"RELEVANT\",\n"
    + "      \"Explanation\": \"[Provide a brief explanation for your evaluation]\"\n"
    + "    }"

  /** The evaluation prompt: the stripped template with the question and the answer filled in
      (the filled prompt itself is not stripped). */
  function EvaluationPrompt(question: string, answer: string): string
  {
    EVALUATION_HEAD + question + EVALUATION_MIDDLE + answer + EVALUATION_TAIL
  }

  /** The reply of the evaluation call. */
  function EvaluationReply(question: string, answer: string, complete: (string, string, nat) -> Completion): Completion
  {
    complete(HAIKU_MODEL, EvaluationPrompt(question, answer), MAX_TOKENS)
  }

  /** `evaluate_relevance(question, answer)`: the evaluation always runs on Haiku and always
      reports that call's tokens; a reply that is not JSON degrades to the UNKNOWN verdict,
      a JSON object with both keys yields them, and anything else raises. */
  function EvaluateRelevance(question: string, answer: string, complete: (string, string, nat) -> Completion,
                             parse: string -> ParseOutcome): (r: Result<Verdict, EvaluationError>)
    ensures r.Ok? ==> r.value.tokens == EvaluationReply(question, answer, complete).usage
    ensures parse(EvaluationReply(question, answer, complete).text).Malformed? ==>
      r == Ok(Verdict(UNKNOWN_RELEVANCE, PARSE_FAILURE_EXPLANATION, EvaluationReply(question, answer, complete).usage))
    ensures parse(EvaluationReply(question, answer, complete).text).ParsedObject? ==>
      var fields := parse(EvaluationReply(question, answer, complete).text).fields;
      if "Relevance" !in fields then r == Err(KeyMissing("Relevance"))
      else if "Explanation" !in fields then r == Err(KeyMissing("Explanation"))
      else r == Ok(Verdict(fields["Relevance"], fields["Explanation"], EvaluationReply(question, answer, complete).usage))
    ensures parse(EvaluationReply(question, answer, complete).text).ParsedOther? ==> r == Err(NotAnObject)
  {
    var prompt := EvaluationPrompt(question, answer);
    EvaluationChoiceSelectsHaiku();
    var evaluation := Llm(prompt, EVALUATION_CHOICE, complete).value;
    match parse(evaluation.answer)
    case Malformed => Ok(Verdict(UNKNOWN_RELEVANCE, PARSE_FAILURE_EXPLANATION, evaluation.tokens))
    case ParsedOther => Err(NotAnObject)
    case ParsedObject(jsonEval) =>
      if "Relevance" !in jsonEval then Err(KeyMissing("Relevance"))
      else if "Explanation" !in jsonEval then Err(KeyMissing("Explanation"))
      else Ok(Verdict(jsonEval["Relevance"], jsonEval["Explanation"], evaluation.tokens))
  }

  /** Only a JSON decode failure degrades; the evaluation fails exactly when the reply parses
      but is not an object holding both keys. */
  lemma EvaluationFailsOnlyOnWellFormedReplies(question: string, answer: string,
                                               complete: (string, string, nat) -> Completion,
                                               parse: string -> ParseOutcome)
    ensures var outcome := parse(EvaluationReply(question, answer, complete).text);
      EvaluateRelevance(question, answer, complete, parse).Err? <==>
        !outcome.Malformed? && !(outcome.ParsedObject? && "Relevance" in outcome.fields && "Explanation" in outcome.fields)
  {
  }
}
