/** `get_answer`: embed the query, run the hybrid search, build the prompt, generate the answer,
    evaluate it and price it. The embedder, the two index searches, the fetch-by-id, the
    completion service, the JSON parser and the measured response time are parameters. */
module Pipeline {
  import opened Results
  import opened Text
  import opened Fusion
  import opened Prompt
  import opened Models
  import opened Cost

  /** The vector field the kNN search runs on. */
  const VECTOR_FIELD: string := "page_content_vector"

  /** The dictionary `get_answer` returns. */
  datatype AnswerRecord = AnswerRecord(
    answer: string,
    responseTime: real,
    relevance: string,
    relevanceExplanation: string,
    modelUsed: string,
    promptTokens: nat,
    completionTokens: nat,
    totalTokens: nat,
    evalPromptTokens: nat,
    evalCompletionTokens: nat,
    evalTotalTokens: nat,
    claudeCost: real)

  /** The exceptions that escape `get_answer`, by the step that raises them. */
  datatype PipelineError =
    | SearchFailed(searchError: SearchError)
    | ModelFailed(modelError: ModelError)
    | EvaluationFailed(evaluationError: EvaluationError)

  /** The external collaborators of one query. */
  datatype Services = Services(
    encode: string -> seq<real>,
    vectorSearch: (string, seq<real>) -> seq<Id>,
    keywordSearch: string -> seq<Id>,
    fetch: Id -> Option<Document>,
    complete: (string, string, nat) -> Completion,
    parse: string -> ParseOutcome)

  /** The ranked hits of the two searches `elastic_search_hybrid_rrf` issues. */
  function VectorHits(query: string, services: Services): seq<Id>
  {
    services.vectorSearch(VECTOR_FIELD, services.encode(query))
  }

  function KeywordHits(query: string, services: Services): seq<Id>
  {
    services.keywordSearch(query)
  }

  /** The record `get_answer` builds from the generation, the verdict and the cost. */
  function Record(modelChoice: string, generation: Generation, responseTime: real, verdict: Verdict): AnswerRecord
  {
    AnswerRecord(
      generation.answer, responseTime, verdict.relevance, verdict.explanation, modelChoice,
      generation.tokens.promptTokens, generation.tokens.completionTokens, generation.tokens.totalTokens,
      verdict.tokens.promptTokens, verdict.tokens.completionTokens, verdict.tokens.totalTokens,
      ClaudeCost(modelChoice, generation.tokens))
  }

  /** What `get_answer(query, model_choice)` returns, or the first exception it raises. */
  function Answer(query: string, modelChoice: string, services: Services, responseTime: real): Result<AnswerRecord, PipelineError>
  {
    match HybridSearch(VectorHits(query, services), KeywordHits(query, services), DEFAULT_K, services.fetch)
    case Err(e) => Err(SearchFailed(e))
    case Ok(searchResults) =>
      match Llm(PromptText(query, searchResults), modelChoice, services.complete)
      case Err(e) => Err(ModelFailed(e))
      case Ok(generation) =>
        match EvaluateRelevance(query, generation.answer, services.complete, services.parse)
        case Err(e) => Err(EvaluationFailed(e))
        case Ok(verdict) => Ok(Record(modelChoice, generation, responseTime, verdict))
  }

  /** `get_answer`, step by step. */
  method GetAnswer(query: string, modelChoice: string, services: Services, responseTime: real)
    returns (r: Result<AnswerRecord, PipelineError>)
    ensures r == Answer(query, modelChoice, services, responseTime)
  {
    var vector := services.encode(query);
    var knnResults := services.vectorSearch(VECTOR_FIELD, vector);
    var keywordResults := services.keywordSearch(query);
    var searchResults := HybridSearchRrf(knnResults, keywordResults, DEFAULT_K, services.fetch);
    if searchResults.Err? {
      return Err(SearchFailed(searchResults.error));
    }
    var prompt := BuildPrompt(query, searchResults.value);
    var generation := Llm(prompt, modelChoice, services.complete);
    if generation.Err? {
      return Err(ModelFailed(generation.error));
    }
    var evaluation := EvaluateRelevance(query, generation.value.answer, services.complete, services.parse);
    if evaluation.Err? {
      return Err(EvaluationFailed(evaluation.error));
    }
    r := Ok(Record(modelChoice, generation.value, responseTime, evaluation.value));
  }

  /** The reported cost prices the generation call's tokens under the user's model choice;
      the evaluation call's tokens are reported but not priced. */
  lemma AnswerPricesGenerationTokens(query: string, modelChoice: string, services: Services, responseTime: real)
    requires Answer(query, modelChoice, services, responseTime).Ok?
    ensures var a := Answer(query, modelChoice, services, responseTime).value;
      var docs := HybridSearch(VectorHits(query, services), KeywordHits(query, services), DEFAULT_K, services.fetch).value;
      var g := services.complete(SelectModel(modelChoice).value, PromptText(query, docs), MAX_TOKENS);
      && a.modelUsed == modelChoice
      && Tokens(a.promptTokens, a.completionTokens, a.totalTokens) == g.usage
      && a.claudeCost == ClaudeCost(modelChoice, g.usage)
      && a.claudeCost >= 0.0
  {
    var docs := HybridSearch(VectorHits(query, services), KeywordHits(query, services), DEFAULT_K, services.fetch).value;
    var generation := Llm(PromptText(query, docs), modelChoice, services.complete).value;
    var verdict := EvaluateRelevance(query, generation.answer, services.complete, services.parse).value;
    assert Answer(query, modelChoice, services, responseTime) == Ok(Record(modelChoice, generation, responseTime, verdict));
  }

  /** A fused document that cannot be fetched fails the query before any model is called; a
      choice outside the `claude/` family fails it next; past those two steps only the
      evaluation can fail it. */
  lemma AnswerFailures(query: string, modelChoice: string, services: Services, responseTime: real)
    ensures var search := HybridSearch(VectorHits(query, services), KeywordHits(query, services), DEFAULT_K, services.fetch);
      var r := Answer(query, modelChoice, services, responseTime);
      && (search.Err? ==> r == Err(SearchFailed(search.error)))
      && (search.Ok? && !StartsWith(modelChoice, CLAUDE_PREFIX) ==> r == Err(ModelFailed(UnknownModel(modelChoice))))
      && (search.Ok? && StartsWith(modelChoice, CLAUDE_PREFIX) ==> (r.Err? ==> r.error.EvaluationFailed?))
  {
    var search := HybridSearch(VectorHits(query, services), KeywordHits(query, services), DEFAULT_K, services.fetch);
    if search.Ok? {
      var generation := Llm(PromptText(query, search.value), modelChoice, services.complete);
      assert generation.Err? <==> !StartsWith(modelChoice, CLAUDE_PREFIX);
    }
  }

  /** An evaluation reply that is not JSON never costs the user the answer: the record still
      comes back, with the UNKNOWN verdict and the evaluation call's tokens. */
  lemma MalformedEvaluationDegrades(query: string, modelChoice: string, services: Services, responseTime: real)
    requires HybridSearch(VectorHits(query, services), KeywordHits(query, services), DEFAULT_K, services.fetch).Ok?
    requires StartsWith(modelChoice, CLAUDE_PREFIX)
    ensures var docs := HybridSearch(VectorHits(query, services), KeywordHits(query, services), DEFAULT_K, services.fetch).value;
      var generation := Llm(PromptText(query, docs), modelChoice, services.complete).value;
      var reply := EvaluationReply(query, generation.answer, services.complete);
      services.parse(reply.text).Malformed? ==>
        && Answer(query, modelChoice, services, responseTime).Ok?
        && Answer(query, modelChoice, services, responseTime).value.answer == generation.answer
        && Answer(query, modelChoice, services, responseTime).value.relevance == UNKNOWN_RELEVANCE
        && Answer(query, modelChoice, services, responseTime).value.relevanceExplanation == PARSE_FAILURE_EXPLANATION
        && Tokens(Answer(query, modelChoice, services, responseTime).value.evalPromptTokens,
                  Answer(query, modelChoice, services, responseTime).value.evalCompletionTokens,
                  Answer(query, modelChoice, services, responseTime).value.evalTotalTokens) == reply.usage
  {
  }
}
