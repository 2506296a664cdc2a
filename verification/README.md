# A verified model of the FAQ assistant's answer pipeline

This project models `app/assistant.py`, the core of a retrieval-augmented FAQ assistant for an
open source project's contributors. A question goes through these steps:

1. It is embedded.
2. It is searched two ways in Elasticsearch: a kNN search on the `page_content_vector` field, and
   a multi-field keyword search.
3. The two ranked hit lists are fused by Reciprocal Rank Fusion (RRF).
4. The five best fused documents are fetched and written into a fixed prompt template.
5. The prompt is sent to a Claude model.
6. The answer is judged for relevance by a second call to Claude Haiku.
7. The generation call is priced from its token counts.

Modules, one per stage:

- `Results` (`results.dfy`): the `Result` and `Option` wrappers. A Python exception is an `Err`.
- `Text` (`text.dfy`): the string operations the code relies on. `str.strip` uses Python's
  `isspace` set; `startswith` and the `in` operator are each connected to an occurrence predicate.
- `Fusion` (`fusion.dfy`): `compute_rrf` and `elastic_search_hybrid_rrf` after its two searches.
  This covers the two score loops over a dictionary, modelled as its key order plus a map. It also
  covers Python's stable descending sort, the top-five cut, and fetching each document.
- `Prompt` (`prompt.dfy`): `build_prompt`, meaning the context loop, the template and the strip.
- `Models` (`llm.dfy`): the model selection and generation call of `llm`, and `evaluate_relevance`.
- `Cost` (`cost.dfy`): `calculate_claude_pricing` and `calculate_claude_cost`.
- `Pipeline` (`pipeline.dfy`): `get_answer`, which chains the stages and builds the returned record.

The loops of the source are methods proved against specification functions:

- `AssignVectorScores` and `AddKeywordScores`, composed by `FuseScores`
- `HybridSearchRrf`
- `BuildPrompt`
- `GetAnswer`

The properties are proved about those functions.

Behaviour of the code that the model keeps as written:

- The code sets `boost: 0.5` on both searches (lines 32 and 43). RRF reads only ranks, so the
  boosts never reach the fused score.
- The vector loop *assigns* a score, so an id repeated in the kNN hits keeps the score of its
  last rank. The keyword loop *adds*, so a repeated keyword id collects every rank
  (`RepeatedIdOverwritesThenAdds`).
- `calculate_claude_cost` prices every choice other than exactly `claude/3-haiku` at the
  Sonnet rates. That includes `claude/...` choices it does not know.
- The Haiku completion rate in the code is $0.000125 per 1000 tokens (line 202), i.e. $0.125
  per million (`HaikuCostScenario`).
- In `evaluate_relevance` only a JSON decode failure degrades to the `UNKNOWN` verdict. A reply
  that parses but lacks a key, or is not an object, raises out of `get_answer`.

## Model

| member | source | states |
|---|---|---|
| Fusion.ComputeRrf | app/assistant.py:20-23 | the RRF term is the exact reciprocal of `k + rank` |
| Fusion.RrfPositive | app/assistant.py:20-23 | with `k >= 0` and a 1-based rank every term is positive |
| Fusion.RrfStrictlyDecreasing | app/assistant.py:20-23 | a better (smaller) rank always contributes strictly more |
| Fusion.VectorContribution | app/assistant.py:56-58 | an id's score from the vector branch is zero when absent and positive when present |
| Fusion.KeywordContribution | app/assistant.py:60-66 | what the keyword branch adds for an id is non-negative, zero when absent and positive when present |
| Fusion.VectorContributionIsLastRank | app/assistant.py:56-58 | the vector branch overwrites: an id's score is the term of the last rank at which it occurs |
| Fusion.KeywordContributionSingleRank | app/assistant.py:60-66 | an id found once by the keyword branch gets exactly the term of its rank |
| Fusion.KeywordContributionExtend | app/assistant.py:60-66 | every keyword hit adds its own term to the id's score |
| Fusion.RepeatedIdOverwritesThenAdds | app/assistant.py:56-66 | a twice-listed id scores 1/62 from the vector branch but 1/61 + 1/62 from the keyword branch |
| Fusion.FusedScoreOfRanks | app/assistant.py:54-66 | an id found in both branches scores the sum of its two rank terms; with the other branch's list empty, it scores its own branch's term |
| Fusion.FusedScoreVectorOnly | app/assistant.py:54-66 | an id the keyword search missed scores exactly the term of its last vector rank |
| Fusion.FusedScoreKeywordOnly | app/assistant.py:54-66 | an id the vector search missed, found once by the keyword search, scores exactly the term of its keyword rank |
| Fusion.AppendNew | app/assistant.py:54-66 | after setting keys, the keys are exactly the old keys and the new ids |
| Fusion.AppendNewExtends | app/assistant.py:54-66 | setting keys never moves the keys already there, and adds none twice |
| Fusion.InsertionOrderKeys | app/assistant.py:54-66 | each id of either branch is a dictionary key exactly once, and the vector ids come first |
| Fusion.PrefixMembersStep | app/assistant.py:56-66 | one more hit adds exactly that id to the ids seen so far |
| Fusion.AppendNewStep | app/assistant.py:56-66 | one more hit appends its id to the keys when it is new and changes nothing otherwise |
| Fusion.VectorContributionOthers | app/assistant.py:56-58 | the vector branch's next hit sets that id to the term of its rank and leaves every other id's score alone |
| Fusion.KeywordContributionStep | app/assistant.py:60-66 | the keyword branch's next hit adds the term of its rank to that id |
| Fusion.KeywordContributionOthers | app/assistant.py:60-66 | the keyword branch's next hit leaves every other id's score alone |
| Fusion.FusedScore | app/assistant.py:54-66 | definition: an id's final score, the vector branch's term plus what the keyword branch adds (stated by `FusedScoreOfRanks`, `FusedScoreVectorOnly` and `FusedScoreKeywordOnly`) |
| Fusion.InsertionOrder | app/assistant.py:54-66 | definition: the dictionary's key order, the keys the vector loop sets and then those the keyword loop sets (stated by `InsertionOrderKeys` and `InsertionOrderOfDistinctHits`) |
| Fusion.Fresh | app/assistant.py:60-66 | the kept elements are exactly those of the list that are not excluded |
| Fusion.AppendNewOfDistinct | app/assistant.py:60-66 | setting the ids of a list without repeats appends exactly the ids not yet present, in the list's order |
| Fusion.FreshOfNew | app/assistant.py:60-66 | when no element is excluded, all are kept in order |
| Fusion.AppendNewOfNew | app/assistant.py:56-66 | setting distinct ids none of which is present appends them all, in order |
| Fusion.InsertionOrderOfDistinctHits | app/assistant.py:54-66 | for hit lists without repeats, the key order is the vector hits in rank order, then the keyword hits the vector search missed, in rank order |
| Fusion.FusedItemsKeys | app/assistant.py:54-69 | `rrf_scores.items()` holds each id of either search exactly once, each with its fused score |
| Fusion.AssignVectorScores | app/assistant.py:54-58 | the vector loop leaves the vector ids as keys in first-appearance order, each scored by its vector contribution |
| Fusion.AddKeywordScores | app/assistant.py:60-66 | the keyword loop adds the keyword-only ids after the vector ids, and every key then holds its fused score |
| Fusion.FusedItems | app/assistant.py:54-69 | definition: `rrf_scores.items()` in insertion order (stated by `FusedItemsKeys` and `FuseScores`) |
| Fusion.FuseScores | app/assistant.py:54-69 | the two loops produce exactly the fused items |
| Fusion.WithScoreAppend | app/assistant.py:69 | picking entries by score commutes with concatenation |
| Fusion.NonIncreasingSlice | app/assistant.py:69 | every slice of a sequence in descending order is in descending order |
| Fusion.ConsNonIncreasing | app/assistant.py:69 | an entry that bounds every score after it can go in front without breaking the order |
| Fusion.Insert | app/assistant.py:69 | insertion adds exactly that entry and nothing else |
| Fusion.InsertNonIncreasing | app/assistant.py:69 | inserting into a sequence in descending order keeps it in descending order |
| Fusion.WithScoreSingle | app/assistant.py:69 | a single entry is kept by its own score only |
| Fusion.WithScoreCons | app/assistant.py:69 | picking entries by score from a sequence with a first entry is that entry, if it has the score, followed by the rest's picks |
| Fusion.InsertWithScoreBehind | app/assistant.py:69 | when the entry goes behind the first entry, insertion into the rest being stable makes the whole insertion stable |
| Fusion.InsertWithScoreFront | app/assistant.py:69 | an entry that beats the first entry goes in front and is still stable, since no entry of its score is in the sequence |
| Fusion.InsertWithScore | app/assistant.py:69 | insertion is stable: the new entry follows every entry of equal score |
| Fusion.WithScoreNone | app/assistant.py:69 | no entry of a non-increasing sequence has a score above its first entry's |
| Fusion.SortDescending | app/assistant.py:69 | the stable descending sort is a permutation, non-increasing, and keeps equal scores in their original order |
| Fusion.InsertAtEnd | app/assistant.py:69 | an entry no better than any other goes last |
| Fusion.SortDescendingOfSorted | app/assistant.py:69 | sorting a sequence that is already in order changes nothing |
| Fusion.DistinctCount | app/assistant.py:69-73 | a sequence without repeats holds each value at most once |
| Fusion.DistinctPermutation | app/assistant.py:69-73 | a permutation of a sequence without repeats has none either |
| Fusion.SortedItemsFacts | app/assistant.py:54-69 | the sorted items repeat no entry, pair each key with its fused score, and include every key |
| Fusion.TopIds | app/assistant.py:69-73 | definition: the ids of the first five sorted items (stated by `TopIdsProperties`) |
| Fusion.RankedIds | app/assistant.py:69 | definition: the ids of the sorted items (stated by `RankingProperties`) |
| Fusion.RankingProperties | app/assistant.py:54-69 | the ranking lists every fused id exactly once, best fused score first |
| Fusion.TopIdsProperties | app/assistant.py:69-73 | at most five distinct fused ids are kept, in non-increasing score, and no id left out beats one kept |
| Fusion.TiesKeepInsertionOrder | app/assistant.py:54-69 | ranked ids of equal score keep the dictionary's insertion order |
| Fusion.ExampleVectorKeys | app/assistant.py:54-58 | distinct vector hits [a, b, c] become the keys [a, b, c] |
| Fusion.ExampleKeys | app/assistant.py:54-66 | then keyword hits [b, a, d] add only d |
| Fusion.ExampleInsertionOrder | app/assistant.py:54-66 | vector hits [a, b, c] with keyword hits [b, a, d] give the key order [a, b, c, d] |
| Fusion.ExampleScores | app/assistant.py:54-66 | in that example a and b tie at 1/61 + 1/62, and c and d tie at 1/63 |
| Fusion.ExampleItems | app/assistant.py:54-69 | in that example the items are a and b at 1/61 + 1/62, then c and d at 1/63, in key order |
| Fusion.NonIncreasingFour | app/assistant.py:69 | four entries with non-increasing scores are in descending order |
| Fusion.TieBreakExample | app/assistant.py:54-73 | in that example the ties break by insertion order and the kept ids are [a, b, c, d] |
| Fusion.Hydrate | app/assistant.py:71-76 | fetching succeeds exactly when every kept id is in the index, keeps the order, and otherwise fails on a missing id |
| Fusion.HydrateFailureExtends | app/assistant.py:73-76 | the first fetch that fails aborts the whole search with that error |
| Fusion.HydrateStep | app/assistant.py:73-76 | a fetched document is appended to the results, after those already fetched |
| Fusion.HydrateStopsAt | app/assistant.py:73-76 | after the documents fetched so far, the first id the index lacks ends the search with its error |
| Fusion.TopIdsOfSorted | app/assistant.py:69-73 | the kept ids are, position by position, the ids of the first five sorted items |
| Fusion.HybridSearch | app/assistant.py:69-79 | definition: the kept ids, fetched in order (stated by `Hydrate` and `HybridSearchRrf`) |
| Fusion.HybridSearchRrf | app/assistant.py:53-79 | the method's fuse, sort, cut and fetch steps compute the hybrid search result |
| Text.RStrip | app/assistant.py:103 | trailing strip removes exactly the trailing white space: a prefix is kept, it ends in a non-space character, and white space follows it |
| Text.LStrip | app/assistant.py:103 | definition: drops white space from the front one character at a time (stated by `LStripSpec`) |
| Text.Strip | app/assistant.py:103 | definition: `str.strip()` as a trailing strip followed by a leading strip (stated by `RStrip` and `LStripSpec`) |
| Text.LStripSpec | app/assistant.py:103 | leading strip removes exactly the leading white space: a suffix is kept, it starts with a non-space character, and only white space comes before it |
| Text.StartsWith | app/assistant.py:111 | definition: `str.startswith` as a prefix comparison (stated by `StartsWithIff`) |
| Text.StartsWithIff | app/assistant.py:111 | the prefix test holds exactly when the prefix occurs at position 0 |
| Text.Contains | app/assistant.py:112 | definition: the `in` test as a search from the left (stated by `ContainsIff`) |
| Text.ContainsIff | app/assistant.py:112 | the `in` test holds exactly when the text occurs at some position |
| Text.LStripNonSpaceStart | app/assistant.py:103 | a text starting with a non-space character is not changed by a leading strip |
| Text.LStripNonSpaceHead | app/assistant.py:103 | whatever follows a head that starts with a non-space character, a leading strip keeps it all |
| Text.RStripAllSpace | app/assistant.py:103 | an all-white-space text strips to nothing |
| Text.RStripConcat | app/assistant.py:103 | how a trailing strip of a concatenation splits between the two parts |
| Text.NotContainsMissingFirst | app/assistant.py:112 | a text that lacks the first character of another does not contain it |
| Prompt.FillTemplate | app/assistant.py:83-92 | definition: the stripped template with the question and the context filled in |
| Prompt.Block | app/assistant.py:94-101 | definition: one document's entry followed by the block separator |
| Prompt.Context | app/assistant.py:98-101 | definition: the blocks of the documents in order (stated by `ContextAppend` and `ContextBlockAt`) |
| Prompt.PromptText | app/assistant.py:98-103 | definition: the stripped, filled template (stated by `PromptShape` and `PromptContainsQuestion`) |
| Prompt.BuildPrompt | app/assistant.py:82-105 | the loop and the template compute the stripped prompt of the question and the documents |
| Prompt.ContextAppend | app/assistant.py:98-101 | the context of concatenated document lists is the concatenation of their contexts |
| Prompt.ContextBlockAt | app/assistant.py:98-101 | each document's block sits between those before and after it, in ranking order |
| Prompt.MiddleStripped | app/assistant.py:88-92 | the template text between question and context strips to "...CONTEXT:" |
| Prompt.HeadStart | app/assistant.py:83-92 | the stripped template begins with a non-space character |
| Prompt.PromptShape | app/assistant.py:103 | the prompt is head, question and stripped context, or it ends at "CONTEXT:" when the context is blank |
| Prompt.EmptyResultsPrompt | app/assistant.py:98-103 | with no documents the prompt ends at "CONTEXT:" |
| Prompt.PromptContainsQuestion | app/assistant.py:103 | the prompt starts with the head and the question, so the question occurs right after the head |
| Prompt.ConcatParts4 | app/assistant.py:103 | a four-part concatenation starts with its first two parts |
| Prompt.ConcatParts | app/assistant.py:103 | a three-part concatenation starts with its first two parts |
| Prompt.StrippedContextKeepsContent | app/assistant.py:100-103 | when the last content ends in a non-space character, stripping removes only the final separator |
| Models.SelectModel | app/assistant.py:111-130 | exactly the `claude/` choices are accepted; Haiku exactly when the choice contains "haiku", otherwise Sonnet |
| Models.EvaluationChoiceSelectsHaiku | app/assistant.py:160 | the evaluation's fixed choice selects the Haiku model |
| Models.SonnetChoiceSelectsSonnet | app/assistant.py:111-112 | `claude/3-5-sonnet` selects the Sonnet model |
| Models.ForeignChoiceRefused | app/assistant.py:129-130 | a choice outside the `claude/` family is refused |
| Models.Llm | app/assistant.py:108-135 | an unknown choice fails before any call; otherwise the selected model answers with 1024 output tokens, and its text and usage come back unchanged |
| Models.EvaluationPrompt | app/assistant.py:139-159 | definition: the evaluation template with the question and the answer filled in |
| Models.EvaluationReply | app/assistant.py:159-160 | definition: the reply of the Haiku call on the evaluation prompt (stated by `EvaluationChoiceSelectsHaiku` and `EvaluateRelevance`) |
| Models.EvaluateRelevance | app/assistant.py:138-167 | the evaluation reports the Haiku call's tokens; a non-JSON reply gives UNKNOWN; an object gives its two keys or a missing-key error; any other JSON value fails |
| Models.EvaluationFailsOnlyOnWellFormedReplies | app/assistant.py:162-167 | the evaluation fails exactly when the reply parses but is not an object holding both keys |
| Cost.ClaudePricing | app/assistant.py:170-195 | definition: each token count, in millions, times its price per million (stated by the `Pricing` lemmas) |
| Cost.PricingPerMillion | app/assistant.py:170-195 | one million prompt tokens cost exactly the prompt rate |
| Cost.PricingNonNegative | app/assistant.py:170-195 | non-negative counts at non-negative rates never cost less than nothing |
| Cost.PricingAdditive | app/assistant.py:170-195 | two calls cost what one call with their summed counts costs |
| Cost.PricingScenario | app/assistant.py:170-195 | at the docstring's default rates of $0.150 and $0.600 per million, 1000 prompt and 500 completion tokens cost $0.00045 |
| Cost.ClaudeCost | app/assistant.py:198-206 | `claude/3-haiku` is priced at $0.25 and $0.125 per million tokens, every other choice at $3 and $15, and the cost is never negative |
| Cost.HaikuCostScenario | app/assistant.py:201-202 | 1000 prompt and 500 completion tokens on Haiku cost $0.0003125, which is `calculate_claude_pricing` at $0.25 and $0.125 per million |
| Pipeline.Record | app/assistant.py:219-234 | definition: the returned dictionary, from the generation, the verdict and the cost (stated by `AnswerPricesGenerationTokens` and `MalformedEvaluationDegrades`) |
| Pipeline.Answer | app/assistant.py:209-234 | definition: the stages in source order, stopping at the first exception (stated by `AnswerFailures` and `GetAnswer`) |
| Pipeline.GetAnswer | app/assistant.py:209-234 | the method computes the answer record, or the first failure, of the whole pipeline |
| Pipeline.AnswerPricesGenerationTokens | app/assistant.py:219-233 | the record names the user's choice, reports the generation reply's usage as its token counts, and prices exactly that usage, never the evaluation's, at a non-negative cost |
| Pipeline.AnswerFailures | app/assistant.py:209-219 | a fetch failure comes first, then an unknown model choice; past those only the evaluation can fail |
| Pipeline.MalformedEvaluationDegrades | app/assistant.py:209-234 | a non-JSON evaluation reply still gives the answer, with the UNKNOWN verdict and all three token counts of the evaluation call |

## Left out

- The Elasticsearch client is not modelled. Each search becomes the ranked list of hit ids it
  returns, and `es_client.get` becomes a fetch function that may miss. So the query bodies are
  not modelled: the size-10 limits, `num_candidates`, the field weights and the boosts. The
  boosts cannot affect the result anyway, since RRF sees only ranks.
- The sentence-transformer embedder is a parameter, `Services.encode`.
- The Anthropic client is the parameter `Services.complete`: model, prompt and `max_tokens` in,
  text and usage out. Indexing `response.content[0]` on an empty reply is not modelled.
- The usage report is taken to carry the three fields that lines 125-127 read: `prompt_tokens`,
  `completion_tokens` and `total_tokens`. The Anthropic client's usage object reports
  `input_tokens` and `output_tokens` instead. If so, those lines as written raise
  `AttributeError` on every successful call, and `get_answer` never returns a record. The model
  does not show this: every `Ok` result of `Answer`, and the lemmas about it, rest on the
  assumed shape of the usage report.
- Failures of the external services are not modelled. In the code each of these raises out
  of `get_answer`: `model.encode` (line 210), `es_client.search` (lines 50-51), `es_client.get`
  on an error other than a missing document (line 74), and `claude_client.messages.create`
  (line 114). The model has the search, encode and completion services always answer, and
  `fetch` fail only with a missing document. The evaluation call at line 160 is outside the
  `try` of lines 162-167, so a failure of that call also aborts the query; the model does not
  show that either.
- The clock is not modelled. The generation call's `response_time` is a parameter of `GetAnswer`.
- `json.loads` is an abstract parser with three outcomes: not JSON, an object with string
  members, or another JSON value. The JSON grammar is not modelled, and neither are non-string
  member values.
- Floating point is not modelled. Scores and costs are exact `real` numbers, so rounding
  differences between equal-looking scores are not captured.
- `k` is a `nat`. The division by zero that a negative `k` could cause is outside the model;
  the code only ever uses 60.
- `Document` always has a `page_content`, so the `KeyError` that `entry_template.format(**doc)`
  would raise without one is not modelled.
- The environment variables and client construction (lines 10-16) are not modelled.
- `app.py`, the database module and the indexing scripts are not part of this model.
