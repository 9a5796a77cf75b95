# SMACS pipeline core in Dafny

SMACS answers a free-text query by passing it through a research stage and,
for harder queries, an analysis stage. Both stages share one growing
knowledge store. This project models the core of that system and proves
properties of the model:

- **The store** (`MemoryAgent`, module `Memory`). It keeps three
  append-only logs: knowledge records, conversation turns and agent-state
  notes. It also keeps the `_ids`/`_texts` lists that the vector index is
  fitted on. It offers keyword search over the records and retrieval of
  conversation turns by keyword. Vector search is modelled as an oracle.
- **The research stage** (`ResearchAgent.research`, module `Research`).
  It scores a fixed corpus against the query's tokens and keeps the best
  `top_n` entries by a stable sort. It asks vector memory for three
  suggestions and stores every hit as a new record.
- **The analysis stage** (`AnalysisAgent.analyze`, module `Analysis`).
  It measures each candidate by a keyword-occurrence score and its word
  count. It ranks the candidates by the pair (score, length), highest
  first, and renders a numbered summary, which it stores as a record.
- **The coordinator** (`Coordinator`, module `Coordination`):
  - classifies the query (`complexity_estimate`);
  - runs the simple flow (research with `top_n=3`, then excerpts of the
    stored records) or the complex flow (research with `top_n=6`,
    candidate collection with a keyword fallback, analysis, synthesis);
  - turns a failing stage into the fixed apology with confidence 0.2.

Every query records the user's turn first and exactly one assistant turn
last.

The shared pieces live in their own modules:

- `Text`: ASCII lower-casing, `str.split()`, `in`, `str.count`, `str(n)`
  for naturals, `"\n".join`, and `s[:n]`.
- `Ranking`: Python's stable `sort(key=..., reverse=True)` followed by
  `[:n]`. It is specified as a sort by (key descending, original position
  ascending).
- `Wrappers`: `Option` and `Result`.

The store, the three agents and the coordinator are classes. Their methods
update fields, and each method is proved against specification functions
on values. The `Valid()` invariant of the store says three things: records
are numbered 1, 2, … in insertion order, `_ids` holds `kb_<n>` for each
record, and `_texts` holds `title + " " + text` for each record.

Two interface choices:

- A record's identifier `kb_<n>` is held as its number `n`. The rendered
  string is `KbId(n)`, and the proofs show that different numbers always
  give different strings.
- Clock-derived task ids are inputs.

Design observations that the lemmas establish:

- **The keyword fallback never finds anything.** The complex flow's
  fallback to `keyword_search_kb` runs only when the candidate set is
  empty. That happens only when research found no hit and the store was
  empty beforehand. The store is then still empty, so the fallback always
  returns nothing (`FallbackFindsNothing`).
- **The complex answer's confidence is always 0.85**, which is
  min(0.9, 0.85).
- **The complex flow stores its records in a fixed order.** After it
  succeeds, the store holds its old records, then the research records,
  then the summary record, then the synthesis record, all numbered
  consecutively (`HandleComplex`).

Where the system's written description and its code differ, the model
follows the code:

- The analysis score is the keyword-occurrence count alone. The ranking
  key is the pair (score, length), not the score plus the length.
- The stages label records and notes "ResearchAgent" and "AnalysisAgent",
  not "ResearchStage" and "AnalysisStage".
- Keyword search counts every keyword that occurs, repeats included, not
  only distinct tokens. The research stage scores corpus entries the same
  way.
- A simple-flow excerpt is the first 240 characters of the text followed
  by "..." in every case.

## Model

| member | source | states |
|---|---|---|
| Text.Lower | src/smacs/memory_agent.py:44-47 | lower-casing keeps the length, turns each of `A`..`Z` into its lower-case letter, leaves every other character in place, and leaves no upper-case letter |
| Text.LowerAppend | src/smacs/coordinator.py:31 | lower-casing distributes over concatenation |
| Text.SplitFromWords | src/smacs/research_agent.py:20 | tokenising from a partial token yields only words, and their concatenation is the partial token followed by the input with separators removed |
| Text.SplitWords | src/smacs/coordinator.py:37 | `split()` yields non-empty separator-free words whose concatenation is the text without its separators |
| Text.SplitFromSeparated | src/smacs/coordinator.py:37 | continuing a token across a separator splits the token list at that separator |
| Text.SplitAtSeparator | src/smacs/coordinator.py:37 | the tokens of `a + sp + b` are the tokens of `a` followed by the tokens of `b` |
| Text.SplitFromWord | src/smacs/research_agent.py:20 | a run without separators closes the current token into a single word |
| Text.SplitOfWord | src/smacs/research_agent.py:20 | a single word splits into itself |
| Text.ContainsIff | src/smacs/coordinator.py:32 | `p in s` holds exactly when `p` occurs at some position of `s` |
| Text.ContainsAt | src/smacs/coordinator.py:32 | an occurrence at a position makes `p in s` true |
| Text.ContainsExtend | src/smacs/coordinator.py:32 | an occurrence stays when the text is extended |
| Text.CountPositiveIffContains | src/smacs/analysis_agent.py:18 | `s.count(p)` is positive exactly when `p in s` |
| Text.CountFits | src/smacs/analysis_agent.py:18 | the counted occurrences do not overlap: count times pattern length is at most the text length |
| Text.CountContainedBounds | src/smacs/memory_agent.py:48 | the keyword score is at most the number of keywords, and is positive exactly when some keyword occurs |
| Text.DigitChar | src/smacs/memory_agent.py:32 | a digit value renders as a digit character |
| Text.DecimalRoundTrip | src/smacs/memory_agent.py:32 | the numeral of `n` is a non-empty digit string that reads back as `n` |
| Text.DecimalInjective | src/smacs/memory_agent.py:32 | distinct numbers have distinct numerals |
| Text.JoinStartsWithFirst | src/smacs/analysis_agent.py:27 | a join of lines starts with its first line |
| Text.Prefix | src/smacs/coordinator.py:91 | `s[:n]` is a prefix of `s`: the whole of `s` when it has at most `n` characters, and exactly its first `n` characters otherwise |
| Ranking.Insert | src/smacs/memory_agent.py:51 | insertion adds exactly the new entry to the multiset of entries |
| Ranking.SortDesc | src/smacs/memory_agent.py:51 | sorting is a permutation of its input |
| Ranking.Take | src/smacs/memory_agent.py:52 | `s[:n]` has `min(n, len(s))` entries and is a prefix of `s` |
| Ranking.InsertInOrder | src/smacs/memory_agent.py:51 | inserting an entry that was listed first keeps a list in stable descending order |
| Ranking.SortDescInOrder | src/smacs/research_agent.py:25 | the sort of entries listed in increasing position is in stable descending order (larger key first, equal keys by original position) and keeps the length |
| Ranking.TakeSorted | src/smacs/memory_agent.py:51-52 | the truncated sorted list has `min(n, len)` entries, all taken from the input, in rank order |
| Ranking.TakeDropsWorst | src/smacs/memory_agent.py:51-52 | every entry truncation drops ranks below every entry it keeps |
| Ranking.PositiveHitsSound | src/smacs/memory_agent.py:49-50 | each hit points at a position with a positive score and carries that score as its key |
| Ranking.PositiveHitsIncrease | src/smacs/memory_agent.py:46-50 | the hits are listed in increasing position |
| Ranking.HitIndex | src/smacs/memory_agent.py:49-50 | every position with a positive score has a hit |
| Ranking.PositiveHitsSpec | src/smacs/memory_agent.py:46-50 | the hits are exactly the positive-score positions, in increasing position, with their scores |
| Ranking.PositiveHitsNone | src/smacs/research_agent.py:23-24 | when no score is positive there are no hits |
| Ranking.PositiveHitsSnoc | src/smacs/research_agent.py:17-24 | scoring one more entry appends its hit exactly when its score is positive |
| Ranking.HitAt | src/smacs/memory_agent.py:49-50 | a positive-score position has a hit carrying its score |
| Memory.KbIdInjective | src/smacs/memory_agent.py:32 | `kb_<a> == kb_<b>` only when `a == b` |
| Memory.IndexedAt | src/smacs/memory_agent.py:34 | entry `i` of `_ids` and of `_texts` belongs to record `i` |
| Memory.IndexedAppend | src/smacs/memory_agent.py:34 | storing a record extends `_ids` and `_texts` by its own entries |
| Memory.FindNumbered | src/smacs/coordinator.py:88 | in a store numbered from `first`, looking up an id finds record `id - first` when it is in range and nothing otherwise |
| Memory.KeywordTopSpec | src/smacs/memory_agent.py:43-52 | `min(top_k, #hits)` ranked entries in stable descending order, each a stored record's position with its positive score |
| Memory.KeywordSearchSound | src/smacs/memory_agent.py:43-52 | at most `top_k` results, each a stored record with a positive score that contains some keyword |
| Memory.KeywordSearchOrdered | src/smacs/memory_agent.py:51 | results come in non-increasing score, and equal scores come in increasing id |
| Memory.KeywordSearchLength | src/smacs/memory_agent.py:52 | exactly `min(top_k, #hits)` results |
| Memory.KeywordSearchKeepsAll | src/smacs/memory_agent.py:49-52 | with at most `top_k` hits every record with a positive score is returned |
| Memory.KeywordSearchDropsWorst | src/smacs/memory_agent.py:51-52 | a matching record left out has a lower score than every result, or the same score and a larger id |
| Memory.VectorResultsSpec | src/smacs/memory_agent.py:59-63 | `min(top_k, n)` distinct stored records with similarities in [0, 1] |
| Memory.VectorResultsOrdered | src/smacs/memory_agent.py:58-63 | when the ranking lists the most similar records first, as the reversed `argsort` does, the results come in non-increasing similarity |
| Memory.MatchingTurnsAppend | src/smacs/memory_agent.py:67 | filtering a concatenation concatenates the filtered parts, so order is kept |
| Memory.MatchingTurnsMembers | src/smacs/memory_agent.py:67 | a turn is kept exactly when it is in the log and its message contains a keyword |
| Memory.MatchingTurnsPositions | src/smacs/memory_agent.py:67 | the kept turns are the turns at strictly increasing log positions, each matching, and every matching position is kept, so order and repeats are preserved |
| Memory.MemoryAgent.constructor | src/smacs/memory_agent.py:11-18 | the store starts empty and valid |
| Memory.MemoryAgent.StoreConversation | src/smacs/memory_agent.py:26-29 | appends exactly one turn, with empty metadata when none is given, and changes nothing else |
| Memory.MemoryAgent.StoreKnowledge | src/smacs/memory_agent.py:31-36 | appends the record numbered one past the size and its `_ids`/`_texts` entries, keeping the store valid |
| Memory.MemoryAgent.StoreAgentState | src/smacs/memory_agent.py:38-41 | appends exactly one note and changes nothing else |
| Memory.MemoryAgent.KeywordSearchKb | src/smacs/memory_agent.py:43-52 | returns the keyword search of the store: at most `top_k` stored records, each containing some keyword |
| Memory.MemoryAgent.VectorSearchKb | src/smacs/memory_agent.py:54-63 | nothing on an empty store, otherwise `min(top_k, n)` stored records in the oracle's order |
| Memory.MemoryAgent.RetrieveConversation | src/smacs/memory_agent.py:65-67 | returns the order-preserving filter of the conversation log: exactly the logged turns whose lower-cased message contains a lower-cased keyword |
| Research.CorpusTopSpec | src/smacs/research_agent.py:17-26 | `min(top_n, #matches)` entries in stable descending order, each a corpus position with its positive score |
| Research.HitsRanked | src/smacs/research_agent.py:25-26 | at most `top_n` hits, each a matching corpus entry, with scores non-increasing and ties in corpus order |
| Research.HitsKeepsAll | src/smacs/research_agent.py:23-26 | with at most `top_n` matches every matching entry is a hit |
| Research.HitsDropsWorst | src/smacs/research_agent.py:25-26 | a matching entry that is not a hit scores below every hit, or equal and later in the corpus |
| Research.NoMatchNoHits | src/smacs/research_agent.py:16-32 | an empty query or a corpus with no matching entry gives no hits and stores nothing |
| Research.Persisted | src/smacs/research_agent.py:30-32 | one new record per hit |
| Research.PersistedSnoc | src/smacs/research_agent.py:30-32 | persisting one more hit appends the record numbered after the others |
| Research.PersistNumbered | src/smacs/research_agent.py:30-32 | the stored hits continue the store's 1, 2, … numbering |
| Research.PersistExtendsStore | src/smacs/research_agent.py:30-32 | the saved ids are the next consecutive numbers, each finding the record made from its hit, and older ids still find their records |
| Research.ResearchResultSpec | src/smacs/research_agent.py:27-44 | the trace lists each hit with its source and its new record's number, plus at most three distinct older records as suggestions, with agent "ResearchAgent" and confidence 0.9 |
| Research.ResearchAgent.constructor | src/smacs/research_agent.py:9-11 | keeps the shared store and the corpus |
| Research.ResearchAgent.ScoreCorpus | src/smacs/research_agent.py:15-24 | the scoring loop returns every entry with a positive score, with that score, in corpus order |
| Research.ResearchAgent.Persist | src/smacs/research_agent.py:29-32 | stores one record per hit, in hit order, numbered after the existing ones, and touches no other log |
| Research.ResearchAgent.Research | src/smacs/research_agent.py:13-45 | on failure nothing changes; otherwise returns the research trace, appends exactly the hits' records and one note, and leaves the conversation alone |
| Analysis.SumCountsSnoc | src/smacs/analysis_agent.py:18 | counting one more keyword adds its occurrence count |
| Analysis.DensityTerms | src/smacs/analysis_agent.py:17-18 | the score is the sum of the eight keywords' occurrence counts |
| Analysis.DensityExample | src/smacs/analysis_agent.py:18 | three "efficiency" and one "trade-off" score at least 4 |
| Analysis.RankOrderSpec | src/smacs/analysis_agent.py:21 | one sorted entry per candidate, each carrying that candidate's (score, length), in stable descending order |
| Analysis.RankOrderCovers | src/smacs/analysis_agent.py:21 | every candidate appears in the sorted order |
| Analysis.RankItemsFromCandidates | src/smacs/analysis_agent.py:15-21 | `ranked` has one entry per candidate, each the measurement of the candidate at its sorted position |
| Analysis.RankItemsCoverAll | src/smacs/analysis_agent.py:21 | every candidate's measurement is in `ranked` |
| Analysis.RankItemsSorted | src/smacs/analysis_agent.py:21 | `ranked` is non-increasing in (score, length), and equal pairs keep candidate order |
| Analysis.RankLineIsNotNoItems | src/smacs/analysis_agent.py:24-26 | a ranked line is never the "No items to analyze." line |
| Analysis.NoItemsIffEmpty | src/smacs/analysis_agent.py:22-26 | the summary holds "No items to analyze." exactly when nothing was ranked |
| Analysis.SummaryStartsWithHeader | src/smacs/analysis_agent.py:22-27 | the summary starts with the header naming the task and the directive |
| Analysis.SummaryResolves | src/smacs/analysis_agent.py:28-35 | the summary record is found again under its id |
| Analysis.MeasureItems | src/smacs/analysis_agent.py:15-20 | the measuring loop measures every candidate, in candidate order |
| Analysis.RenderSummary | src/smacs/analysis_agent.py:22-26 | the rendering loop produces the header, a numbered line per ranked entry, and the closing line only when there is none |
| Analysis.AnalysisAgent.constructor | src/smacs/analysis_agent.py:9-10 | keeps the shared store |
| Analysis.AnalysisAgent.Analyze | src/smacs/analysis_agent.py:12-40 | on failure nothing changes; otherwise stores the summary record and one note and returns the trace of the ranked candidates, whose summary id names the new record |
| Coordination.ComplexityCases | src/smacs/coordinator.py:29-39 | complex exactly when a trigger phrase occurs; otherwise moderate exactly when there are more than eight words, else simple |
| Coordination.ComplexityExtend | src/smacs/coordinator.py:29-39 | adding a word never makes a query simpler |
| Coordination.CompareQueryIsComplex | run_scenarios.py:31 | the comparison scenario is classified complex |
| Coordination.MinReal | src/smacs/coordinator.py:135 | the minimum is one of the two values and at most both |
| Coordination.ResolveEach | src/smacs/coordinator.py:87-89 | when every id finds its record, resolving yields those records in id order |
| Coordination.SimpleAnswerCases | src/smacs/coordinator.py:91 | the answer is "No results found." exactly when no record resolved, and otherwise starts with the first excerpt |
| Coordination.ResolveSaved | src/smacs/coordinator.py:84-89 | the saved ids of research resolve to exactly the records it stored, in order |
| Coordination.SavedCandidatesAppend | src/smacs/coordinator.py:109 | the filter distributes over concatenation |
| Coordination.SavedCandidatesMembers | src/smacs/coordinator.py:109 | a record is kept exactly when it is stored and its id was saved |
| Coordination.SavedCandidatesNone | src/smacs/coordinator.py:109 | records with unsaved ids are dropped |
| Coordination.SavedCandidatesAll | src/smacs/coordinator.py:109 | records with saved ids are all kept, in order |
| Coordination.SavedAreNew | src/smacs/coordinator.py:108-109 | selecting the saved ids after research gives exactly the records it stored |
| Coordination.WithSuggestionsMembers | src/smacs/coordinator.py:111-115 | adding suggestions keeps the saved records as a prefix and adds exactly the suggested records |
| Coordination.WithSuggestionsDistinct | src/smacs/coordinator.py:114 | adding suggestions never introduces a duplicate |
| Coordination.CandidatesSpec | src/smacs/coordinator.py:108-115 | the candidates start with the stored hits, hold no duplicates and only stored records, and are empty exactly when there was no hit and the store had been empty |
| Coordination.FallbackFindsNothing | src/smacs/coordinator.py:117-119 | when the candidates are empty the store is empty and the keyword fallback returns nothing |
| Coordination.SynthesisLayout | src/smacs/coordinator.py:126-134 | the synthesis is "Synthesis for: <query>", "Key findings:" and the summary, one per line |
| Coordination.ComplexAfterResearch | src/smacs/coordinator.py:117-135 | after research the analysed candidates are the collected ones (the fallback changes nothing), and the answer's confidence is 0.85 |
| Coordination.ComplexAnswer | src/smacs/coordinator.py:126-135 | the complex answer opens with the query and "Key findings:" and carries confidence 0.85 |
| Coordination.Coordinator.constructor | src/smacs/coordinator.py:15-19 | shares the given agents and starts an empty trace log |
| Coordination.Coordinator.LogTrace | src/smacs/coordinator.py:23-27 | appends exactly the event |
| Coordination.Coordinator.RunResearch | src/smacs/coordinator.py:105-106 | on failure nothing changes; otherwise the research trace is returned and logged, and the store grows by the hits' records |
| Coordination.Coordinator.CollectCandidates | src/smacs/coordinator.py:108-115 | the suggestion loop yields the saved records followed by the newly suggested ones |
| Coordination.Coordinator.CandidateSet | src/smacs/coordinator.py:108-119 | the candidates, or keyword search with limit 4 when there are none |
| Coordination.Coordinator.HandleError | src/smacs/coordinator.py:155-167 | logs the error, sets the apology with confidence 0.2 and the error, and records one assistant turn tagged with the task |
| Coordination.Coordinator.HandleSimple | src/smacs/coordinator.py:82-101 | on failure nothing changes; otherwise answers with the excerpts of the records research stored, confidence 0.9, one research step and one assistant turn |
| Coordination.Coordinator.Synthesize | src/smacs/coordinator.py:126-152 | the answer is built from the summary record (or the fixed line when it is missing), with the smaller confidence, recorded as one turn and stored as the next record |
| Coordination.Coordinator.AnalyzeAndSynthesize | src/smacs/coordinator.py:108-152 | on failure nothing changes; otherwise analysis of the candidate set is logged, both steps are appended, and the summary and synthesis records and one assistant turn are added |
| Coordination.Coordinator.HandleComplex | src/smacs/coordinator.py:103-153 | the whole complex flow for each stage outcome: research trace, candidate set, analysis trace, synthesis, steps, trace log, notes and turn; on success the store gains the hits' records, then the `Analysis:<task>` record, then exactly one `Synthesis:<task>` record carrying the answer and its confidence |
| Coordination.Coordinator.Respond | src/smacs/coordinator.py:68-78 | the flow the complexity selects answers, or the error handler does: the response, the trace log, the records and notes each flow leaves, and exactly one assistant turn carrying the final answer |
| Coordination.Coordinator.RespondSimple | src/smacs/coordinator.py:68-78 | the simple flow's excerpts with one research step, its logged trace, records and note, or the apology with no steps, a logged error and an unchanged store when research fails |
| Coordination.Coordinator.RespondComplex | src/smacs/coordinator.py:68-78 | the complex flow's synthesis with both steps and confidence 0.85, both traces logged, and the hits', summary and synthesis records and both notes stored; when a stage fails, the apology with no steps, the error logged after whatever stage completed, and only that stage's records and note kept |
| Coordination.Coordinator.Handle | src/smacs/coordinator.py:46-78 | records the user turn and logs the classification, then answers exactly as the selected flow does: the apology, no steps and a logged error when a stage fails; the excerpts of the stored hits with one research step and confidence 0.9 in the simple flow; the synthesis with a research and an analysis step and confidence 0.85 otherwise; the final trace log, records and notes are stated for each case, and the conversation grows by exactly the user turn and one assistant turn |

## Left out

- Timestamps (`now_ts`, the `timestamp`, `start` and `end` fields) are not modelled, because they read the clock.
- Task-id generation (`_generate_task_id`) is not modelled, because it reads the clock; the task id is a parameter.
- The printing and JSON encoding in `log_trace` are output only and are not modelled.
- TF-IDF fitting (`_rebuild_vectors`, `_matrix`), `cosine_similarity` and `argsort` are not computed. Vector search takes their result as an oracle: a permutation of the store's indices with a similarity in [0, 1] each. The pipeline's contracts accept any such permutation. Most-similar-first is a separate condition on the oracle (`VectorRanking.MostSimilarFirst`), under which `VectorResultsOrdered` gives non-increasing similarity. How equal similarities are ordered is not modelled, because it depends on the numeric library.
- Exceptions are modelled as a failure injected on entry to the research or analysis stage. Exceptions raised part-way through a stage, after some records are stored, are not modelled.
- Confidences and similarities are real numbers, not floating point.
- Lower-casing and `split()` cover ASCII only. Unicode case mapping and Unicode whitespace are not modelled.
- `main.py` and `run_scenarios.py` are command-line wrappers that read files and print. They are not modelled, apart from the comparison query of `run_scenarios.py` used in `CompareQueryIsComplex`.
- Metadata maps hold only the task-id and confidence values the pipeline stores.
