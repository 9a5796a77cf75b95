/**
 * The pipeline (`Coordinator`): classify the query, run the simple flow
 * (research only) or the complex flow (research, candidate collection,
 * analysis, synthesis), and turn a failing stage into a fixed apology.
 * Every path records the user's turn first and one assistant turn last.
 */
module Coordination {
  import opened Wrappers
  import opened Text
  import opened Memory
  import opened Research
  import opened Analysis

  // ---------------------------------------------------------------- classification

  datatype Complexity = Simple | Moderate | Complex

  /** Phrases that make a query complex wherever they occur in it. */
  const Triggers: seq<string> :=
    ["compare", "analyze", "trade-off", "efficiency", "recommend", "which is better", "summarize", "papers", "methodologies"]

  /** `complexity_estimate`: a trigger phrase first, then more than eight words. */
  function ComplexityEstimate(query: string): Complexity {
    var q := Lower(query);
    if ContainsSome(q, Triggers) then Complex
    else if |Split(q)| > 8 then Moderate
    else Simple
  }

  /** Trigger phrase `k` occurs at position `i` of the lower-cased query `q`. */
  predicate TriggerAt(q: string, k: int, i: int) {
    0 <= k < |Triggers| && OccursAt(q, Triggers[k], i)
  }

  /**
   * A query is complex exactly when some trigger phrase occurs somewhere in
   * it, whatever its length; otherwise it is moderate exactly when it has
   * more than eight words, and simple otherwise.
   */
  lemma ComplexityCases(query: string)
    ensures var q := Lower(query);
      && (ComplexityEstimate(query) == Complex <==> exists k, i :: TriggerAt(q, k, i))
      && (ComplexityEstimate(query) == Moderate <==> (forall k, i :: !TriggerAt(q, k, i)) && |Split(q)| > 8)
      && (ComplexityEstimate(query) == Simple <==> (forall k, i :: !TriggerAt(q, k, i)) && |Split(q)| <= 8)
  {
    var q := Lower(query);
    if ContainsSome(q, Triggers) {
      var k :| 0 <= k < |Triggers| && Contains(q, Triggers[k]);
      ContainsIff(q, Triggers[k]);
      var i :| OccursAt(q, Triggers[k], i);
      assert TriggerAt(q, k, i);
    }
    if exists k, i :: TriggerAt(q, k, i) {
      var k, i :| TriggerAt(q, k, i);
      ContainsAt(q, Triggers[k], i);
    }
  }

  /**
   * Adding a word never makes a query simpler: a complex query stays
   * complex, and a query routed to the complex flow stays there.
   */
  lemma ComplexityExtend(query: string, sp: char, more: string)
    requires IsSpace(sp)
    ensures ComplexityEstimate(query) == Complex ==> ComplexityEstimate(query + [sp] + more) == Complex
    ensures ComplexityEstimate(query) != Simple ==> ComplexityEstimate(query + [sp] + more) != Simple
  {
    var q := Lower(query);
    LowerAppend(query + [sp], more);
    LowerAppend(query, [sp]);
    assert Lower([sp]) == [sp];
    var q2 := Lower(query + [sp] + more);
    assert q2 == q + [sp] + Lower(more);
    SplitAtSeparator(q, sp, Lower(more));
    if ContainsSome(q, Triggers) {
      var k :| 0 <= k < |Triggers| && Contains(q, Triggers[k]);
      ContainsExtend(q, [sp] + Lower(more), Triggers[k]);
      assert q + ([sp] + Lower(more)) == q2;
    }
  }

  /** The comparison request of run_scenarios.py: its opening word, then the rest. */
  const CompareQuery: string := "Compare" + CompareRest

  const CompareRest: string :=
    " two machine-learning approaches" + " and recommend which is better for our use case."

  /** The comparison request is complex: it starts with "compare". */
  lemma CompareQueryIsComplex()
    ensures ComplexityEstimate(CompareQuery) == Complex
  {
    var w := "Compare";
    LowerAppend(w, CompareRest);
    var lw := Lower(w);
    assert lw[0] == LowerChar('C');
    assert lw == "compare";
    var q := Lower(CompareQuery);
    assert q == lw + Lower(CompareRest);
    assert q[..7] == lw;
    ContainsAt(q, Triggers[0], 0);
  }

  // ---------------------------------------------------------------- pipeline values

  datatype Step = ResearchStep(research: ResearchTrace) | AnalysisStep(analysis: AnalysisTrace)

  datatype Final = Final(answer: string, confidence: real, error: Option<string>)

  /** `response`; `final` is absent until a flow or the error handler fills it in. */
  datatype Response = Response(taskId: string, query: string, steps: seq<Step>, final: Option<Final>)

  /** An entry of `trace_log` (its timestamp is not modelled). */
  datatype TraceEvent =
    | ReceivedQuery(taskId: string, query: string, complexity: Complexity)
    | ResearchDone(taskId: string, researchTrace: ResearchTrace)
    | AnalysisDone(taskId: string, analysisTrace: AnalysisTrace)
    | ErrorEvent(taskId: string, message: string)

  /** Which stage, if any, raises an error during one query, and its description. */
  datatype Fault = NoFault | ResearchFault(reason: string) | AnalysisFault(reason: string)

  /** The query ends on the error path: research fails, or analysis fails in the complex flow. */
  predicate Fails(fault: Fault, c: Complexity) {
    fault.ResearchFault? || (fault.AnalysisFault? && c != Simple)
  }

  const Apology: string := "Sorry, I encountered an error while processing your request."

  const NoResultsAnswer: string := "No results found."

  const NoSummaryLine: string := "No analysis summary found."

  const SimpleTopN: nat := 3

  const ComplexTopN: nat := 6

  const FallbackLimit: nat := 4

  function ErrorMessage(error: string): string {
    "Error while processing: " + error
  }

  function ErrorFinal(error: string): Final {
    Final(Apology, 0.2, Some(error))
  }

  /** Python's `min` on two confidences. */
  function MinReal(a: real, b: real): (r: real)
    ensures r <= a && r <= b && (r == a || r == b)
  {
    if b < a then b else a
  }

  function TaskTag(taskId: string): Metadata {
    map["task_id" := Str(taskId)]
  }

  function AnswerTag(taskId: string, confidence: real): Metadata {
    map["task_id" := Str(taskId), "confidence" := Num(confidence)]
  }

  /**
   * The assistant turn recorded for the answer `f`: tagged with the task id
   * and the confidence, or only the task id for the error handler's apology.
   */
  function AssistantTurn(taskId: string, f: Final): ConversationTurn {
    ConversationTurn("assistant", f.answer, if f.error.Some? then TaskTag(taskId) else AnswerTag(taskId, f.confidence))
  }

  // ---------------------------------------------------------------- simple flow

  /** The record each id finds, in id order, skipping ids that find nothing. */
  function ResolveAll(kb: seq<KnowledgeRecord>, ids: seq<nat>): seq<KnowledgeRecord> {
    if ids == [] then []
    else
      (match FindRecord(kb, ids[0])
       case Some(k) => [k]
       case None => [])
      + ResolveAll(kb, ids[1..])
  }

  /** When every id finds its record, resolving gives those records in id order. */
  lemma {:induction false} ResolveEach(kb: seq<KnowledgeRecord>, ids: seq<nat>, recs: seq<KnowledgeRecord>)
    requires |ids| == |recs|
    requires forall i :: 0 <= i < |ids| ==> FindRecord(kb, ids[i]) == Some(recs[i])
    ensures ResolveAll(kb, ids) == recs
    decreases |ids|
  {
    if ids != [] {
      ResolveEach(kb, ids[1..], recs[1..]);
      assert recs == [recs[0]] + recs[1..];
    }
  }

  /** One answer line: the title and at most 240 characters of the text. */
  function Excerpt(k: KnowledgeRecord): string {
    "- " + k.title + ": " + Prefix(k.text, 240) + "..."
  }

  function Excerpts(items: seq<KnowledgeRecord>): (r: seq<string>)
    ensures |r| == |items|
  {
    seq(|items|, i requires 0 <= i < |items| => Excerpt(items[i]))
  }

  /** The excerpt lines, one per line, or the no-results line when there are none. */
  function SimpleAnswer(items: seq<KnowledgeRecord>): string {
    var synth := Join(Excerpts(items), "\n");
    if synth == [] then NoResultsAnswer else synth
  }

  /**
   * The simple answer is "No results found." exactly when no record was
   * resolved; otherwise it starts with the first record's excerpt line.
   */
  lemma SimpleAnswerCases(items: seq<KnowledgeRecord>)
    ensures SimpleAnswer(items) == NoResultsAnswer <==> items == []
    ensures items != [] ==> StartsWith(SimpleAnswer(items), Excerpt(items[0]))
  {
    if items != [] {
      var lines := Excerpts(items);
      JoinStartsWithFirst(lines, "\n");
      var synth := Join(lines, "\n");
      assert lines[0][0] == '-';
      assert synth[0] == '-';
      assert NoResultsAnswer[0] == 'N';
    }
  }

  /** The saved ids of a research call resolve to exactly the records it stored, in order. */
  lemma ResolveSaved(kb0: seq<KnowledgeRecord>, hits: seq<CorpusEntry>)
    requires NumberedFrom(kb0, 1)
    ensures var added := Persisted(hits, |kb0| + 1);
      ResolveAll(kb0 + added, IdsOf(added)) == added
  {
    var added := Persisted(hits, |kb0| + 1);
    PersistExtendsStore(kb0, hits);
    ResolveEach(kb0 + added, IdsOf(added), added);
  }

  // ---------------------------------------------------------------- complex flow

  predicate NoDuplicates<T(==)>(s: seq<T>) {
    forall i, j :: 0 <= i < j < |s| ==> s[i] != s[j]
  }

  /** The stored records whose ids research saved, in store order. */
  function SavedCandidates(kb: seq<KnowledgeRecord>, saved: seq<nat>): seq<KnowledgeRecord> {
    if kb == [] then []
    else (if kb[0].id in saved then [kb[0]] else []) + SavedCandidates(kb[1..], saved)
  }

  lemma {:induction false} SavedCandidatesAppend(a: seq<KnowledgeRecord>, b: seq<KnowledgeRecord>, saved: seq<nat>)
    ensures SavedCandidates(a + b, saved) == SavedCandidates(a, saved) + SavedCandidates(b, saved)
  {
    if a == [] {
      assert a + b == b;
    } else {
      var head := if a[0].id in saved then [a[0]] else [];
      assert (a + b)[0] == a[0];
      assert (a + b)[1..] == a[1..] + b;
      SavedCandidatesAppend(a[1..], b, saved);
      assert SavedCandidates(a + b, saved) == head + (SavedCandidates(a[1..], saved) + SavedCandidates(b, saved));
      assert SavedCandidates(a, saved) == head + SavedCandidates(a[1..], saved);
    }
  }

  /** The saved candidates are exactly the stored records whose id was saved. */
  lemma {:induction false} SavedCandidatesMembers(kb: seq<KnowledgeRecord>, saved: seq<nat>)
    ensures forall x :: x in SavedCandidates(kb, saved) <==> x in kb && x.id in saved
  {
    if kb != [] {
      SavedCandidatesMembers(kb[1..], saved);
      assert kb == [kb[0]] + kb[1..];
    }
  }

  lemma {:induction false} SavedCandidatesNone(kb: seq<KnowledgeRecord>, saved: seq<nat>)
    requires forall i :: 0 <= i < |kb| ==> kb[i].id !in saved
    ensures SavedCandidates(kb, saved) == []
  {
    if kb != [] {
      SavedCandidatesNone(kb[1..], saved);
    }
  }

  lemma {:induction false} SavedCandidatesAll(kb: seq<KnowledgeRecord>, saved: seq<nat>)
    requires forall i :: 0 <= i < |kb| ==> kb[i].id in saved
    ensures SavedCandidates(kb, saved) == kb
  {
    if kb != [] {
      SavedCandidatesAll(kb[1..], saved);
      assert kb == [kb[0]] + kb[1..];
    }
  }

  /** Selecting the saved ids after a research call gives exactly the records it stored. */
  lemma SavedAreNew(kb0: seq<KnowledgeRecord>, hits: seq<CorpusEntry>)
    requires NumberedFrom(kb0, 1)
    ensures var added := Persisted(hits, |kb0| + 1);
      SavedCandidates(kb0 + added, IdsOf(added)) == added
  {
    var added := Persisted(hits, |kb0| + 1);
    var saved := IdsOf(added);
    PersistExtendsStore(kb0, hits);
    forall i | 0 <= i < |kb0| ensures kb0[i].id !in saved {
    }
    forall i | 0 <= i < |added| ensures added[i].id in saved {
      assert saved[i] == added[i].id;
    }
    SavedCandidatesAppend(kb0, added, saved);
    SavedCandidatesNone(kb0, saved);
    SavedCandidatesAll(added, saved);
  }

  /** Some memory suggestion resolves to `x` in `kb`. */
  predicate Suggested(kb: seq<KnowledgeRecord>, sugg: seq<MemorySuggestion>, x: KnowledgeRecord) {
    exists k :: 0 <= k < |sugg| && FindRecord(kb, sugg[k].id) == Some(x)
  }

  /** The loop adding memory suggestions: each resolved record not yet present is appended. */
  function WithSuggestions(items: seq<KnowledgeRecord>, kb: seq<KnowledgeRecord>, sugg: seq<MemorySuggestion>)
    : seq<KnowledgeRecord>
  {
    if sugg == [] then items
    else
      var prev := WithSuggestions(items, kb, sugg[..|sugg| - 1]);
      match FindRecord(kb, sugg[|sugg| - 1].id)
      case Some(k) => if k in prev then prev else prev + [k]
      case None => prev
  }

  /**
   * Adding suggestions keeps the starting items as a prefix, and the result
   * holds exactly the starting items and the records the suggestions resolve to.
   */
  lemma {:induction false} WithSuggestionsMembers(items: seq<KnowledgeRecord>, kb: seq<KnowledgeRecord>,
                                                  sugg: seq<MemorySuggestion>)
    ensures var r := WithSuggestions(items, kb, sugg);
      && |items| <= |r| && r[..|items|] == items
      && forall x :: x in r <==> x in items || Suggested(kb, sugg, x)
  {
    if sugg != [] {
      var init := sugg[..|sugg| - 1];
      WithSuggestionsMembers(items, kb, init);
      var prev := WithSuggestions(items, kb, init);
      var r := WithSuggestions(items, kb, sugg);
      assert r == prev || r[..|prev|] == prev;
      forall x ensures Suggested(kb, sugg, x) <==> Suggested(kb, init, x) || FindRecord(kb, sugg[|sugg| - 1].id) == Some(x) {
        if Suggested(kb, init, x) {
          var k :| 0 <= k < |init| && FindRecord(kb, init[k].id) == Some(x);
          assert sugg[k] == init[k];
        }
        if Suggested(kb, sugg, x) && FindRecord(kb, sugg[|sugg| - 1].id) != Some(x) {
          var k :| 0 <= k < |sugg| && FindRecord(kb, sugg[k].id) == Some(x);
          assert k < |init| && init[k] == sugg[k];
        }
      }
    }
  }

  /** Adding suggestions never introduces a duplicate. */
  lemma {:induction false} WithSuggestionsDistinct(items: seq<KnowledgeRecord>, kb: seq<KnowledgeRecord>,
                                                   sugg: seq<MemorySuggestion>)
    requires NoDuplicates(items)
    ensures NoDuplicates(WithSuggestions(items, kb, sugg))
  {
    if sugg != [] {
      WithSuggestionsDistinct(items, kb, sugg[..|sugg| - 1]);
    }
  }

  /** `kb_items` before the fallback: the saved records in store order, then the new suggested ones. */
  function Candidates(kb: seq<KnowledgeRecord>, t: ResearchTrace): seq<KnowledgeRecord> {
    WithSuggestions(SavedCandidates(kb, t.saved), kb, t.memorySuggestions)
  }

  /**
   * After a research call on a store numbered 1..n, the candidates start with
   * the records it stored, hold no duplicates, hold only stored records, and
   * are empty exactly when there was no hit and the store had been empty.
   */
  lemma CandidatesSpec(kb0: seq<KnowledgeRecord>, corpus: seq<CorpusEntry>, query: string, taskId: string,
                       ranking: VectorRanking, topN: nat)
    requires NumberedFrom(kb0, 1) && ranking.Fits(|kb0|)
    ensures var hits := Hits(corpus, query, topN);
      var added := Persisted(hits, |kb0| + 1);
      var c := Candidates(kb0 + added, ResearchResult(corpus, kb0, query, taskId, ranking, topN));
      && |added| <= |c| && c[..|added|] == added
      && NoDuplicates(c)
      && (forall x :: x in c ==> x in kb0 + added)
      && (c == [] <==> hits == [] && kb0 == [])
  {
    var hits := Hits(corpus, query, topN);
    var added := Persisted(hits, |kb0| + 1);
    var kb := kb0 + added;
    var t := ResearchResult(corpus, kb0, query, taskId, ranking, topN);
    var c := Candidates(kb, t);
    SavedAreNew(kb0, hits);
    PersistExtendsStore(kb0, hits);
    ResearchResultSpec(corpus, kb0, query, taskId, ranking, topN);
    WithSuggestionsMembers(added, kb, t.memorySuggestions);
    assert NoDuplicates(added) by {
      forall i, j | 0 <= i < j < |added| ensures added[i] != added[j] {
        assert added[i].id != added[j].id;
      }
    }
    WithSuggestionsDistinct(added, kb, t.memorySuggestions);
    forall x | x in c ensures x in kb {
      if !(x in added) {
        var k :| 0 <= k < |t.memorySuggestions| && FindRecord(kb, t.memorySuggestions[k].id) == Some(x);
        FindNumbered(kb, 1, t.memorySuggestions[k].id);
      }
    }
    if kb0 != [] {
      var id := t.memorySuggestions[0].id;
      FindNumbered(kb, 1, id);
      assert Suggested(kb, t.memorySuggestions, kb[id - 1]);
      assert kb[id - 1] in c;
    } else if hits != [] {
      assert added[0] in c;
    }
  }

  /**
   * The keyword fallback of the complex flow only runs on an empty store, so
   * it never finds anything.
   */
  lemma FallbackFindsNothing(kb0: seq<KnowledgeRecord>, corpus: seq<CorpusEntry>, query: string, taskId: string,
                             ranking: VectorRanking, topN: nat, keywords: seq<string>, limit: nat)
    requires NumberedFrom(kb0, 1) && ranking.Fits(|kb0|)
    ensures var added := Persisted(Hits(corpus, query, topN), |kb0| + 1);
      Candidates(kb0 + added, ResearchResult(corpus, kb0, query, taskId, ranking, topN)) == [] ==>
        kb0 + added == [] && KeywordSearch(kb0 + added, keywords, limit) == []
  {
    CandidatesSpec(kb0, corpus, query, taskId, ranking, topN);
    KeywordSearchSound(kb0 + Persisted(Hits(corpus, query, topN), |kb0| + 1), keywords, limit);
  }

  /** `kb_items` as analysed: the candidates, or keyword search over the store when there are none. */
  function CandidateSetOf(kb: seq<KnowledgeRecord>, t: ResearchTrace, query: string): seq<KnowledgeRecord> {
    var c := Candidates(kb, t);
    if c == [] then KeywordSearch(kb, Split(query), FallbackLimit) else c
  }

  /** The complex-flow answer: a fixed header, then the analysis summary. */
  function SynthesisText(query: string, summary: string): string {
    Join(["Synthesis for: " + query, "Key findings:", summary], "\n")
  }

  /** The record `_handle_complex` stores for its answer `final`, numbered `n`. */
  function SynthesisRecord(n: nat, taskId: string, final: Final): (rec: KnowledgeRecord)
    ensures rec.id == n && rec.text == final.answer && rec.confidence == final.confidence
    ensures rec.title == "Synthesis:" + taskId && rec.source == "Coordinator" && rec.agent == "Coordinator"
  {
    KnowledgeRecord(n, "Synthesis:" + taskId, final.answer, "Coordinator", "Coordinator", final.confidence)
  }

  /** The synthesis names the query, then "Key findings:", then the summary, one per line. */
  lemma SynthesisLayout(query: string, summary: string)
    ensures SynthesisText(query, summary) == "Synthesis for: " + query + "\n" + "Key findings:" + "\n" + summary
    ensures StartsWith(SynthesisText(query, summary), "Synthesis for: " + query + "\nKey findings:")
  {
    var lines := ["Synthesis for: " + query, "Key findings:", summary];
    assert lines[1..] == ["Key findings:", summary];
    assert lines[1..][1..] == [summary];
    var s := SynthesisText(query, summary);
    assert Join(lines[1..], "\n") == "Key findings:" + "\n" + summary;
    assert s == lines[0] + "\n" + ("Key findings:" + "\n" + summary);
    var h := "Synthesis for: " + query + "\nKey findings:";
    assert s == h + "\n" + summary;
    assert s[..|h|] == h;
  }

  // ---------------------------------------------------------------- the coordinator

  /**
   * What the complex flow's analysis sees after research over a well-numbered
   * store: the candidates themselves (the keyword fallback never changes
   * them), and its answer carries min(0.9, 0.85), the analysis confidence.
   */
  lemma ComplexAfterResearch(corpus: seq<CorpusEntry>, kb0: seq<KnowledgeRecord>, query: string, taskId: string,
                             ranking: VectorRanking)
    requires NumberedFrom(kb0, 1) && ranking.Fits(|kb0|)
    ensures var kb1 := kb0 + Persisted(Hits(corpus, query, ComplexTopN), |kb0| + 1);
      var t := ResearchResult(corpus, kb0, query, taskId, ranking, ComplexTopN);
      && CandidateSetOf(kb1, t, query) == Candidates(kb1, t)
      && MinReal(t.confidence, AnalysisConfidence) == AnalysisConfidence
  {
    FallbackFindsNothing(kb0, corpus, query, taskId, ranking, ComplexTopN, Split(query), FallbackLimit);
  }

  /**
   * The complex flow's answer after a research stage over `kb0`: it opens
   * with the query and the findings heading and carries the analysis
   * confidence, whatever the analysis ranked.
   */
  lemma ComplexAnswer(corpus: seq<CorpusEntry>, kb0: seq<KnowledgeRecord>, query: string, taskId: string,
                      ranking: VectorRanking, ranked: seq<RankedItem>)
    requires ranking.Fits(|kb0|)
    ensures var t := ResearchResult(corpus, kb0, query, taskId, ranking, ComplexTopN);
      var answer := SynthesisText(query, Summary(taskId, query, ranked));
      && MinReal(t.confidence, AnalysisConfidence) == AnalysisConfidence
      && StartsWith(answer, "Synthesis for: " + query + "\nKey findings:")
  {
    SynthesisLayout(query, Summary(taskId, query, ranked));
  }

  /**
   * What `handle` answers for `query` of the given complexity over the store
   * `kb0`, and the trace log it leaves after `log0`: the simple or the
   * complex flow's answer.
   */
  ghost predicate Answered(corpus: seq<CorpusEntry>, kb0: seq<KnowledgeRecord>, log0: seq<TraceEvent>, query: string,
                           taskId: string, complexity: Complexity, ranking: VectorRanking, fault: Fault, resp: Response,
                           log: seq<TraceEvent>)
  {
    if complexity == Simple then AnsweredSimple(corpus, kb0, log0, query, taskId, ranking, fault, resp, log)
    else AnsweredComplex(corpus, kb0, log0, query, taskId, ranking, fault, resp, log)
  }

  /**
   * The simple flow's answer: the apology with no steps and a logged error
   * when research fails; otherwise the excerpts of the records research
   * stored, with confidence 0.9, its one step and its logged trace.
   */
  ghost predicate AnsweredSimple(corpus: seq<CorpusEntry>, kb0: seq<KnowledgeRecord>, log0: seq<TraceEvent>,
                                 query: string, taskId: string, ranking: VectorRanking, fault: Fault, resp: Response,
                                 log: seq<TraceEvent>)
  {
    && ranking.Fits(|kb0|)
    && var t := ResearchResult(corpus, kb0, query, taskId, ranking, SimpleTopN);
       && (fault.ResearchFault? ==>
             && resp.steps == [] && resp.final == Some(ErrorFinal(fault.reason))
             && log == log0 + [ErrorEvent(taskId, ErrorMessage(fault.reason))])
       && (!fault.ResearchFault? ==>
             && resp.steps == [ResearchStep(t)]
             && resp.final == Some(Final(SimpleAnswer(Persisted(Hits(corpus, query, SimpleTopN), |kb0| + 1)),
                                         ResearchConfidence, None))
             && log == log0 + [ResearchDone(taskId, t)])
  }

  /**
   * The complex flow's answer: the apology with no steps and a logged error
   * when a stage fails, after the research trace when it is analysis that
   * fails; otherwise the research and analysis steps, both logged, and the
   * synthesis of the summary with confidence 0.85.
   */
  ghost predicate AnsweredComplex(corpus: seq<CorpusEntry>, kb0: seq<KnowledgeRecord>, log0: seq<TraceEvent>,
                                  query: string, taskId: string, ranking: VectorRanking, fault: Fault, resp: Response,
                                  log: seq<TraceEvent>)
  {
    && ranking.Fits(|kb0|)
    && var t := ResearchResult(corpus, kb0, query, taskId, ranking, ComplexTopN);
       var kb1 := kb0 + Persisted(Hits(corpus, query, ComplexTopN), |kb0| + 1);
       var a := AnalysisResult(CandidateSetOf(kb1, t, query), query, taskId, |kb1|);
       && (fault.ResearchFault? ==>
             && resp.steps == [] && resp.final == Some(ErrorFinal(fault.reason))
             && log == log0 + [ErrorEvent(taskId, ErrorMessage(fault.reason))])
       && (fault.AnalysisFault? ==>
             && resp.steps == [] && resp.final == Some(ErrorFinal(fault.reason))
             && log == log0 + [ResearchDone(taskId, t)] + [ErrorEvent(taskId, ErrorMessage(fault.reason))])
       && (fault.NoFault? ==>
             && resp.steps == [ResearchStep(t), AnalysisStep(a)]
             && resp.final == Some(Final(SynthesisText(query, Summary(taskId, query, a.ranked)), AnalysisConfidence, None))
             && StartsWith(resp.final.value.answer, "Synthesis for: " + query + "\nKey findings:")
             && log == log0 + [ResearchDone(taskId, t), AnalysisDone(taskId, a)])
  }


  /**
   * What `handle` leaves in the store that was `kb0` with notes `notes0`,
   * for a query of the given complexity: the simple or the complex flow's
   * effects.
   */
  ghost predicate Stored(corpus: seq<CorpusEntry>, kb0: seq<KnowledgeRecord>, notes0: seq<AgentNote>,
                         query: string, taskId: string, complexity: Complexity, ranking: VectorRanking,
                         fault: Fault, kb: seq<KnowledgeRecord>, notes: seq<AgentNote>)
  {
    if complexity == Simple then StoredSimple(corpus, kb0, notes0, query, taskId, ranking, fault, kb, notes)
    else StoredComplex(corpus, kb0, notes0, query, taskId, ranking, fault, kb, notes)
  }

  /**
   * The simple flow's effects: nothing new when research fails, otherwise
   * the records of the top three hits and the research note.
   */
  ghost predicate StoredSimple(corpus: seq<CorpusEntry>, kb0: seq<KnowledgeRecord>, notes0: seq<AgentNote>,
                               query: string, taskId: string, ranking: VectorRanking,
                               fault: Fault, kb: seq<KnowledgeRecord>, notes: seq<AgentNote>)
  {
    && ranking.Fits(|kb0|)
    && (fault.ResearchFault? ==> kb == kb0 && notes == notes0)
    && (!fault.ResearchFault? ==>
          && kb == kb0 + Persisted(Hits(corpus, query, SimpleTopN), |kb0| + 1)
          && notes == notes0 + [ResearchAgentNote(ResearchResult(corpus, kb0, query, taskId, ranking, SimpleTopN))])
  }

  /**
   * The complex flow's effects: nothing new when research fails; the records
   * of the top six hits and the research note when analysis fails; and
   * otherwise those followed by the summary record and the synthesis record,
   * and the research and analysis notes.
   */
  ghost predicate StoredComplex(corpus: seq<CorpusEntry>, kb0: seq<KnowledgeRecord>, notes0: seq<AgentNote>,
                                query: string, taskId: string, ranking: VectorRanking,
                                fault: Fault, kb: seq<KnowledgeRecord>, notes: seq<AgentNote>)
  {
    && ranking.Fits(|kb0|)
    && var t := ResearchResult(corpus, kb0, query, taskId, ranking, ComplexTopN);
       var kb1 := kb0 + Persisted(Hits(corpus, query, ComplexTopN), |kb0| + 1);
       && (fault.ResearchFault? ==> kb == kb0 && notes == notes0)
       && (fault.AnalysisFault? ==> kb == kb1 && notes == notes0 + [ResearchAgentNote(t)])
       && (fault.NoFault? ==>
             var items := CandidateSetOf(kb1, t, query);
             var summary := Summary(taskId, query, RankItems(items));
             var final := Final(SynthesisText(query, summary), AnalysisConfidence, None);
             && kb == kb1 + [SummaryRecord(|kb1|, taskId, summary), SynthesisRecord(|kb1| + 2, taskId, final)]
             && notes == notes0 + [ResearchAgentNote(t), AgentNote(taskId, "AnalysisAgent", AnalysisNote(|items|), "done")])
  }

  class Coordinator {
    const memory: MemoryAgent
    const research: ResearchAgent
    const analysis: AnalysisAgent
    /** `trace_log`: every event logged, in order. */
    var traceLog: seq<TraceEvent>

    /** The stages share the coordinator's store, and the store is consistent. */
    ghost predicate Valid()
      reads this, memory
    {
      research.memory == memory && analysis.memory == memory && memory.Valid()
    }

    constructor (memory: MemoryAgent, research: ResearchAgent, analysis: AnalysisAgent)
      requires research.memory == memory && analysis.memory == memory
      ensures this.memory == memory && this.research == research && this.analysis == analysis
      ensures traceLog == []
    {
      this.memory := memory;
      this.research := research;
      this.analysis := analysis;
      traceLog := [];
    }

    /** `log_trace`: appends the event (its timestamp and printing are not modelled). */
    method LogTrace(e: TraceEvent)
      modifies this
      ensures traceLog == old(traceLog) + [e]
    {
      traceLog := traceLog + [e];
    }

    /** The research step both flows share: run `research` and log its trace. */
    method RunResearch(query: string, taskId: string, ranking: VectorRanking, topN: nat, failure: Option<string>)
      returns (outcome: Result<ResearchTrace>)
      requires Valid() && ranking.Fits(|memory.knowledgeBase|)
      modifies this, memory
      ensures Valid()
      ensures failure.Some? ==> outcome == Failure(failure.value) && traceLog == old(traceLog) && unchanged(memory)
      ensures failure.None? ==>
        var kb0 := old(memory.knowledgeBase);
        var t := ResearchResult(research.mockKb, kb0, query, taskId, ranking, topN);
        && outcome == Success(t)
        && traceLog == old(traceLog) + [ResearchDone(taskId, t)]
        && memory.knowledgeBase == kb0 + Persisted(Hits(research.mockKb, query, topN), |kb0| + 1)
        && memory.agentState == old(memory.agentState) + [ResearchAgentNote(t)]
        && memory.conversationMemory == old(memory.conversationMemory)
    {
      outcome := research.Research(query, taskId, ranking, topN, failure);
      if outcome.Success? {
        LogTrace(ResearchDone(taskId, outcome.value));
      }
    }

    /** The suggestion loop of `_handle_complex` over the current store. */
    method CollectCandidates(t: ResearchTrace) returns (items: seq<KnowledgeRecord>)
      ensures items == Candidates(memory.knowledgeBase, t)
    {
      var kb := memory.knowledgeBase;
      var sugg := t.memorySuggestions;
      items := SavedCandidates(kb, t.saved);
      var i := 0;
      while i < |sugg|
        invariant 0 <= i <= |sugg|
        invariant items == WithSuggestions(SavedCandidates(kb, t.saved), kb, sugg[..i])
      {
        assert sugg[..i + 1][..i] == sugg[..i];
        var kbItem := FindRecord(kb, sugg[i].id);
        if kbItem.Some? && kbItem.value !in items {
          items := items + [kbItem.value];
        }
        i := i + 1;
      }
      assert sugg[..i] == sugg;
    }

    /** `kb_items` of `_handle_complex`: the candidates, or keyword search with limit 4 when there are none. */
    method CandidateSet(query: string, t: ResearchTrace) returns (items: seq<KnowledgeRecord>)
      requires memory.Valid()
      ensures items == CandidateSetOf(memory.knowledgeBase, t, query)
    {
      items := CollectCandidates(t);
      if items == [] {
        items := memory.KeywordSearchKb(Split(query), FallbackLimit);
      }
    }

    /** `_handle_error`: log the error, answer with the apology, record the assistant turn. */
    method HandleError(error: string, taskId: string, response: Response) returns (resp: Response)
      requires Valid()
      modifies this, memory
      ensures Valid()
      ensures resp == response.(final := Some(ErrorFinal(error)))
      ensures traceLog == old(traceLog) + [ErrorEvent(taskId, ErrorMessage(error))]
      ensures memory.conversationMemory == old(memory.conversationMemory)
                + [AssistantTurn(taskId, ErrorFinal(error))]
      ensures memory.knowledgeBase == old(memory.knowledgeBase) && memory.agentState == old(memory.agentState)
    {
      LogTrace(ErrorEvent(taskId, ErrorMessage(error)));
      var fallback := ErrorFinal(error);
      resp := response.(final := Some(fallback));
      var _ := memory.StoreConversation("assistant", fallback.answer, Some(TaskTag(taskId)));
    }

    /**
     * `_handle_simple`: research the top three entries, answer with an excerpt
     * of each stored record, record the assistant turn.
     */
    method HandleSimple(query: string, taskId: string, ranking: VectorRanking, failure: Option<string>,
                        response: Response)
      returns (outcome: Result<Final>, resp: Response)
      requires Valid() && ranking.Fits(|memory.knowledgeBase|)
      modifies this, memory
      ensures Valid()
      ensures failure.Some? ==>
        outcome == Failure(failure.value) && resp == response && traceLog == old(traceLog) && unchanged(memory)
      ensures failure.None? ==>
        var t := ResearchResult(research.mockKb, old(memory.knowledgeBase), query, taskId, ranking, SimpleTopN);
        var added := Persisted(Hits(research.mockKb, query, SimpleTopN), |old(memory.knowledgeBase)| + 1);
        var answer := SimpleAnswer(added);
        && outcome == Success(Final(answer, t.confidence, None))
        && resp == response.(steps := response.steps + [ResearchStep(t)])
        && traceLog == old(traceLog) + [ResearchDone(taskId, t)]
        && memory.knowledgeBase == old(memory.knowledgeBase) + added
        && memory.agentState == old(memory.agentState) + [ResearchAgentNote(t)]
        && memory.conversationMemory == old(memory.conversationMemory)
             + [AssistantTurn(taskId, outcome.value)]
    {
      ghost var kb0 := memory.knowledgeBase;
      var rr := RunResearch(query, taskId, ranking, SimpleTopN, failure);
      if rr.Failure? {
        return Failure(rr.error), response;
      }
      var r := rr.value;
      ResolveSaved(kb0, Hits(research.mockKb, query, SimpleTopN));
      var kbItems := ResolveAll(memory.knowledgeBase, r.saved);
      var final := Final(SimpleAnswer(kbItems), r.confidence, None);
      resp := response.(steps := response.steps + [ResearchStep(r)]);
      var _ := memory.StoreConversation("assistant", final.answer, Some(AnswerTag(taskId, final.confidence)));
      outcome := Success(final);
    }

    /**
     * The closing part of `_handle_complex`: look the analysis summary up,
     * build the synthesis, record the assistant turn and store the synthesis.
     */
    method Synthesize(query: string, taskId: string, r: ResearchTrace, a: AnalysisTrace) returns (final: Final)
      requires memory.Valid()
      modifies memory
      ensures memory.Valid()
      ensures var found := FindRecord(old(memory.knowledgeBase), a.summaryKbId);
        var answer := SynthesisText(query, if found.Some? then found.value.text else NoSummaryLine);
        var confidence := MinReal(r.confidence, a.confidence);
        && final == Final(answer, confidence, None)
        && memory.conversationMemory == old(memory.conversationMemory)
             + [AssistantTurn(taskId, final)]
        && memory.knowledgeBase == old(memory.knowledgeBase) + [SynthesisRecord(|old(memory.knowledgeBase)| + 1, taskId, final)]
        && memory.agentState == old(memory.agentState)
    {
      var analysisKb := FindRecord(memory.knowledgeBase, a.summaryKbId);
      var body := if analysisKb.Some? then analysisKb.value.text else NoSummaryLine;
      var finalText := Join(["Synthesis for: " + query, "Key findings:", body], "\n");
      final := Final(finalText, MinReal(r.confidence, a.confidence), None);
      var _ := memory.StoreConversation("assistant", finalText, Some(AnswerTag(taskId, final.confidence)));
      var _ := memory.StoreKnowledge("Synthesis:" + taskId, finalText, "Coordinator", "Coordinator", final.confidence);
    }

    /**
     * The part of `_handle_complex` after research: collect the candidates,
     * analyse them, log the analysis and build and store the synthesis.
     */
    method AnalyzeAndSynthesize(query: string, taskId: string, r: ResearchTrace, failure: Option<string>,
                                response: Response)
      returns (outcome: Result<(AnalysisTrace, Final)>, resp: Response)
      requires Valid()
      modifies this, memory
      ensures Valid()
      ensures failure.Some? ==>
        outcome == Failure(failure.value) && resp == response && traceLog == old(traceLog) && unchanged(memory)
      ensures failure.None? ==>
        var kb1 := old(memory.knowledgeBase);
        var items := CandidateSetOf(kb1, r, query);
        && outcome.Success?
        && var a := outcome.value.0;
           var final := outcome.value.1;
           && a == AnalysisResult(items, query, taskId, |kb1|)
           && final == Final(SynthesisText(query, Summary(taskId, query, a.ranked)),
                             MinReal(r.confidence, AnalysisConfidence), None)
           && resp == response.(steps := response.steps + [ResearchStep(r), AnalysisStep(a)])
           && traceLog == old(traceLog) + [AnalysisDone(taskId, a)]
           && memory.knowledgeBase == kb1
                + [SummaryRecord(|kb1|, taskId, Summary(taskId, query, a.ranked)), SynthesisRecord(|kb1| + 2, taskId, final)]
           && memory.agentState == old(memory.agentState)
                + [AgentNote(taskId, "AnalysisAgent", AnalysisNote(|items|), "done")]
           && memory.conversationMemory == old(memory.conversationMemory)
                + [AssistantTurn(taskId, final)]
    {
      ghost var kb1 := memory.knowledgeBase;
      var kbItems := CandidateSet(query, r);
      var ar := analysis.Analyze(kbItems, query, taskId, failure);
      if ar.Failure? {
        return Failure(ar.error), response;
      }
      var a := ar.value;
      LogTrace(AnalysisDone(taskId, a));
      SummaryResolves(kb1, taskId, Summary(taskId, query, a.ranked));
      var final := Synthesize(query, taskId, r, a);
      resp := response.(steps := response.steps + [ResearchStep(r), AnalysisStep(a)]);
      outcome := Success((a, final));
    }

    /**
     * `_handle_complex`: research the top six entries, collect the candidates
     * (keyword search when there are none), analyse them, answer with the
     * synthesis, record the assistant turn and store the synthesis.
     */
    method HandleComplex(query: string, taskId: string, ranking: VectorRanking,
                         researchFailure: Option<string>, analysisFailure: Option<string>, response: Response)
      returns (outcome: Result<Final>, resp: Response, ghost t: ResearchTrace, ghost a: AnalysisTrace)
      requires Valid() && ranking.Fits(|memory.knowledgeBase|)
      modifies this, memory
      ensures Valid()
      ensures researchFailure.Some? ==>
        outcome == Failure(researchFailure.value) && resp == response && traceLog == old(traceLog) && unchanged(memory)
      ensures researchFailure.None? ==>
        var kb0 := old(memory.knowledgeBase);
        var added := Persisted(Hits(research.mockKb, query, ComplexTopN), |kb0| + 1);
        var kb1 := kb0 + added;
        var items := CandidateSetOf(kb1, t, query);
        var confidence := MinReal(t.confidence, AnalysisConfidence);
        && t == ResearchResult(research.mockKb, kb0, query, taskId, ranking, ComplexTopN)
        && (analysisFailure.Some? ==>
              && outcome == Failure(analysisFailure.value) && resp == response
              && traceLog == old(traceLog) + [ResearchDone(taskId, t)]
              && memory.knowledgeBase == kb1
              && memory.agentState == old(memory.agentState) + [ResearchAgentNote(t)]
              && memory.conversationMemory == old(memory.conversationMemory))
        && (analysisFailure.None? ==>
              && outcome.Success?
              && memory.knowledgeBase == kb1
                   + [SummaryRecord(|kb1|, taskId, Summary(taskId, query, a.ranked)),
                      SynthesisRecord(|kb1| + 2, taskId, outcome.value)]
              && outcome.value == Final(SynthesisText(query, Summary(taskId, query, a.ranked)), confidence, None)
              && resp == response.(steps := response.steps + [ResearchStep(t), AnalysisStep(a)])
              && traceLog == old(traceLog) + [ResearchDone(taskId, t), AnalysisDone(taskId, a)]
              && memory.agentState == old(memory.agentState)
                   + [ResearchAgentNote(t), AgentNote(taskId, "AnalysisAgent", AnalysisNote(|items|), "done")]
              && memory.conversationMemory == old(memory.conversationMemory)
                   + [AssistantTurn(taskId, outcome.value)]
              && a == AnalysisResult(items, query, taskId, |kb1|))
    {
      ghost var kb0 := memory.knowledgeBase;
      t := ResearchResult(research.mockKb, kb0, query, taskId, ranking, ComplexTopN);
      a := AnalysisResult([], query, taskId, 0);
      var rr := RunResearch(query, taskId, ranking, ComplexTopN, researchFailure);
      if rr.Failure? {
        return Failure(rr.error), response, t, a;
      }
      var ar;
      ar, resp := AnalyzeAndSynthesize(query, taskId, rr.value, analysisFailure, response);
      if ar.Failure? {
        return Failure(ar.error), resp, t, a;
      }
      a := ar.value.0;
      outcome := Success(ar.value.1);
    }

    /**
     * The `try`/`except` of `handle`: run the flow `complexity` selects and
     * put its answer into the response, or, when a stage fails, answer through
     * the error handler instead.
     */
    method Respond(query: string, taskId: string, complexity: Complexity, ranking: VectorRanking, fault: Fault)
      returns (resp: Response)
      requires Valid() && ranking.Fits(|memory.knowledgeBase|)
      modifies this, memory
      ensures Valid()
      ensures resp.taskId == taskId && resp.query == query && resp.final.Some?
      ensures memory.conversationMemory == old(memory.conversationMemory) + [AssistantTurn(taskId, resp.final.value)]
      ensures Answered(research.mockKb, old(memory.knowledgeBase), old(traceLog), query, taskId, complexity, ranking, fault,
                       resp, traceLog)
      ensures Stored(research.mockKb, old(memory.knowledgeBase), old(memory.agentState), query, taskId, complexity,
                     ranking, fault, memory.knowledgeBase, memory.agentState)
    {
      if complexity == Simple {
        resp := RespondSimple(query, taskId, ranking, fault);
      } else {
        resp := RespondComplex(query, taskId, complexity, ranking, fault);
      }
    }

    /** `handle`'s `try`/`except` around `_handle_simple`. */
    method RespondSimple(query: string, taskId: string, ranking: VectorRanking, fault: Fault)
      returns (resp: Response)
      requires Valid() && ranking.Fits(|memory.knowledgeBase|)
      modifies this, memory
      ensures Valid()
      ensures resp.taskId == taskId && resp.query == query && resp.final.Some?
      ensures memory.conversationMemory == old(memory.conversationMemory) + [AssistantTurn(taskId, resp.final.value)]
      ensures AnsweredSimple(research.mockKb, old(memory.knowledgeBase), old(traceLog), query, taskId, ranking, fault,
                       resp, traceLog)
      ensures StoredSimple(research.mockKb, old(memory.knowledgeBase), old(memory.agentState), query, taskId, ranking,
                           fault, memory.knowledgeBase, memory.agentState)
    {
      var response := Response(taskId, query, [], None);
      var researchFailure := if fault.ResearchFault? then Some(fault.reason) else None;
      var outcome;
      outcome, response := HandleSimple(query, taskId, ranking, researchFailure, response);
      if outcome.Success? {
        resp := response.(final := Some(outcome.value));
      } else {
        resp := HandleError(outcome.error, taskId, response);
      }
    }

    /** `handle`'s `try`/`except` around `_handle_complex`. */
    method RespondComplex(query: string, taskId: string, complexity: Complexity, ranking: VectorRanking, fault: Fault)
      returns (resp: Response)
      requires complexity != Simple
      requires Valid() && ranking.Fits(|memory.knowledgeBase|)
      modifies this, memory
      ensures Valid()
      ensures resp.taskId == taskId && resp.query == query && resp.final.Some?
      ensures memory.conversationMemory == old(memory.conversationMemory) + [AssistantTurn(taskId, resp.final.value)]
      ensures AnsweredComplex(research.mockKb, old(memory.knowledgeBase), old(traceLog), query, taskId, ranking, fault,
                       resp, traceLog)
      ensures StoredComplex(research.mockKb, old(memory.knowledgeBase), old(memory.agentState), query, taskId, ranking,
                            fault, memory.knowledgeBase, memory.agentState)
    {
      var response := Response(taskId, query, [], None);
      var researchFailure := if fault.ResearchFault? then Some(fault.reason) else None;
      var analysisFailure := if fault.AnalysisFault? then Some(fault.reason) else None;
      ghost var kb0 := memory.knowledgeBase;
      var outcome;
      ghost var t, a;
      outcome, response, t, a := HandleComplex(query, taskId, ranking, researchFailure, analysisFailure, response);
      ComplexAnswer(research.mockKb, kb0, query, taskId, ranking, a.ranked);
      if outcome.Success? {
        assert fault == NoFault;
        resp := response.(final := Some(outcome.value));
      } else {
        assert Fails(fault, complexity) && outcome.error == fault.reason;
        resp := HandleError(outcome.error, taskId, response);
      }
    }

    /**
     * `handle(query)` for the task id `taskId`: record the user's turn, log
     * the classification, then respond.  `ranking` is the vector ranking of
     * `query` over the store as it is on entry; `fault` says which stage, if
     * any, raises an error.
     */
    method Handle(query: string, taskId: string, ranking: VectorRanking, fault: Fault) returns (resp: Response)
      requires Valid() && ranking.Fits(|memory.knowledgeBase|)
      modifies this, memory
      ensures Valid()
      ensures resp.taskId == taskId && resp.query == query && resp.final.Some?
      ensures memory.conversationMemory == old(memory.conversationMemory)
                + [ConversationTurn("user", query, TaskTag(taskId))] + [AssistantTurn(taskId, resp.final.value)]
      ensures var log0 := old(traceLog) + [ReceivedQuery(taskId, query, ComplexityEstimate(query))];
        Answered(research.mockKb, old(memory.knowledgeBase), log0, query, taskId, ComplexityEstimate(query), ranking,
                 fault, resp, traceLog)
      ensures Stored(research.mockKb, old(memory.knowledgeBase), old(memory.agentState), query, taskId,
                     ComplexityEstimate(query), ranking, fault, memory.knowledgeBase, memory.agentState)
    {
      var _ := memory.StoreConversation("user", query, Some(TaskTag(taskId)));
      var complexity := ComplexityEstimate(query);
      LogTrace(ReceivedQuery(taskId, query, complexity));
      resp := Respond(query, taskId, complexity, ranking, fault);
    }
  }
}
