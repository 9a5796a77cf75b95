/**
 * The research stage (`ResearchAgent.research`): score a fixed corpus against
 * the query's tokens, keep the best `top_n` entries, ask vector memory for
 * suggestions, persist every hit as a new knowledge record and report a trace.
 */
module Research {
  import opened Wrappers
  import opened Text
  import opened Ranking
  import opened Memory

  /** A corpus entry; `source` may be absent, and then reads as "mock_kb". */
  datatype CorpusEntry = CorpusEntry(title: string, text: string, source: Option<string>)

  datatype FoundEntry = FoundEntry(title: string, source: string)

  datatype MemorySuggestion = MemorySuggestion(id: nat, title: string, sim: real, source: string)

  /** `saved` holds the numbers n of the new records' identifiers `kb_<n>`. */
  datatype ResearchTrace = ResearchTrace(
    taskId: string, agent: string, query: string,
    found: seq<FoundEntry>, memorySuggestions: seq<MemorySuggestion>, saved: seq<nat>,
    confidence: real)

  const ResearchConfidence: real := 0.9

  /** A corpus entry's source, "mock_kb" when it names none. */
  function SourceOf(e: CorpusEntry): string {
    e.source.GetOr("mock_kb")
  }

  /** The words of the lower-cased query. */
  function QueryTokens(query: string): seq<string> {
    Split(Lower(query))
  }

  /** The number of tokens, repeats included, that occur in lower-cased `title + " " + text`. */
  function EntryScore(tokens: seq<string>, e: CorpusEntry): nat {
    CountContained(tokens, Lower(e.title + " " + e.text))
  }

  function CorpusScores(corpus: seq<CorpusEntry>, tokens: seq<string>): (r: seq<nat>)
    ensures |r| == |corpus|
  {
    seq(|corpus|, i requires 0 <= i < |corpus| => EntryScore(tokens, corpus[i]))
  }

  /** The best `top_n` matching corpus positions with their scores, best first, ties in corpus order. */
  function CorpusTop(corpus: seq<CorpusEntry>, query: string, topN: nat): seq<Ranked> {
    Take(SortDesc(PositiveHits(CorpusScores(corpus, QueryTokens(query)))), topN)
  }

  lemma CorpusTopSpec(corpus: seq<CorpusEntry>, query: string, topN: nat)
    ensures var top := CorpusTop(corpus, query, topN);
      var n := |PositiveHits(CorpusScores(corpus, QueryTokens(query)))|;
      && |top| == (if n <= topN then n else topN)
      && InRankOrder(top)
      && forall i :: 0 <= i < |top| ==>
           top[i].pos < |corpus|
           && top[i].key == Key(EntryScore(QueryTokens(query), corpus[top[i].pos]), 0)
           && top[i].key.major > 0
  {
    var scores := CorpusScores(corpus, QueryTokens(query));
    PositiveHitsSpec(scores);
    TakeSorted(PositiveHits(scores), topN);
  }

  /** `hits`: the corpus entries kept by the ranking, best first. */
  function Hits(corpus: seq<CorpusEntry>, query: string, topN: nat): seq<CorpusEntry> {
    CorpusTopSpec(corpus, query, topN);
    ItemsAt(corpus, CorpusTop(corpus, query, topN))
  }

  /**
   * At most `top_n` hits, each the corpus entry at its ranked position with a
   * positive score; scores never increase along the hits, and equal scores
   * keep corpus order.
   */
  lemma HitsRanked(corpus: seq<CorpusEntry>, query: string, topN: nat)
    ensures var hits := Hits(corpus, query, topN);
      var top := CorpusTop(corpus, query, topN);
      var tokens := QueryTokens(query);
      && |hits| == |top| && |hits| <= topN
      && (forall i :: 0 <= i < |hits| ==>
            top[i].pos < |corpus| && hits[i] == corpus[top[i].pos] && EntryScore(tokens, hits[i]) > 0)
      && (forall i, j :: 0 <= i < j < |hits| ==>
            EntryScore(tokens, hits[i]) > EntryScore(tokens, hits[j])
            || (EntryScore(tokens, hits[i]) == EntryScore(tokens, hits[j]) && top[i].pos < top[j].pos))
  {
    CorpusTopSpec(corpus, query, topN);
    var top := CorpusTop(corpus, query, topN);
    forall i, j | 0 <= i < j < |top| ensures Precedes(top[i], top[j]) {
    }
  }

  /** When at most `top_n` corpus entries score, every entry with a positive score is a hit. */
  lemma HitsKeepsAll(corpus: seq<CorpusEntry>, query: string, topN: nat, j: nat)
    requires j < |corpus| && EntryScore(QueryTokens(query), corpus[j]) > 0
    requires |PositiveHits(CorpusScores(corpus, QueryTokens(query)))| <= topN
    ensures var top := CorpusTop(corpus, query, topN);
      exists i :: 0 <= i < |top| && top[i].pos == j
  {
    var scores := CorpusScores(corpus, QueryTokens(query));
    assert scores[j] == EntryScore(QueryTokens(query), corpus[j]);
    var x := HitAt(scores, j);
    CorpusTopSpec(corpus, query, topN);
    var top := CorpusTop(corpus, query, topN);
    assert x in multiset(SortDesc(PositiveHits(scores)));
    var i :| 0 <= i < |top| && top[i] == x;
  }

  /**
   * A corpus entry with a positive score that is not a hit ranks below every
   * hit: a lower score, or the same score and a later corpus position.
   */
  lemma HitsDropsWorst(corpus: seq<CorpusEntry>, query: string, topN: nat, j: nat)
    requires j < |corpus| && EntryScore(QueryTokens(query), corpus[j]) > 0
    requires var top := CorpusTop(corpus, query, topN);
      forall i :: 0 <= i < |top| ==> top[i].pos != j
    ensures var top := CorpusTop(corpus, query, topN);
      var tokens := QueryTokens(query);
      forall i :: 0 <= i < |top| ==>
        top[i].pos < |corpus|
        && (EntryScore(tokens, corpus[top[i].pos]) > EntryScore(tokens, corpus[j])
            || (EntryScore(tokens, corpus[top[i].pos]) == EntryScore(tokens, corpus[j]) && top[i].pos < j))
  {
    var scores := CorpusScores(corpus, QueryTokens(query));
    assert scores[j] == EntryScore(QueryTokens(query), corpus[j]);
    var x := HitAt(scores, j);
    CorpusTopSpec(corpus, query, topN);
    var top := CorpusTop(corpus, query, topN);
    PositiveHitsSpec(scores);
    forall i | 0 <= i < |top| ensures top[i] != x {
    }
    TakeDropsWorst(PositiveHits(scores), topN, x);
    forall i | 0 <= i < |top|
      ensures top[i].pos < |corpus|
      ensures EntryScore(QueryTokens(query), corpus[top[i].pos]) > EntryScore(QueryTokens(query), corpus[j])
        || (EntryScore(QueryTokens(query), corpus[top[i].pos]) == EntryScore(QueryTokens(query), corpus[j]) && top[i].pos < j)
    {
      assert Precedes(top[i], x);
    }
  }

  /** An empty query, or a corpus none of whose entries matches, yields no hits. */
  lemma NoMatchNoHits(corpus: seq<CorpusEntry>, query: string, topN: nat)
    requires QueryTokens(query) == []
      || forall j :: 0 <= j < |corpus| ==> EntryScore(QueryTokens(query), corpus[j]) == 0
    ensures Hits(corpus, query, topN) == []
    ensures forall first :: Persisted(Hits(corpus, query, topN), first) == []
  {
    var scores := CorpusScores(corpus, QueryTokens(query));
    forall j | 0 <= j < |scores| ensures scores[j] == 0 {
    }
    PositiveHitsNone(scores);
  }

  /** The records `store_knowledge` creates for the hits when the store held `first - 1` records. */
  function Persisted(hits: seq<CorpusEntry>, first: nat): (r: seq<KnowledgeRecord>)
    ensures |r| == |hits|
  {
    seq(|hits|, i requires 0 <= i < |hits| =>
      KnowledgeRecord(first + i, hits[i].title, hits[i].text, SourceOf(hits[i]), "ResearchAgent", ResearchConfidence))
  }

  /** Persisting one more hit appends the record numbered after the others. */
  lemma PersistedSnoc(hits: seq<CorpusEntry>, i: nat, first: nat)
    requires i < |hits|
    ensures Persisted(hits[..i + 1], first) == Persisted(hits[..i], first)
      + [KnowledgeRecord(first + i, hits[i].title, hits[i].text, SourceOf(hits[i]), "ResearchAgent", ResearchConfidence)]
  {
    var l := Persisted(hits[..i + 1], first);
    var r := Persisted(hits[..i], first)
      + [KnowledgeRecord(first + i, hits[i].title, hits[i].text, SourceOf(hits[i]), "ResearchAgent", ResearchConfidence)];
    forall k | 0 <= k < |l| ensures l[k] == r[k] {
      assert hits[..i + 1][k] == hits[k];
      if k < i {
        assert hits[..i][k] == hits[k];
      }
    }
  }

  /** The ids of the saved records, in order. */
  function IdsOf(recs: seq<KnowledgeRecord>): (r: seq<nat>)
    ensures |r| == |recs|
  {
    seq(|recs|, i requires 0 <= i < |recs| => recs[i].id)
  }

  /** `[{"title": ..., "source": ...} for s in hits]`. */
  function FoundList(hits: seq<CorpusEntry>): (r: seq<FoundEntry>)
    ensures |r| == |hits|
  {
    seq(|hits|, i requires 0 <= i < |hits| => FoundEntry(hits[i].title, SourceOf(hits[i])))
  }

  /** `mem_summaries`: id, title, similarity and source of every vector-search result. */
  function Suggestions(memHits: seq<VectorHit>): (r: seq<MemorySuggestion>)
    ensures |r| == |memHits|
  {
    seq(|memHits|, i requires 0 <= i < |memHits| =>
      MemorySuggestion(memHits[i].record.id, memHits[i].record.title, memHits[i].similarity, memHits[i].record.source))
  }

  function ResearchNote(found: nat, memHits: nat): string {
    "Found " + Decimal(found) + " entries; mem_hits=" + Decimal(memHits)
  }

  /** Records persisted after a store numbered 1..n continue its numbering. */
  lemma PersistNumbered(kb: seq<KnowledgeRecord>, hits: seq<CorpusEntry>)
    requires NumberedFrom(kb, 1)
    ensures NumberedFrom(kb + Persisted(hits, |kb| + 1), 1)
  {
    var added := Persisted(hits, |kb| + 1);
    var all := kb + added;
    forall i | 0 <= i < |all| ensures all[i].id == 1 + i {
      if i >= |kb| {
        assert all[i] == added[i - |kb|];
      }
    }
  }

  /**
   * Persisting the hits after a store numbered 1..n keeps the store numbered
   * from 1, and the saved ids are the new consecutive numbers n+1, n+2, ...
   * in hit order, each finding the record made from its hit.
   */
  lemma PersistExtendsStore(kb: seq<KnowledgeRecord>, hits: seq<CorpusEntry>)
    requires NumberedFrom(kb, 1)
    ensures var added := Persisted(hits, |kb| + 1);
      var saved := IdsOf(added);
      && NumberedFrom(kb + added, 1)
      && (forall i :: 0 <= i < |saved| ==> saved[i] == |kb| + 1 + i)
      && (forall i :: 0 <= i < |saved| ==>
            FindRecord(kb + added, saved[i]) == Some(added[i])
            && added[i].title == hits[i].title && added[i].text == hits[i].text
            && added[i].source == SourceOf(hits[i]))
      && (forall id :: 1 <= id <= |kb| ==> FindRecord(kb + added, id) == Some(kb[id - 1]))
  {
    var added := Persisted(hits, |kb| + 1);
    var all := kb + added;
    PersistNumbered(kb, hits);
    forall id | 1 <= id <= |all| ensures FindRecord(all, id) == Some(all[id - 1]) {
      FindNumbered(all, 1, id);
    }
    forall i | 0 <= i < |added| ensures all[|kb| + i] == added[i] {
    }
  }

  /** The trace `research` returns when the store held `kb0` on entry. */
  function ResearchResult(corpus: seq<CorpusEntry>, kb0: seq<KnowledgeRecord>, query: string, taskId: string,
                          ranking: VectorRanking, topN: nat): ResearchTrace
    requires ranking.Fits(|kb0|)
  {
    var hits := Hits(corpus, query, topN);
    ResearchTrace(taskId, "ResearchAgent", query, FoundList(hits),
                  Suggestions(VectorResults(kb0, ranking, 3)), IdsOf(Persisted(hits, |kb0| + 1)),
                  ResearchConfidence)
  }

  /** The agent-state note `research` appends for its trace. */
  function ResearchAgentNote(t: ResearchTrace): AgentNote {
    AgentNote(t.taskId, t.agent, ResearchNote(|t.saved|, |t.memorySuggestions|), "done")
  }

  /**
   * The trace lists each hit once in `found` and its new record's number at
   * the same index of `saved`: the consecutive numbers after the store's `n`
   * records.  Memory suggestions name distinct records among those `n`, at
   * most three of them; the agent is "ResearchAgent" with confidence 0.9.
   */
  lemma ResearchResultSpec(corpus: seq<CorpusEntry>, kb0: seq<KnowledgeRecord>, query: string, taskId: string,
                           ranking: VectorRanking, topN: nat)
    requires NumberedFrom(kb0, 1) && ranking.Fits(|kb0|)
    ensures var t := ResearchResult(corpus, kb0, query, taskId, ranking, topN);
      var hits := Hits(corpus, query, topN);
      && |t.found| == |hits| && |t.saved| == |hits| && |hits| <= topN
      && (forall k :: 0 <= k < |hits| ==>
            t.found[k] == FoundEntry(hits[k].title, SourceOf(hits[k])) && t.saved[k] == |kb0| + 1 + k)
      && |t.memorySuggestions| == (if |kb0| <= 3 then |kb0| else 3)
      && (forall k :: 0 <= k < |t.memorySuggestions| ==> 1 <= t.memorySuggestions[k].id <= |kb0|)
      && (forall k, l :: 0 <= k < l < |t.memorySuggestions| ==>
            t.memorySuggestions[k].id != t.memorySuggestions[l].id)
      && t.agent == "ResearchAgent" && t.confidence == 0.9 && t.taskId == taskId && t.query == query
  {
    HitsRanked(corpus, query, topN);
    VectorResultsSpec(kb0, ranking, 3);
  }

  class ResearchAgent {
    /** The shared store. */
    const memory: MemoryAgent
    /** The fixed corpus, supplied once. */
    const mockKb: seq<CorpusEntry>

    constructor (memory: MemoryAgent, mockKb: seq<CorpusEntry>)
      ensures this.memory == memory && this.mockKb == mockKb
    {
      this.memory := memory;
      this.mockKb := mockKb;
    }

    /** The scoring loop of `research`: every corpus entry with a positive score, in corpus order. */
    method ScoreCorpus(tokens: seq<string>) returns (results: seq<Ranked>)
      ensures results == PositiveHits(CorpusScores(mockKb, tokens))
    {
      results := [];
      var e := 0;
      while e < |mockKb|
        invariant 0 <= e <= |mockKb|
        invariant results == PositiveHits(CorpusScores(mockKb[..e], tokens))
      {
        var entry := mockKb[e];
        var score := 0;
        var txt := Lower(entry.title + " " + entry.text);
        var w := 0;
        while w < |tokens|
          invariant 0 <= w <= |tokens|
          invariant score == CountContained(tokens[..w], txt)
        {
          assert tokens[..w + 1][..w] == tokens[..w];
          if Contains(txt, tokens[w]) {
            score := score + 1;
          }
          w := w + 1;
        }
        assert tokens[..w] == tokens;
        assert CorpusScores(mockKb[..e + 1], tokens) == CorpusScores(mockKb[..e], tokens) + [score];
        PositiveHitsSnoc(CorpusScores(mockKb[..e], tokens), score);
        if score > 0 {
          results := results + [Ranked(Key(score, 0), e)];
        }
        e := e + 1;
      }
      assert mockKb[..e] == mockKb;
    }

    /** The persisting loop of `research`: one `store_knowledge` call per hit, in hit order. */
    method Persist(hits: seq<CorpusEntry>) returns (saved: seq<KnowledgeRecord>)
      requires memory.Valid()
      modifies memory
      ensures memory.Valid()
      ensures saved == Persisted(hits, |old(memory.knowledgeBase)| + 1)
      ensures memory.knowledgeBase == old(memory.knowledgeBase) + saved
      ensures memory.agentState == old(memory.agentState)
      ensures memory.conversationMemory == old(memory.conversationMemory)
    {
      var n := |memory.knowledgeBase|;
      saved := [];
      var i := 0;
      while i < |hits|
        invariant 0 <= i <= |hits|
        invariant memory.Valid()
        invariant saved == Persisted(hits[..i], n + 1)
        invariant memory.knowledgeBase == old(memory.knowledgeBase) + saved
        invariant memory.agentState == old(memory.agentState)
        invariant memory.conversationMemory == old(memory.conversationMemory)
      {
        var h := hits[i];
        assert |memory.knowledgeBase| == n + i;
        var rec := memory.StoreKnowledge(h.title, h.text, SourceOf(h), "ResearchAgent", ResearchConfidence);
        PersistedSnoc(hits, i, n + 1);
        assert saved + [rec] == Persisted(hits[..i + 1], n + 1);
        saved := saved + [rec];
        i := i + 1;
      }
      assert hits[..i] == hits;
    }

    /**
     * `research(query, task_id, top_n)`.  `ranking` is what TF-IDF similarity
     * computes for `query` over the store as it is on entry; `failure` is an
     * error raised on entry to the stage, before it has any effect.
     */
    method Research(query: string, taskId: string, ranking: VectorRanking, topN: nat := 5,
                    failure: Option<string> := None)
      returns (outcome: Result<ResearchTrace>)
      requires memory.Valid() && ranking.Fits(|memory.knowledgeBase|)
      modifies memory
      ensures memory.Valid()
      ensures failure.Some? ==> outcome == Failure(failure.value) && unchanged(memory)
      ensures failure.None? ==>
        && outcome == Success(ResearchResult(mockKb, old(memory.knowledgeBase), query, taskId, ranking, topN))
        && memory.knowledgeBase == old(memory.knowledgeBase)
             + Persisted(Hits(mockKb, query, topN), |old(memory.knowledgeBase)| + 1)
        && memory.agentState == old(memory.agentState) + [ResearchAgentNote(outcome.value)]
        && memory.conversationMemory == old(memory.conversationMemory)
    {
      if failure.Some? {
        return Failure(failure.value);
      }
      ghost var kb0 := memory.knowledgeBase;
      var n := |memory.knowledgeBase|;
      var results := ScoreCorpus(QueryTokens(query));
      results := SortDesc(results);
      CorpusTopSpec(mockKb, query, topN);
      var hits := ItemsAt(mockKb, Take(results, topN));
      assert hits == Hits(mockKb, query, topN);

      var memHits := memory.VectorSearchKb(query, ranking, 3);
      var memSummaries := Suggestions(memHits);

      var saved := Persist(hits);
      var _ := memory.StoreAgentState(taskId, "ResearchAgent", ResearchNote(|saved|, |memHits|), "done");
      outcome := Success(ResearchTrace(taskId, "ResearchAgent", query, FoundList(hits), memSummaries,
                                       IdsOf(saved), ResearchConfidence));
      assert outcome.value == ResearchResult(mockKb, kb0, query, taskId, ranking, topN);
    }
  }
}
