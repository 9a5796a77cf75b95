/**
 * The shared knowledge store (`MemoryAgent`): three append-only logs
 * (knowledge records, conversation turns, agent-state notes), the parallel
 * `_ids`/`_texts` lists the vector index is fitted on, keyword search over the
 * records, vector search as an oracle, and keyword retrieval of conversation turns.
 */
module Memory {
  import opened Wrappers
  import opened Text
  import opened Ranking

  // ---------------------------------------------------------------- records

  /** A value of a turn's free-form metadata (the pipeline stores task ids and confidences). */
  datatype MetaValue = Str(s: string) | Num(r: real)

  type Metadata = map<string, MetaValue>

  /** A knowledge record; `id` is the number n of its identifier `kb_<n>` (see `KbId`). */
  datatype KnowledgeRecord = KnowledgeRecord(
    id: nat, title: string, text: string, source: string, agent: string, confidence: real)

  datatype ConversationTurn = ConversationTurn(role: string, message: string, metadata: Metadata)

  datatype AgentNote = AgentNote(taskId: string, agent: string, note: string, status: string)

  /** The identifier string of record number `n`: `f"kb_{n}"`. */
  function KbId(n: nat): string {
    "kb_" + Decimal(n)
  }

  /** Distinct record numbers give distinct identifier strings. */
  lemma KbIdInjective(a: nat, b: nat)
    requires KbId(a) == KbId(b)
    ensures a == b
  {
    assert KbId(a)[3..] == Decimal(a);
    assert KbId(b)[3..] == Decimal(b);
    DecimalInjective(a, b);
  }

  /** The text a record is indexed and searched by: `title + " " + text`. */
  function SearchText(r: KnowledgeRecord): string {
    r.title + " " + r.text
  }

  /** The identifier strings of the records, in store order. */
  function KbIds(kb: seq<KnowledgeRecord>): (ids: seq<string>)
    ensures |ids| == |kb|
  {
    if kb == [] then [] else KbIds(kb[..|kb| - 1]) + [KbId(kb[|kb| - 1].id)]
  }

  /** The search texts of the records, in store order. */
  function SearchTexts(kb: seq<KnowledgeRecord>): (texts: seq<string>)
    ensures |texts| == |kb|
  {
    if kb == [] then [] else SearchTexts(kb[..|kb| - 1]) + [SearchText(kb[|kb| - 1])]
  }

  /** Entry `i` of either list belongs to record `i`. */
  lemma {:induction false} IndexedAt(kb: seq<KnowledgeRecord>, i: nat)
    requires i < |kb|
    ensures KbIds(kb)[i] == KbId(kb[i].id) && SearchTexts(kb)[i] == SearchText(kb[i])
  {
    if i < |kb| - 1 {
      IndexedAt(kb[..|kb| - 1], i);
    }
  }

  /** Storing a record extends both lists by its own entry. */
  lemma IndexedAppend(kb: seq<KnowledgeRecord>, r: KnowledgeRecord)
    ensures KbIds(kb + [r]) == KbIds(kb) + [KbId(r.id)]
    ensures SearchTexts(kb + [r]) == SearchTexts(kb) + [SearchText(r)]
  {
    assert (kb + [r])[..|kb|] == kb;
  }

  /** The records are numbered `first`, `first + 1`, ... in store order. */
  predicate NumberedFrom(kb: seq<KnowledgeRecord>, first: nat) {
    forall i :: 0 <= i < |kb| ==> kb[i].id == first + i
  }

  /** The first record with the given id, or nothing when no record has it. */
  function FindRecord(kb: seq<KnowledgeRecord>, id: nat): Option<KnowledgeRecord> {
    if kb == [] then None
    else if kb[0].id == id then Some(kb[0])
    else FindRecord(kb[1..], id)
  }

  /** In a store numbered from `first`, id `first + i` finds the i-th record and nothing else is found. */
  lemma {:induction false} FindNumbered(kb: seq<KnowledgeRecord>, first: nat, id: nat)
    requires NumberedFrom(kb, first)
    ensures FindRecord(kb, id) == if first <= id < first + |kb| then Some(kb[id - first]) else None
  {
    if kb != [] && kb[0].id != id {
      FindNumbered(kb[1..], first + 1, id);
    }
  }

  // ---------------------------------------------------------------- keyword search

  /** How many keywords, repeats included, occur in the record's title and text, both sides lower-cased. */
  function KeywordScore(r: KnowledgeRecord, keywords: seq<string>): nat {
    CountContained(LowerAll(keywords), Lower(SearchText(r)))
  }

  /** The score of every record, in store order. */
  function KeywordScores(kb: seq<KnowledgeRecord>, keywords: seq<string>): (r: seq<nat>)
    ensures |r| == |kb|
  {
    seq(|kb|, i requires 0 <= i < |kb| => KeywordScore(kb[i], keywords))
  }

  /** The `hits` list before sorting: (score, position) of each record with a positive score, in store order. */
  function KeywordHits(kb: seq<KnowledgeRecord>, keywords: seq<string>): seq<Ranked> {
    PositiveHits(KeywordScores(kb, keywords))
  }

  /** The ranked hits of `keyword_search_kb` before the records are looked up: sorted, then truncated. */
  function KeywordTop(kb: seq<KnowledgeRecord>, keywords: seq<string>, topK: nat): seq<Ranked> {
    Take(SortDesc(KeywordHits(kb, keywords)), topK)
  }

  /** The kept hits are hits: each names a record of the store with its positive score. */
  lemma KeywordTopSpec(kb: seq<KnowledgeRecord>, keywords: seq<string>, topK: nat)
    ensures var top := KeywordTop(kb, keywords, topK);
      var n := |KeywordHits(kb, keywords)|;
      && |top| == (if n <= topK then n else topK)
      && InRankOrder(top)
      && forall i :: 0 <= i < |top| ==>
           top[i].pos < |kb| && top[i].key == Key(KeywordScore(kb[top[i].pos], keywords), 0) && top[i].key.major > 0
  {
    var hits := KeywordHits(kb, keywords);
    PositiveHitsSpec(KeywordScores(kb, keywords));
    TakeSorted(hits, topK);
  }

  /** What `keyword_search_kb(keywords, top_k)` returns: the first `top_k` hits after a stable sort by score. */
  function KeywordSearch(kb: seq<KnowledgeRecord>, keywords: seq<string>, topK: nat): seq<KnowledgeRecord> {
    KeywordTopSpec(kb, keywords, topK);
    ItemsAt(kb, KeywordTop(kb, keywords, topK))
  }

  /** At most `top_k` results, each a stored record matching at least one keyword. */
  lemma KeywordSearchSound(kb: seq<KnowledgeRecord>, keywords: seq<string>, topK: nat)
    ensures var r := KeywordSearch(kb, keywords, topK);
      && |r| <= topK
      && forall i :: 0 <= i < |r| ==>
           r[i] in kb && KeywordScore(r[i], keywords) > 0
           && ContainsSome(Lower(SearchText(r[i])), LowerAll(keywords))
  {
    KeywordTopSpec(kb, keywords, topK);
    var r := KeywordSearch(kb, keywords, topK);
    forall i | 0 <= i < |r|
      ensures r[i] in kb && KeywordScore(r[i], keywords) > 0
      ensures ContainsSome(Lower(SearchText(r[i])), LowerAll(keywords))
    {
      CountContainedBounds(LowerAll(keywords), Lower(SearchText(r[i])));
    }
  }

  /**
   * Results come in non-increasing score; equal scores keep store order, which
   * in a store numbered from 1 is increasing id.
   */
  lemma KeywordSearchOrdered(kb: seq<KnowledgeRecord>, keywords: seq<string>, topK: nat)
    requires NumberedFrom(kb, 1)
    ensures var r := KeywordSearch(kb, keywords, topK);
      forall i, j :: 0 <= i < j < |r| ==>
        KeywordScore(r[i], keywords) > KeywordScore(r[j], keywords)
        || (KeywordScore(r[i], keywords) == KeywordScore(r[j], keywords) && r[i].id < r[j].id)
  {
    KeywordTopSpec(kb, keywords, topK);
    var top := KeywordTop(kb, keywords, topK);
    var r := KeywordSearch(kb, keywords, topK);
    forall i, j | 0 <= i < j < |r|
      ensures KeywordScore(r[i], keywords) > KeywordScore(r[j], keywords)
        || (KeywordScore(r[i], keywords) == KeywordScore(r[j], keywords) && r[i].id < r[j].id)
    {
      assert Precedes(top[i], top[j]);
      assert r[i] == kb[top[i].pos] && r[j] == kb[top[j].pos];
    }
  }

  /** Exactly `min(top_k, #hits)` records come back. */
  lemma KeywordSearchLength(kb: seq<KnowledgeRecord>, keywords: seq<string>, topK: nat)
    ensures var n := |KeywordHits(kb, keywords)|;
      |KeywordSearch(kb, keywords, topK)| == if n <= topK then n else topK
  {
    KeywordTopSpec(kb, keywords, topK);
  }

  /** With at most `top_k` hits, every record with a positive score is returned. */
  lemma KeywordSearchKeepsAll(kb: seq<KnowledgeRecord>, keywords: seq<string>, topK: nat, j: nat)
    requires j < |kb| && KeywordScore(kb[j], keywords) > 0
    requires |KeywordHits(kb, keywords)| <= topK
    ensures kb[j] in KeywordSearch(kb, keywords, topK)
  {
    var x := HitAt(KeywordScores(kb, keywords), j);
    KeywordTopSpec(kb, keywords, topK);
    var top := KeywordTop(kb, keywords, topK);
    assert x in multiset(SortDesc(KeywordHits(kb, keywords)));
    var i :| 0 <= i < |top| && top[i] == x;
    assert KeywordSearch(kb, keywords, topK)[i] == kb[j];
  }

  /**
   * A record with a positive score that is left out ranks below every returned
   * record: a lower score, or the same score and a later place in the store.
   */
  lemma KeywordSearchDropsWorst(kb: seq<KnowledgeRecord>, keywords: seq<string>, topK: nat, j: nat)
    requires NumberedFrom(kb, 1)
    requires j < |kb| && KeywordScore(kb[j], keywords) > 0
    requires kb[j] !in KeywordSearch(kb, keywords, topK)
    ensures var r := KeywordSearch(kb, keywords, topK);
      forall i :: 0 <= i < |r| ==>
        KeywordScore(r[i], keywords) > KeywordScore(kb[j], keywords)
        || (KeywordScore(r[i], keywords) == KeywordScore(kb[j], keywords) && r[i].id < kb[j].id)
  {
    var scores := KeywordScores(kb, keywords);
    var x := HitAt(scores, j);
    PositiveHitsSpec(scores);
    KeywordTopSpec(kb, keywords, topK);
    var top := KeywordTop(kb, keywords, topK);
    var r := KeywordSearch(kb, keywords, topK);
    forall i | 0 <= i < |top| ensures top[i] != x {
      assert r[i] == kb[top[i].pos];
    }
    TakeDropsWorst(KeywordHits(kb, keywords), topK, x);
    forall i | 0 <= i < |r|
      ensures KeywordScore(r[i], keywords) > KeywordScore(kb[j], keywords)
        || (KeywordScore(r[i], keywords) == KeywordScore(kb[j], keywords) && r[i].id < kb[j].id)
    {
      assert Precedes(top[i], x);
      assert r[i] == kb[top[i].pos];
    }
  }

  // ---------------------------------------------------------------- vector search oracle

  /**
   * What the TF-IDF model computes for one query over the current `_texts`:
   * `order` is `np.argsort(sims)[::-1]` (store indices, most similar first) and
   * `sims` the cosine similarity of each record.
   */
  datatype VectorRanking = VectorRanking(order: seq<nat>, sims: seq<real>) {
    /** A ranking of a store of `n` records: a permutation of its indices with a similarity in [0, 1] each. */
    predicate Fits(n: nat) {
      && |order| == n && |sims| == n
      && (forall i :: 0 <= i < n ==> order[i] < n)
      && (forall i, j :: 0 <= i < j < n ==> order[i] != order[j])
      && (forall i :: 0 <= i < n ==> 0.0 <= sims[i] <= 1.0)
    }

    /** The order lists the most similar records first, as the reversed `argsort` does. */
    predicate MostSimilarFirst()
      requires Fits(|order|)
    {
      forall i, j :: 0 <= i < j < |order| ==> sims[order[i]] >= sims[order[j]]
    }
  }

  datatype VectorHit = VectorHit(record: KnowledgeRecord, similarity: real)

  /** The first `top_k` records in the oracle's order, each with its similarity. */
  function VectorResults(kb: seq<KnowledgeRecord>, ranking: VectorRanking, topK: nat): seq<VectorHit>
    requires ranking.Fits(|kb|)
  {
    var n := if |kb| <= topK then |kb| else topK;
    seq(n, i requires 0 <= i < n => VectorHit(kb[ranking.order[i]], ranking.sims[ranking.order[i]]))
  }

  /**
   * Vector search over a store numbered from 1 returns `min(top_k, n)` distinct
   * stored records with similarities in [0, 1].
   */
  lemma VectorResultsSpec(kb: seq<KnowledgeRecord>, ranking: VectorRanking, topK: nat)
    requires NumberedFrom(kb, 1) && ranking.Fits(|kb|)
    ensures var r := VectorResults(kb, ranking, topK);
      && |r| == (if |kb| <= topK then |kb| else topK)
      && (forall i :: 0 <= i < |r| ==> r[i].record in kb && 1 <= r[i].record.id <= |kb|)
      && (forall i :: 0 <= i < |r| ==> 0.0 <= r[i].similarity <= 1.0)
      && (forall i, j :: 0 <= i < j < |r| ==> r[i].record.id != r[j].record.id)
  {
    var r := VectorResults(kb, ranking, topK);
    var o := ranking.order;
    forall i | 0 <= i < |r|
      ensures r[i].record == kb[o[i]] && r[i].record.id == o[i] + 1
      ensures r[i].similarity == ranking.sims[o[i]]
    {
    }
    forall i, j | 0 <= i < j < |r|
      ensures r[i].record.id != r[j].record.id
    {
      assert o[i] != o[j];
    }
  }

  /** With a ranking that lists the most similar records first, the results never increase in similarity. */
  lemma VectorResultsOrdered(kb: seq<KnowledgeRecord>, ranking: VectorRanking, topK: nat)
    requires ranking.Fits(|kb|) && ranking.MostSimilarFirst()
    ensures var r := VectorResults(kb, ranking, topK);
      forall i, j :: 0 <= i < j < |r| ==> r[i].similarity >= r[j].similarity
  {
    var r := VectorResults(kb, ranking, topK);
    forall i, j | 0 <= i < j < |r|
      ensures r[i].similarity >= r[j].similarity
    {
      assert r[i].similarity == ranking.sims[ranking.order[i]];
      assert r[j].similarity == ranking.sims[ranking.order[j]];
    }
  }

  // ---------------------------------------------------------------- conversation retrieval

  predicate TurnMatches(t: ConversationTurn, loweredKeywords: seq<string>) {
    ContainsSome(Lower(t.message), loweredKeywords)
  }

  /** The turns, in log order, whose lower-cased message contains one of the keywords. */
  function MatchingTurns(turns: seq<ConversationTurn>, loweredKeywords: seq<string>): seq<ConversationTurn> {
    if turns == [] then []
    else
      var last := turns[|turns| - 1];
      MatchingTurns(turns[..|turns| - 1], loweredKeywords)
      + (if TurnMatches(last, loweredKeywords) then [last] else [])
  }

  /**
   * The filter keeps exactly the matching turns and keeps them in order:
   * filtering a concatenation concatenates the filtered parts.
   */
  lemma {:induction false} MatchingTurnsAppend(a: seq<ConversationTurn>, b: seq<ConversationTurn>, kws: seq<string>)
    ensures MatchingTurns(a + b, kws) == MatchingTurns(a, kws) + MatchingTurns(b, kws)
    decreases |b|
  {
    if b == [] {
      assert a + b == a;
    } else {
      var bi := b[..|b| - 1];
      assert (a + b)[..|a + b| - 1] == a + bi;
      MatchingTurnsAppend(a, bi, kws);
    }
  }

  /** A turn is retrieved exactly when it is in the log and matches. */
  lemma {:induction false} MatchingTurnsMembers(turns: seq<ConversationTurn>, kws: seq<string>)
    ensures forall t :: t in MatchingTurns(turns, kws) <==> t in turns && TurnMatches(t, kws)
  {
    if turns != [] {
      var init := turns[..|turns| - 1];
      MatchingTurnsMembers(init, kws);
      assert turns == init + [turns[|turns| - 1]];
    }
  }

  /**
   * The filter keeps order and multiplicity: the kept turns are the turns at
   * strictly increasing positions of the log, each matching, and every
   * matching position is among them.
   */
  lemma {:induction false} MatchingTurnsPositions(turns: seq<ConversationTurn>, kws: seq<string>)
    returns (js: seq<nat>)
    ensures var r := MatchingTurns(turns, kws);
      && |js| == |r|
      && (forall k :: 0 <= k < |js| ==> js[k] < |turns| && r[k] == turns[js[k]] && TurnMatches(turns[js[k]], kws))
      && (forall k, l :: 0 <= k < l < |js| ==> js[k] < js[l])
      && (forall j :: 0 <= j < |turns| && TurnMatches(turns[j], kws) ==> j in js)
  {
    if turns == [] {
      js := [];
    } else {
      var n := |turns| - 1;
      var init := turns[..n];
      var pre := MatchingTurnsPositions(init, kws);
      var r0 := MatchingTurns(init, kws);
      assert forall k :: 0 <= k < |pre| ==> turns[pre[k]] == init[pre[k]];
      if TurnMatches(turns[n], kws) {
        js := pre + [n];
        assert MatchingTurns(turns, kws) == r0 + [turns[n]];
      } else {
        js := pre;
        assert MatchingTurns(turns, kws) == r0;
      }
      forall j | 0 <= j < |turns| && TurnMatches(turns[j], kws)
        ensures j in js
      {
        if j < n {
          assert init[j] == turns[j];
          assert j in pre;
        } else {
          assert js[|js| - 1] == n;
        }
      }
    }
  }

  // ---------------------------------------------------------------- the store

  class MemoryAgent {
    var conversationMemory: seq<ConversationTurn>
    var knowledgeBase: seq<KnowledgeRecord>
    var agentState: seq<AgentNote>
    /** `_texts`: the document list the vectoriser is fitted on, one per record. */
    var texts: seq<string>
    /** `_ids`: the identifier strings, one per record. */
    var ids: seq<string>

    /** Records are numbered 1, 2, ... in insertion order and `_ids`/`_texts` stay aligned with them. */
    ghost predicate Valid()
      reads this
    {
      && NumberedFrom(knowledgeBase, 1)
      && ids == KbIds(knowledgeBase) && texts == SearchTexts(knowledgeBase)
    }

    constructor ()
      ensures Valid()
      ensures conversationMemory == [] && knowledgeBase == [] && agentState == []
    {
      conversationMemory, knowledgeBase, agentState := [], [], [];
      texts, ids := [], [];
    }

    /** Appends one turn; missing metadata defaults to the empty map (`metadata or {}`). */
    method StoreConversation(role: string, message: string, metadata: Option<Metadata> := None)
      returns (turn: ConversationTurn)
      requires Valid()
      modifies this
      ensures Valid()
      ensures turn == ConversationTurn(role, message, metadata.GetOr(map[]))
      ensures conversationMemory == old(conversationMemory) + [turn]
      ensures knowledgeBase == old(knowledgeBase) && agentState == old(agentState)
      ensures ids == old(ids) && texts == old(texts)
    {
      turn := ConversationTurn(role, message, metadata.GetOr(map[]));
      conversationMemory := conversationMemory + [turn];
    }

    /**
     * Appends a record numbered one past the current size (`kb_<n+1>`) and its
     * id and text to `_ids`/`_texts`; the vector index is refitted (not modelled).
     */
    method StoreKnowledge(title: string, text: string, source: string, agent: string, confidence: real := 0.8)
      returns (rec: KnowledgeRecord)
      requires Valid()
      modifies this
      ensures Valid()
      ensures rec == KnowledgeRecord(|old(knowledgeBase)| + 1, title, text, source, agent, confidence)
      ensures knowledgeBase == old(knowledgeBase) + [rec]
      ensures ids == old(ids) + [KbId(rec.id)] && texts == old(texts) + [title + " " + text]
      ensures conversationMemory == old(conversationMemory) && agentState == old(agentState)
    {
      rec := KnowledgeRecord(|knowledgeBase| + 1, title, text, source, agent, confidence);
      IndexedAppend(knowledgeBase, rec);
      knowledgeBase := knowledgeBase + [rec];
      ids := ids + [KbId(rec.id)];
      texts := texts + [title + " " + text];
    }

    /** Appends one agent-state note; the status defaults to "done". */
    method StoreAgentState(taskId: string, agent: string, note: string, status: string := "done")
      returns (n: AgentNote)
      requires Valid()
      modifies this
      ensures Valid()
      ensures n == AgentNote(taskId, agent, note, status)
      ensures agentState == old(agentState) + [n]
      ensures conversationMemory == old(conversationMemory) && knowledgeBase == old(knowledgeBase)
      ensures ids == old(ids) && texts == old(texts)
    {
      n := AgentNote(taskId, agent, note, status);
      agentState := agentState + [n];
    }

    /** `keyword_search_kb`: score every record, keep the positive ones, stable-sort by score, truncate. */
    method KeywordSearchKb(keywords: seq<string>, topK: nat := 5) returns (result: seq<KnowledgeRecord>)
      requires Valid()
      ensures result == KeywordSearch(knowledgeBase, keywords, topK)
      ensures |result| <= topK
      ensures forall i :: 0 <= i < |result| ==>
        result[i] in knowledgeBase && ContainsSome(Lower(SearchText(result[i])), LowerAll(keywords))
    {
      var kws := LowerAll(keywords);
      var hits: seq<Ranked> := [];
      var i := 0;
      while i < |knowledgeBase|
        invariant 0 <= i <= |knowledgeBase|
        invariant hits == KeywordHits(knowledgeBase[..i], keywords)
      {
        var rec := knowledgeBase[i];
        var txt := Lower(rec.title + " " + rec.text);
        var score := CountContained(kws, txt);
        assert KeywordScores(knowledgeBase[..i + 1], keywords) == KeywordScores(knowledgeBase[..i], keywords) + [score];
        PositiveHitsSnoc(KeywordScores(knowledgeBase[..i], keywords), score);
        if score > 0 {
          hits := hits + [Ranked(Key(score, 0), i)];
        }
        i := i + 1;
      }
      assert knowledgeBase[..i] == knowledgeBase;
      hits := SortDesc(hits);
      var top := Take(hits, topK);
      assert top == KeywordTop(knowledgeBase, keywords, topK);
      KeywordTopSpec(knowledgeBase, keywords, topK);
      result := ItemsAt(knowledgeBase, top);
      KeywordSearchSound(knowledgeBase, keywords, topK);
    }

    /**
     * `vector_search_kb`: no results while the store is empty; otherwise the
     * `min(top_k, n)` most similar records with their similarities, in the
     * order the oracle `ranking` gives them.
     */
    method VectorSearchKb(query: string, ranking: VectorRanking, topK: nat := 5) returns (result: seq<VectorHit>)
      requires Valid() && ranking.Fits(|knowledgeBase|)
      ensures result == VectorResults(knowledgeBase, ranking, topK)
      ensures knowledgeBase == [] ==> result == []
      ensures |result| == if |knowledgeBase| <= topK then |knowledgeBase| else topK
      ensures forall i :: 0 <= i < |result| ==> result[i].record in knowledgeBase
    {
      if |texts| == 0 {
        assert knowledgeBase == [];
        return [];
      }
      var kb, order, sims := knowledgeBase, ranking.order, ranking.sims;
      var n := if |kb| <= topK then |kb| else topK;
      result := [];
      var k := 0;
      while k < n
        invariant 0 <= k <= n
        invariant |result| == k
        invariant forall i :: 0 <= i < k ==> result[i] == VectorHit(kb[order[i]], sims[order[i]])
      {
        var idx := order[k];
        result := result + [VectorHit(kb[idx], sims[idx])];
        k := k + 1;
      }
      assert result == VectorResults(knowledgeBase, ranking, topK);
      VectorResultsSpec(knowledgeBase, ranking, topK);
    }

    /** `retrieve_conversation`: the turns whose lower-cased message contains a lower-cased keyword, in order. */
    function RetrieveConversation(topicKeywords: seq<string>): (r: seq<ConversationTurn>)
      reads this
      ensures r == MatchingTurns(conversationMemory, LowerAll(topicKeywords))
      ensures forall t :: t in r <==> t in conversationMemory && TurnMatches(t, LowerAll(topicKeywords))
    {
      MatchingTurnsMembers(conversationMemory, LowerAll(topicKeywords));
      MatchingTurns(conversationMemory, LowerAll(topicKeywords))
    }
  }
}
