/**
 * The analysis stage (`AnalysisAgent.analyze`): measure every candidate record
 * by a keyword-occurrence score and its word count, rank the candidates by the
 * pair (score, length) in descending order, render a numbered summary, store
 * it as a knowledge record and report a trace.
 */
module Analysis {
  import opened Wrappers
  import opened Text
  import opened Ranking
  import opened Memory

  /** The fixed domain keywords counted in a candidate's body text. */
  const AnalysisKeywords: seq<string> :=
    ["efficiency", "performance", "trade-off", "accuracy", "scalability", "compute", "parameters", "training"]

  const AnalysisConfidence: real := 0.85

  const NoItemsLine: string := "No items to analyze."

  /** One entry of `ranked` in the trace. */
  datatype RankedItem = RankedItem(id: nat, title: string, score: nat, length: nat, source: string)

  datatype AnalysisTrace = AnalysisTrace(
    taskId: string, agent: string, directive: string,
    ranked: seq<RankedItem>, summaryKbId: nat, confidence: real)

  // ---------------------------------------------------------------- measuring

  /** The total number of occurrences of the keywords `ks` in `txt`, summed from the last keyword back. */
  function SumCounts(ks: seq<string>, txt: string): nat {
    if ks == [] then 0 else SumCounts(ks[..|ks| - 1], txt) + Count(txt, ks[|ks| - 1])
  }

  /** The keyword score of a lower-cased body text. */
  function Density(txt: string): nat {
    SumCounts(AnalysisKeywords, txt)
  }

  /** Counting one more keyword adds its count. */
  lemma SumCountsSnoc(ks: seq<string>, k: string, txt: string)
    ensures SumCounts(ks + [k], txt) == SumCounts(ks, txt) + Count(txt, k)
  {
    assert (ks + [k])[..|ks|] == ks;
  }

  /** The score of a text is the sum of the eight keywords' occurrence counts. */
  lemma DensityTerms(txt: string)
    ensures Density(txt) ==
      Count(txt, "efficiency") + Count(txt, "performance") + Count(txt, "trade-off")
      + Count(txt, "accuracy") + Count(txt, "scalability") + Count(txt, "compute")
      + Count(txt, "parameters") + Count(txt, "training")
  {
    var k1 := ["efficiency"];
    var k2 := k1 + ["performance"];
    var k3 := k2 + ["trade-off"];
    var k4 := k3 + ["accuracy"];
    var k5 := k4 + ["scalability"];
    var k6 := k5 + ["compute"];
    var k7 := k6 + ["parameters"];
    var k8 := k7 + ["training"];
    assert [] + ["efficiency"] == k1;
    SumCountsSnoc([], "efficiency", txt);
    SumCountsSnoc(k1, "performance", txt);
    SumCountsSnoc(k2, "trade-off", txt);
    SumCountsSnoc(k3, "accuracy", txt);
    SumCountsSnoc(k4, "scalability", txt);
    SumCountsSnoc(k5, "compute", txt);
    SumCountsSnoc(k6, "parameters", txt);
    SumCountsSnoc(k7, "training", txt);
    assert k8 == AnalysisKeywords;
  }

  /** A body with "efficiency" three times and "trade-off" once scores at least 4. */
  lemma DensityExample(txt: string)
    requires Count(txt, "efficiency") >= 3 && Count(txt, "trade-off") >= 1
    ensures Density(txt) >= 4
  {
    DensityTerms(txt);
  }

  /** The measurement of one candidate: score and word count of its lower-cased body (not its title). */
  function Measure(rec: KnowledgeRecord): RankedItem {
    var txt := Lower(rec.text);
    RankedItem(rec.id, rec.title, Density(txt), |Split(txt)|, rec.source)
  }

  function Measured(items: seq<KnowledgeRecord>): (r: seq<RankedItem>)
    ensures |r| == |items|
  {
    seq(|items|, i requires 0 <= i < |items| => Measure(items[i]))
  }

  // ---------------------------------------------------------------- ranking

  /** The sort key `(score, length)` of each measured entry, with its position. */
  function SortKeys(ms: seq<RankedItem>): (r: seq<Ranked>)
    ensures |r| == |ms|
  {
    seq(|ms|, i requires 0 <= i < |ms| => Ranked(Key(ms[i].score, ms[i].length), i))
  }

  /** The candidates' positions, sorted by (score, length), highest first, with ties in candidate order. */
  function RankOrder(items: seq<KnowledgeRecord>): seq<Ranked> {
    SortDesc(SortKeys(Measured(items)))
  }

  /** Some entry of `order` sits at position `j`. */
  predicate HasPos(order: seq<Ranked>, j: nat) {
    exists i :: 0 <= i < |order| && order[i].pos == j
  }

  /**
   * The sorted positions: one per candidate, each carrying that candidate's
   * key, in rank order.
   */
  lemma RankOrderSpec(items: seq<KnowledgeRecord>)
    ensures var order := RankOrder(items);
      var ms := Measured(items);
      && |order| == |items|
      && InRankOrder(order)
      && (forall i :: 0 <= i < |order| ==>
            order[i].pos < |items| && order[i].key == Key(ms[order[i].pos].score, ms[order[i].pos].length))
  {
    var ms := Measured(items);
    var keys := SortKeys(ms);
    var order := RankOrder(items);
    SortDescInOrder(keys);
    forall i | 0 <= i < |order|
      ensures order[i].pos < |items| && order[i].key == Key(ms[order[i].pos].score, ms[order[i].pos].length)
    {
      assert order[i] in multiset(keys);
      var k :| 0 <= k < |keys| && keys[k] == order[i];
    }
  }

  /** Every candidate's position occurs among the sorted positions. */
  lemma RankOrderCovers(items: seq<KnowledgeRecord>)
    ensures forall j :: 0 <= j < |items| ==> HasPos(RankOrder(items), j)
  {
    var keys := SortKeys(Measured(items));
    var order := RankOrder(items);
    forall j | 0 <= j < |items| ensures HasPos(order, j) {
      assert keys[j] in multiset(order);
      var i :| 0 <= i < |order| && order[i] == keys[j];
    }
  }

  /** `ranked`: the measured candidates in sorted order. */
  function RankItems(items: seq<KnowledgeRecord>): seq<RankedItem> {
    RankOrderSpec(items);
    ItemsAt(Measured(items), RankOrder(items))
  }

  /** `ranked` has one entry per candidate, and each entry measures the candidate at its sorted position. */
  lemma RankItemsFromCandidates(items: seq<KnowledgeRecord>)
    ensures var ranked := RankItems(items);
      var order := RankOrder(items);
      && |ranked| == |items| && |order| == |items|
      && forall i :: 0 <= i < |ranked| ==> order[i].pos < |items| && ranked[i] == Measure(items[order[i].pos])
  {
    RankOrderSpec(items);
  }

  /** Every candidate is measured somewhere in `ranked`. */
  lemma RankItemsCoverAll(items: seq<KnowledgeRecord>)
    ensures var ranked := RankItems(items);
      forall j :: 0 <= j < |items| ==> Measure(items[j]) in ranked
  {
    RankOrderSpec(items);
    RankOrderCovers(items);
    var order := RankOrder(items);
    var ranked := RankItems(items);
    forall j | 0 <= j < |items| ensures Measure(items[j]) in ranked {
      assert HasPos(order, j);
      var i :| 0 <= i < |order| && order[i].pos == j;
      assert ranked[i] == Measure(items[j]);
    }
  }

  /**
   * `ranked` is non-increasing in (score, length) compared lexicographically,
   * and entries with equal pairs keep the candidates' order.
   */
  lemma RankItemsSorted(items: seq<KnowledgeRecord>)
    ensures var ranked := RankItems(items);
      var order := RankOrder(items);
      && |order| == |ranked|
      && forall i, j :: 0 <= i < j < |ranked| ==>
           ranked[i].score > ranked[j].score
           || (ranked[i].score == ranked[j].score && ranked[i].length > ranked[j].length)
           || (ranked[i].score == ranked[j].score && ranked[i].length == ranked[j].length
               && order[i].pos < order[j].pos)
  {
    RankOrderSpec(items);
    var order := RankOrder(items);
    var ranked := RankItems(items);
    forall i, j | 0 <= i < j < |ranked|
      ensures ranked[i].score > ranked[j].score
           || (ranked[i].score == ranked[j].score && ranked[i].length > ranked[j].length)
           || (ranked[i].score == ranked[j].score && ranked[i].length == ranked[j].length
               && order[i].pos < order[j].pos)
    {
      assert Precedes(order[i], order[j]);
    }
  }

  // ---------------------------------------------------------------- summary

  function Header(taskId: string, directive: string): string {
    "Analysis for task " + taskId + " - directive: " + directive
  }

  /** The summary line of the entry ranked `rank` (counted from 1). */
  function RankLine(rank: nat, r: RankedItem): string {
    Decimal(rank) + ". " + r.title + " (score=" + Decimal(r.score) + ", length=" + Decimal(r.length)
      + ", source=" + r.source + ")"
  }

  function RankLines(ranked: seq<RankedItem>): (r: seq<string>)
    ensures |r| == |ranked|
  {
    seq(|ranked|, i requires 0 <= i < |ranked| => RankLine(i + 1, ranked[i]))
  }

  /** `summary_lines`: the header, one line per ranked entry, and a closing line when there is none. */
  function SummaryLines(taskId: string, directive: string, ranked: seq<RankedItem>): seq<string> {
    [Header(taskId, directive)] + RankLines(ranked) + (if ranked == [] then [NoItemsLine] else [])
  }

  function Summary(taskId: string, directive: string, ranked: seq<RankedItem>): string {
    Join(SummaryLines(taskId, directive, ranked), "\n")
  }

  /** A ranked line starts with its rank's digits, so it is never the closing line. */
  lemma RankLineIsNotNoItems(rank: nat, r: RankedItem)
    ensures RankLine(rank, r) != NoItemsLine
  {
    DecimalRoundTrip(rank);
    assert RankLine(rank, r)[0] == Decimal(rank)[0];
    assert IsDigit(Decimal(rank)[0]);
  }

  /** "No items to analyze." is a summary line exactly when there is nothing to rank. */
  lemma NoItemsIffEmpty(taskId: string, directive: string, ranked: seq<RankedItem>)
    ensures NoItemsLine in SummaryLines(taskId, directive, ranked) <==> ranked == []
  {
    var lines := SummaryLines(taskId, directive, ranked);
    assert Header(taskId, directive)[0] == 'A';
    if ranked != [] {
      forall k | 0 <= k < |lines| ensures lines[k] != NoItemsLine {
        if k > 0 {
          RankLineIsNotNoItems(k, ranked[k - 1]);
        }
      }
    } else {
      assert lines[1] == NoItemsLine;
    }
  }

  /** The summary starts with the header naming the task and the directive. */
  lemma SummaryStartsWithHeader(taskId: string, directive: string, ranked: seq<RankedItem>)
    ensures StartsWith(Summary(taskId, directive, ranked), Header(taskId, directive))
  {
    JoinStartsWithFirst(SummaryLines(taskId, directive, ranked), "\n");
  }

  /** The record `store_knowledge` creates for the summary when the store held `n` records. */
  function SummaryRecord(n: nat, taskId: string, summary: string): KnowledgeRecord {
    KnowledgeRecord(n + 1, "Analysis:" + taskId, summary, "AnalysisAgent", "AnalysisAgent", AnalysisConfidence)
  }

  function AnalysisNote(count: nat): string {
    "Analyzed " + Decimal(count) + " items"
  }

  /** The summary record, stored after a store numbered 1..n, is found again under its id. */
  lemma SummaryResolves(kb: seq<KnowledgeRecord>, taskId: string, summary: string)
    requires NumberedFrom(kb, 1)
    ensures var rec := SummaryRecord(|kb|, taskId, summary);
      NumberedFrom(kb + [rec], 1) && FindRecord(kb + [rec], rec.id) == Some(rec)
  {
    var rec := SummaryRecord(|kb|, taskId, summary);
    FindNumbered(kb + [rec], 1, rec.id);
  }

  // ---------------------------------------------------------------- the stage

  /** The measuring loop of `analyze`. */
  method MeasureItems(items: seq<KnowledgeRecord>) returns (results: seq<RankedItem>)
    ensures results == Measured(items)
  {
    results := [];
    var i := 0;
    while i < |items|
      invariant 0 <= i <= |items|
      invariant results == Measured(items[..i])
    {
      var rec := items[i];
      var txt := Lower(rec.text);
      var score := 0;
      var k := 0;
      while k < |AnalysisKeywords|
        invariant 0 <= k <= |AnalysisKeywords|
        invariant score == SumCounts(AnalysisKeywords[..k], txt)
      {
        assert AnalysisKeywords[..k + 1][..k] == AnalysisKeywords[..k];
        score := score + Count(txt, AnalysisKeywords[k]);
        k := k + 1;
      }
      assert AnalysisKeywords[..k] == AnalysisKeywords;
      var length := |Split(txt)|;
      assert Measured(items[..i + 1]) == Measured(items[..i]) + [Measure(rec)];
      results := results + [RankedItem(rec.id, rec.title, score, length, rec.source)];
      i := i + 1;
    }
    assert items[..i] == items;
  }

  /** The rendering loop of `analyze`: the summary lines for `ranked`. */
  method RenderSummary(taskId: string, directive: string, ranked: seq<RankedItem>) returns (lines: seq<string>)
    ensures lines == SummaryLines(taskId, directive, ranked)
  {
    lines := [Header(taskId, directive)];
    var i := 0;
    while i < |ranked|
      invariant 0 <= i <= |ranked|
      invariant lines == [Header(taskId, directive)] + RankLines(ranked)[..i]
    {
      assert RankLines(ranked)[..i + 1] == RankLines(ranked)[..i] + [RankLine(i + 1, ranked[i])];
      lines := lines + [RankLine(i + 1, ranked[i])];
      i := i + 1;
    }
    assert RankLines(ranked)[..i] == RankLines(ranked);
    if |ranked| == 0 {
      lines := lines + [NoItemsLine];
    }
  }

  /** The trace `analyze` returns when the store held `n` records on entry. */
  function AnalysisResult(items: seq<KnowledgeRecord>, directive: string, taskId: string, n: nat): AnalysisTrace {
    AnalysisTrace(taskId, "AnalysisAgent", directive, RankItems(items), n + 1, AnalysisConfidence)
  }

  class AnalysisAgent {
    /** The shared store. */
    const memory: MemoryAgent

    constructor (memory: MemoryAgent)
      ensures this.memory == memory
    {
      this.memory := memory;
    }

    /**
     * `analyze(items, directive, task_id)`.  `failure` is an error raised on
     * entry to the stage, before it has any effect.
     */
    method Analyze(items: seq<KnowledgeRecord>, directive: string, taskId: string,
                   failure: Option<string> := None)
      returns (outcome: Result<AnalysisTrace>)
      requires memory.Valid()
      modifies memory
      ensures memory.Valid()
      ensures failure.Some? ==> outcome == Failure(failure.value) && unchanged(memory)
      ensures failure.None? ==>
        var n := |old(memory.knowledgeBase)|;
        var ranked := RankItems(items);
        && memory.knowledgeBase == old(memory.knowledgeBase) + [SummaryRecord(n, taskId, Summary(taskId, directive, ranked))]
        && memory.agentState == old(memory.agentState) + [AgentNote(taskId, "AnalysisAgent", AnalysisNote(|items|), "done")]
        && memory.conversationMemory == old(memory.conversationMemory)
        && outcome == Success(AnalysisResult(items, directive, taskId, n))
    {
      if failure.Some? {
        return Failure(failure.value);
      }
      var results := MeasureItems(items);
      RankOrderSpec(items);
      var order := SortDesc(SortKeys(results));
      var ranked := ItemsAt(results, order);
      assert ranked == RankItems(items);

      var lines := RenderSummary(taskId, directive, ranked);
      var summary := Join(lines, "\n");
      var rec := memory.StoreKnowledge("Analysis:" + taskId, summary, "AnalysisAgent", "AnalysisAgent", AnalysisConfidence);
      var _ := memory.StoreAgentState(taskId, "AnalysisAgent", AnalysisNote(|ranked|), "done");
      outcome := Success(AnalysisTrace(taskId, "AnalysisAgent", directive, ranked, rec.id, AnalysisConfidence));
    }
  }
}
