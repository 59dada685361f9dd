/** `GlobeNewsPostProcessor`: fetch a batch of pending articles, process each
    one, write the curated ones back, quarantine the failed ones, and repeat
    until a fetch comes back empty. */
module GlobeNews {
  import opened Wrappers
  import opened Models
  import opened Sequences
  import opened PostProcessor
  import opened Database

  // ---------------------------------------------------------------------------
  // _process_batch
  // ---------------------------------------------------------------------------

  /** `process_article` applied to every article of the batch, in order. */
  function Results(articles: seq<GlobeArticle>, llm: LlmOracle, translate: TranslateOracle): seq<ProcessResult> {
    if articles == [] then []
    else [ProcessArticle(articles[0], llm, translate)] + Results(articles[1..], llm, translate)
  }

  /** The curated articles among the results, in order. */
  function CuratedOf(rs: seq<ProcessResult>): seq<GlobeArticle> {
    if rs == [] then []
    else (if rs[0].Processed? then [rs[0].curated] else []) + CuratedOf(rs[1..])
  }

  /** The failed articles among the results, in order. */
  function FailedOf(rs: seq<ProcessResult>): seq<FailedGlobeArticle> {
    if rs == [] then []
    else (if rs[0].Failed? then [rs[0].failed] else []) + FailedOf(rs[1..])
  }

  /** The token usage summed over the successfully processed articles. */
  function TotalUsage(rs: seq<ProcessResult>): TokenUsage {
    if rs == [] then TokenUsage(0, 0)
    else (if rs[0].Processed? then rs[0].usage else TokenUsage(0, 0)).Plus(TotalUsage(rs[1..]))
  }

  lemma {:induction false} ResultsAppend(a: seq<GlobeArticle>, b: seq<GlobeArticle>, llm: LlmOracle, translate: TranslateOracle)
    ensures Results(a + b, llm, translate) == Results(a, llm, translate) + Results(b, llm, translate)
  {
    if a == [] {
      assert a + b == b;
    } else {
      assert (a + b)[0] == a[0] && (a + b)[1..] == a[1..] + b;
      ResultsAppend(a[1..], b, llm, translate);
      var r := [ProcessArticle(a[0], llm, translate)];
      assert r + (Results(a[1..], llm, translate) + Results(b, llm, translate))
          == (r + Results(a[1..], llm, translate)) + Results(b, llm, translate);
    }
  }

  /** Processing a batch distributes over splitting it. */
  lemma {:induction false} PartitionAppend(a: seq<ProcessResult>, b: seq<ProcessResult>)
    ensures CuratedOf(a + b) == CuratedOf(a) + CuratedOf(b)
    ensures FailedOf(a + b) == FailedOf(a) + FailedOf(b)
    ensures TotalUsage(a + b) == TotalUsage(a).Plus(TotalUsage(b))
  {
    if a == [] {
      assert a + b == b;
    } else {
      assert (a + b)[0] == a[0] && (a + b)[1..] == a[1..] + b;
      PartitionAppend(a[1..], b);
      var pc := if a[0].Processed? then [a[0].curated] else [];
      var pf := if a[0].Failed? then [a[0].failed] else [];
      assert pc + (CuratedOf(a[1..]) + CuratedOf(b)) == (pc + CuratedOf(a[1..])) + CuratedOf(b);
      assert pf + (FailedOf(a[1..]) + FailedOf(b)) == (pf + FailedOf(a[1..])) + FailedOf(b);
    }
  }

  /** Processing one more article of the batch. */
  lemma {:induction false} ResultsSnoc(articles: seq<GlobeArticle>, i: nat, llm: LlmOracle, translate: TranslateOracle)
    requires i < |articles|
    ensures Results(articles[..i + 1], llm, translate)
         == Results(articles[..i], llm, translate) + [ProcessArticle(articles[i], llm, translate)]
  {
    assert articles[..i + 1] == articles[..i] + [articles[i]];
    ResultsAppend(articles[..i], [articles[i]], llm, translate);
  }

  /** One more result extends the lists and the usage total. */
  lemma {:induction false} PartitionSnoc(rs: seq<ProcessResult>, r: ProcessResult)
    ensures CuratedOf(rs + [r]) == CuratedOf(rs) + (if r.Processed? then [r.curated] else [])
    ensures FailedOf(rs + [r]) == FailedOf(rs) + (if r.Failed? then [r.failed] else [])
    ensures TotalUsage(rs + [r]) == TotalUsage(rs).Plus(if r.Processed? then r.usage else TokenUsage(0, 0))
  {
    SingleResult(r);
    PartitionAppend(rs, [r]);
  }

  /** One iteration of the batch loop: processing `articles[i]` extends the
      lists and the usage total of the first `i` results by its own result. */
  lemma BatchStep(articles: seq<GlobeArticle>, i: nat, llm: LlmOracle, translate: TranslateOracle, r: ProcessResult)
    requires i < |articles| && r == ProcessArticle(articles[i], llm, translate)
    ensures var rs, next := Results(articles[..i], llm, translate), Results(articles[..i + 1], llm, translate);
      && CuratedOf(next) == CuratedOf(rs) + (if r.Processed? then [r.curated] else [])
      && FailedOf(next) == FailedOf(rs) + (if r.Failed? then [r.failed] else [])
      && TotalUsage(next) == TotalUsage(rs).Plus(if r.Processed? then r.usage else TokenUsage(0, 0))
  {
    ResultsSnoc(articles, i, llm, translate);
    PartitionSnoc(Results(articles[..i], llm, translate), r);
  }

  lemma {:induction false} SingleResult(r: ProcessResult)
    ensures CuratedOf([r]) == if r.Processed? then [r.curated] else []
    ensures FailedOf([r]) == if r.Failed? then [r.failed] else []
    ensures TotalUsage([r]) == if r.Processed? then r.usage else TokenUsage(0, 0)
  {
    assert [r][1..] == [];
    assert [r][0] == r;
  }

  /** Every result lands in exactly one of the two lists. */
  lemma {:induction false} PartitionSizes(rs: seq<ProcessResult>)
    ensures |CuratedOf(rs)| + |FailedOf(rs)| == |rs|
  {
    if rs != [] {
      PartitionSizes(rs[1..]);
    }
  }

  /** Every curated article satisfies what `CuratedGlobeArticle` validates. */
  lemma {:induction false} AllCurated(articles: seq<GlobeArticle>, llm: LlmOracle, translate: TranslateOracle)
    ensures forall c :: c in CuratedOf(Results(articles, llm, translate)) ==> IsCurated(c)
  {
    if articles != [] {
      AllCurated(articles[1..], llm, translate);
    }
  }

  /** Every failed entry carries an input article unchanged. */
  lemma {:induction false} FailedAreInputs(articles: seq<GlobeArticle>, llm: LlmOracle, translate: TranslateOracle)
    ensures forall f :: f in FailedOf(Results(articles, llm, translate)) ==> f.article in articles
  {
    if articles != [] {
      FailedAreInputs(articles[1..], llm, translate);
    }
  }

  lemma IdsCons(articles: seq<GlobeArticle>)
    requires articles != []
    ensures Ids(articles) == [articles[0].id] + Ids(articles[1..])
  {
    assert forall i :: 1 <= i < |articles| ==> articles[1..][i - 1] == articles[i];
  }

  lemma IdsAppend(a: seq<GlobeArticle>, b: seq<GlobeArticle>)
    ensures Ids(a + b) == Ids(a) + Ids(b)
  {
    assert forall i :: 0 <= i < |a + b| ==> (a + b)[i] == if i < |a| then a[i] else b[i - |a|];
  }

  lemma FailedIdsAppend(a: seq<FailedGlobeArticle>, b: seq<FailedGlobeArticle>)
    ensures FailedIds(a + b) == FailedIds(a) + FailedIds(b)
  {
    assert forall i :: 0 <= i < |a + b| ==> (a + b)[i] == if i < |a| then a[i] else b[i - |a|];
  }

  /** The ids of the results, in order. */
  function ResultIds(rs: seq<ProcessResult>): seq<ArticleId> {
    if rs == [] then [] else [rs[0].Id()] + ResultIds(rs[1..])
  }

  /** Processing keeps each article's id. */
  lemma {:induction false} ResultIdsOf(articles: seq<GlobeArticle>, llm: LlmOracle, translate: TranslateOracle)
    ensures ResultIds(Results(articles, llm, translate)) == Ids(articles)
  {
    if articles != [] {
      ResultIdsOf(articles[1..], llm, translate);
      IdsCons(articles);
    }
  }

  /** Both lists keep the order of the results. */
  lemma {:induction false} PartitionOrder(rs: seq<ProcessResult>)
    ensures Subsequence(Ids(CuratedOf(rs)), ResultIds(rs))
    ensures Subsequence(FailedIds(FailedOf(rs)), ResultIds(rs))
  {
    if rs != [] {
      var r := rs[0];
      PartitionOrder(rs[1..]);
      var pc := if r.Processed? then [r.curated] else [];
      var pf := if r.Failed? then [r.failed] else [];
      IdsAppend(pc, CuratedOf(rs[1..]));
      FailedIdsAppend(pf, FailedOf(rs[1..]));
      assert Ids(pc) == if r.Processed? then [r.Id()] else [];
      assert FailedIds(pf) == if r.Failed? then [r.Id()] else [];
      SubsequenceCons(r.Id(), Ids(CuratedOf(rs[1..])), ResultIds(rs[1..]), r.Processed?);
      SubsequenceCons(r.Id(), FailedIds(FailedOf(rs[1..])), ResultIds(rs[1..]), r.Failed?);
    }
  }

  /** Together the two lists hold each result's id once. */
  lemma {:induction false} PartitionIds(rs: seq<ProcessResult>)
    ensures multiset(Ids(CuratedOf(rs))) + multiset(FailedIds(FailedOf(rs))) == multiset(ResultIds(rs))
  {
    if rs != [] {
      PartitionIds(rs[1..]);
      CuratedIdsStep(rs);
      FailedIdsStep(rs);
      assert multiset(ResultIds(rs)) == multiset{rs[0].Id()} + multiset(ResultIds(rs[1..]));
    }
  }

  lemma CuratedIdsStep(rs: seq<ProcessResult>)
    requires rs != []
    ensures multiset(Ids(CuratedOf(rs)))
         == (if rs[0].Processed? then multiset{rs[0].Id()} else multiset{}) + multiset(Ids(CuratedOf(rs[1..])))
  {
    var pc := if rs[0].Processed? then [rs[0].curated] else [];
    IdsAppend(pc, CuratedOf(rs[1..]));
    assert Ids(pc) == if rs[0].Processed? then [rs[0].Id()] else [];
  }

  lemma FailedIdsStep(rs: seq<ProcessResult>)
    requires rs != []
    ensures multiset(FailedIds(FailedOf(rs)))
         == (if rs[0].Failed? then multiset{rs[0].Id()} else multiset{}) + multiset(FailedIds(FailedOf(rs[1..])))
  {
    var pf := if rs[0].Failed? then [rs[0].failed] else [];
    FailedIdsAppend(pf, FailedOf(rs[1..]));
    assert FailedIds(pf) == if rs[0].Failed? then [rs[0].Id()] else [];
  }

  /** The curated articles and the failed ones keep the order of the batch. */
  lemma BatchOrderKept(articles: seq<GlobeArticle>, llm: LlmOracle, translate: TranslateOracle)
    ensures Subsequence(Ids(CuratedOf(Results(articles, llm, translate))), Ids(articles))
    ensures Subsequence(FailedIds(FailedOf(Results(articles, llm, translate))), Ids(articles))
  {
    ResultIdsOf(articles, llm, translate);
    PartitionOrder(Results(articles, llm, translate));
  }

  /** No article is dropped or duplicated: the ids of the two lists together
      are the ids of the batch. */
  lemma IdsConserved(articles: seq<GlobeArticle>, llm: LlmOracle, translate: TranslateOracle)
    ensures multiset(Ids(CuratedOf(Results(articles, llm, translate))))
          + multiset(FailedIds(FailedOf(Results(articles, llm, translate))))
         == multiset(Ids(articles))
  {
    ResultIdsOf(articles, llm, translate);
    PartitionIds(Results(articles, llm, translate));
  }

  /** Token usage only grows as results are added. */
  lemma TotalUsageMonotone(a: seq<ProcessResult>, b: seq<ProcessResult>)
    ensures TotalUsage(a).inputTokens <= TotalUsage(a + b).inputTokens
    ensures TotalUsage(a).outputTokens <= TotalUsage(a + b).outputTokens
  {
    PartitionAppend(a, b);
  }

  /** A batch in which every article failed used no counted tokens. */
  lemma {:induction false} NoCuratedNoUsage(rs: seq<ProcessResult>)
    requires CuratedOf(rs) == []
    ensures TotalUsage(rs) == TokenUsage(0, 0)
  {
    if rs != [] {
      NoCuratedNoUsage(rs[1..]);
    }
  }

  // ---------------------------------------------------------------------------
  // The processing loop
  // ---------------------------------------------------------------------------

  /** `FaultCount + |pending|`: every round that does not stop the loop makes
      this smaller. */
  function Measure(s: Store, schemaVersion: string): nat {
    FaultCount(s.replies) + |Pending(s, schemaVersion)|
  }

  /** One round of `process_pending_articles` after a non-empty fetch: the
      update and the move either meet a fault or take a pending document out
      of the pending set, and never make either larger. */
  lemma RoundShrinks(s: Store, schemaVersion: string, curated: seq<GlobeArticle>, failed: seq<FailedGlobeArticle>, h: Handling)
    requires WellKeyed(s) && s.Next() == Normal
    requires curated != [] ==> curated[0].id in Pending(s, schemaVersion)
    requires curated == [] ==> failed != [] && failed[0].article.id in Pending(s, schemaVersion)
    ensures WellKeyed(s.Advance()) && WellKeyed(UpdateAll(s.Advance(), curated).store)
    ensures var u := MoveAll(UpdateAll(s.Advance(), curated).store, failed, h).store;
      Measure(u, schemaVersion) < Measure(s, schemaVersion) && FaultCount(u.replies) <= FaultCount(s.replies)
  {
    var t := s.Advance();
    assert Pending(t, schemaVersion) == Pending(s, schemaVersion);
    var r := UpdateAll(t, curated).store;
    UpdateAllFrame(t, curated);
    FrameShrinks(t, r, Ids(curated), schemaVersion);
    var u := MoveAll(r, failed, h).store;
    MoveAllFrame(r, failed, h);
    MoveFrameShrinks(r, u, failed, schemaVersion);
    if curated != [] {
      UpdateProgress(t, curated, schemaVersion);
    } else {
      assert r == t;
      MoveProgress(t, failed, schemaVersion, h);
    }
    SubsetNotLarger(Pending(u, schemaVersion), Pending(t, schemaVersion));
    if Pending(u, schemaVersion) < Pending(t, schemaVersion) {
      ProperSubsetSmaller(Pending(u, schemaVersion), Pending(t, schemaVersion));
    }
  }

  /** With no faults left, a round neither meets one nor lets an exception
      out. */
  lemma RoundFaultFree(t: Store, curated: seq<GlobeArticle>, failed: seq<FailedGlobeArticle>, h: Handling)
    requires WellKeyed(t) && FaultCount(t.replies) == 0
    ensures WellKeyed(UpdateAll(t, curated).store)
    ensures var run := MoveAll(UpdateAll(t, curated).store, failed, h);
      !run.end.Escaped? && FaultCount(run.store.replies) == 0
  {
    UpdateAllFrame(t, curated);
    FrameShrinks(t, UpdateAll(t, curated).store, Ids(curated), "");
    UpdateFaultFree(t, curated);
    MoveFaultFreeNoEscape(UpdateAll(t, curated).store, failed, h);
  }

  /** A fetch that came back empty ends the loop: nothing is pending, or it
      met a fault. */
  lemma FetchedNothing(s: Store, schemaVersion: string, batchSize: int)
    requires s.Next() == Normal ==> IsFetchResult(s.articles, schemaVersion, batchSize, [])
    ensures var t := s.Advance();
      && FaultCount(t.replies) <= FaultCount(s.replies)
      && (Pending(t, schemaVersion) == {} || FaultCount(t.replies) < FaultCount(s.replies))
      && (FaultCount(s.replies) == 0 ==> Pending(t, schemaVersion) == {})
  {
    if s.Next() == Normal {
      FetchEmptyIff(s.articles, schemaVersion, batchSize, []);
    }
  }

  /** The three calls of a round, appended in two steps, are one extension of
      the record. Kept as a lemma of its own: proved inside `ProcessRound`, the
      same step is too costly for the verifier among that method's facts. */
  lemma ThreeCalls(c0: seq<Call>, c1: seq<Call>, c2: seq<Call>, x: Call, y: Call, z: Call)
    requires c1 == c0 + [x] && c2 == c1 + [y, z]
    ensures c2 == c0 + [x, y, z]
  {
  }

  /** A completed round extends the record of calls by one round. */
  lemma RoundRecorded(c0: seq<Call>, before: seq<Call>, after: seq<Call>,
                      articles: seq<GlobeArticle>, batchSize: int, llm: LlmOracle, translate: TranslateOracle)
    requires c0 <= before && Rounds(before[|c0|..], batchSize, llm, translate)
    requires articles != []
    requires var rs := Results(articles, llm, translate);
      after == before + [Fetched(batchSize, articles), UpdateRequested(CuratedOf(rs)), MoveRequested(FailedOf(rs))]
    ensures c0 <= after && after[|c0|..] != [] && Rounds(after[|c0|..], batchSize, llm, translate)
  {
    var rs := Results(articles, llm, translate);
    var round := [Fetched(batchSize, articles), UpdateRequested(CuratedOf(rs)), MoveRequested(FailedOf(rs))];
    RoundsAppend(before[|c0|..], round, batchSize, llm, translate);
    PrefixAppend(c0, before, round);
  }

  /** The record of calls when the loop stops at an empty fetch: whole rounds,
      then that fetch. */
  lemma EmptyFetchRecorded(c0: seq<Call>, before: seq<Call>, after: seq<Call>,
                           batchSize: int, llm: LlmOracle, translate: TranslateOracle)
    requires c0 <= before && Rounds(before[|c0|..], batchSize, llm, translate)
    requires after == before + [Fetched(batchSize, [])]
    ensures c0 <= after
    ensures var trace := after[|c0|..];
      && trace != [] && trace[|trace| - 1] == Fetched(batchSize, [])
      && Rounds(trace[..|trace| - 1], batchSize, llm, translate)
  {
    var done := before[|c0|..];
    PrefixAppend(c0, before, [Fetched(batchSize, [])]);
    AppendSplit(done, [Fetched(batchSize, [])], |done|);
    assert done[..|done|] == done;
  }

  /** The first curated or, failing that, the first failed article of a
      fetched batch is one of the batch's pending documents. */
  lemma {:induction false} FirstIsPending(articles: seq<GlobeArticle>, llm: LlmOracle, translate: TranslateOracle, pending: set<ArticleId>)
    requires articles != [] && forall i :: 0 <= i < |articles| ==> articles[i].id in pending
    ensures var rs := Results(articles, llm, translate);
      && (CuratedOf(rs) != [] ==> CuratedOf(rs)[0].id in pending)
      && (CuratedOf(rs) == [] ==> FailedOf(rs) != [] && FailedOf(rs)[0].article.id in pending)
  {
    var rs := Results(articles, llm, translate);
    BatchOrderKept(articles, llm, translate);
    PartitionSizes(rs);
    SubsequenceMembers(Ids(CuratedOf(rs)), Ids(articles));
    SubsequenceMembers(FailedIds(FailedOf(rs)), Ids(articles));
    if CuratedOf(rs) != [] {
      assert Ids(CuratedOf(rs))[0] in Ids(articles);
    } else {
      assert FailedIds(FailedOf(rs))[0] in Ids(articles);
    }
  }

  /** One round of the loop as the handler sees it: a non-empty fetch, the
      update of its curated articles, the move of its failed ones. */
  predicate IsRound(round: seq<Call>, batchSize: int, llm: LlmOracle, translate: TranslateOracle) {
    && |round| == 3
    && round[0].Fetched? && round[0].batchSize == batchSize && round[0].batch != []
    && round[1] == UpdateRequested(CuratedOf(Results(round[0].batch, llm, translate)))
    && round[2] == MoveRequested(FailedOf(Results(round[0].batch, llm, translate)))
  }

  predicate Rounds(trace: seq<Call>, batchSize: int, llm: LlmOracle, translate: TranslateOracle)
    decreases |trace|
  {
    trace == [] || (|trace| >= 3 && IsRound(trace[..3], batchSize, llm, translate) && Rounds(trace[3..], batchSize, llm, translate))
  }

  lemma {:induction false} RoundsAppend(trace: seq<Call>, round: seq<Call>, batchSize: int, llm: LlmOracle, translate: TranslateOracle)
    requires Rounds(trace, batchSize, llm, translate) && IsRound(round, batchSize, llm, translate)
    ensures Rounds(trace + round, batchSize, llm, translate)
    decreases |trace|
  {
    if trace == [] {
      assert trace + round == round && round[..3] == round && round[3..] == [];
    } else {
      RoundsAppend(trace[3..], round, batchSize, llm, translate);
      AppendSplit(trace, round, 3);
    }
  }

  /** `GlobeNewsPostProcessor` with its handler, its batch size and the two
      services its `ArticlePostProcessor` calls. */
  class GlobeNewsPostProcessor {
    const handler: MongoHandler
    const batchSize: int
    const llm: LlmOracle
    const translate: TranslateOracle

    constructor(handler: MongoHandler, batchSize: int, llm: LlmOracle, translate: TranslateOracle)
      ensures this.handler == handler && this.batchSize == batchSize
      ensures this.llm == llm && this.translate == translate
    {
      this.handler := handler;
      this.batchSize := batchSize;
      this.llm := llm;
      this.translate := translate;
    }

    /** `_process_batch`: the curated articles, the failed ones and the summed
        token usage of the successful ones. */
    method ProcessBatch(articles: seq<GlobeArticle>) returns (curated: seq<GlobeArticle>, failed: seq<FailedGlobeArticle>, usage: TokenUsage)
      ensures curated == CuratedOf(Results(articles, llm, translate))
      ensures failed == FailedOf(Results(articles, llm, translate))
      ensures usage == TotalUsage(Results(articles, llm, translate))
    {
      curated, failed, usage := [], [], TokenUsage(0, 0);
      var i := 0;
      while i < |articles|
        invariant 0 <= i <= |articles|
        invariant var rs := Results(articles[..i], llm, translate);
          curated == CuratedOf(rs) && failed == FailedOf(rs) && usage == TotalUsage(rs)
        decreases |articles| - i
      {
        var result := ProcessArticle(articles[i], llm, translate);
        BatchStep(articles, i, llm, translate, result);
        if result.Processed? {
          curated := curated + [result.curated];
          usage := usage.Plus(result.usage);
        } else {
          failed := failed + [result.failed];
        }
        i := i + 1;
      }
      assert articles[..i] == articles;
    }

    /** `_update_articles`: update the curated articles, then move the failed
        ones; an exception from the move is returned. */
    method UpdateArticles(curated: seq<GlobeArticle>, failed: seq<FailedGlobeArticle>) returns (escape: Option<Escape>)
      requires handler.Valid()
      modifies handler
      ensures handler.Valid() && WellKeyed(UpdateAll(old(handler.State()), curated).store)
      ensures var run := MoveAll(UpdateAll(old(handler.State()), curated).store, failed, handler.handling);
        && handler.State() == run.store
        && escape == if run.end.Escaped? then Some(run.end.escape) else None
      ensures handler.calls == old(handler.calls) + [UpdateRequested(curated), MoveRequested(failed)]
    {
      var updated := handler.UpdateArticles(curated);
      var moved := handler.MoveFailedArticles(failed);
      escape := if moved.Err? then Some(moved.error) else None;
    }

    /** One pass of the `while True` loop of `process_pending_articles`:
        fetch a batch; when it is not empty, process it and store the
        outcome. An empty batch ends the loop, having found nothing pending or
        met a fault; a non-empty one meets a fault or takes a pending
        article out of the pending set. */
    method ProcessRound() returns (articles: seq<GlobeArticle>, escape: Option<Escape>)
      requires handler.Valid()
      modifies handler
      ensures handler.Valid()
      ensures FaultCount(handler.replies) <= FaultCount(old(handler.replies))
      ensures articles == [] ==>
        && escape.None?
        && handler.calls == old(handler.calls) + [Fetched(batchSize, [])]
        && (handler.PendingArticles() == {} || FaultCount(handler.replies) < FaultCount(old(handler.replies)))
        && (FaultCount(old(handler.replies)) == 0 ==> handler.PendingArticles() == {})
      ensures articles != [] ==>
        && (var rs := Results(articles, llm, translate);
            handler.calls == old(handler.calls) + [Fetched(batchSize, articles), UpdateRequested(CuratedOf(rs)), MoveRequested(FailedOf(rs))])
        && Measure(handler.State(), handler.schemaVersion) < Measure(old(handler.State()), handler.schemaVersion)
        && (FaultCount(old(handler.replies)) == 0 ==> escape.None?)
    {
      ghost var s := handler.State();
      articles := handler.GetUnprocessedArticles(batchSize);
      assert handler.State() == s.Advance();
      if articles == [] {
        FetchedNothing(s, handler.schemaVersion, batchSize);
        return [], None;
      }
      var curated, failed, usage := ProcessBatch(articles);
      FirstIsPending(articles, llm, translate, Pending(s, handler.schemaVersion));
      RoundShrinks(s, handler.schemaVersion, curated, failed, handler.handling);
      if FaultCount(s.replies) == 0 {
        RoundFaultFree(s.Advance(), curated, failed, handler.handling);
      }
      ghost var fetched := handler.calls;
      escape := UpdateArticles(curated, failed);
      ThreeCalls(old(handler.calls), fetched, handler.calls, Fetched(batchSize, articles),
                 UpdateRequested(curated), MoveRequested(failed));
    }

    /** `process_pending_articles`: rounds until a fetch comes back empty, or
        until an exception leaves the move. */
    method ProcessPendingArticles() returns (escape: Option<Escape>)
      requires handler.Valid()
      modifies handler
      ensures handler.Valid()
      ensures old(handler.calls) <= handler.calls
      ensures var trace := handler.calls[|old(handler.calls)|..];
        && (escape.None? ==> trace != [] && trace[|trace| - 1] == Fetched(batchSize, [])
                             && Rounds(trace[..|trace| - 1], batchSize, llm, translate))
        && (escape.Some? ==> trace != [] && Rounds(trace, batchSize, llm, translate))
      ensures FaultCount(handler.replies) <= FaultCount(old(handler.replies))
      ensures escape.None? ==> handler.PendingArticles() == {} || FaultCount(handler.replies) < FaultCount(old(handler.replies))
      ensures FaultCount(old(handler.replies)) == 0 ==> escape.None? && handler.PendingArticles() == {}
    {
      ghost var c0 := handler.calls;
      ghost var f0 := FaultCount(handler.replies);
      while true
        invariant handler.Valid()
        invariant c0 <= handler.calls && Rounds(handler.calls[|c0|..], batchSize, llm, translate)
        invariant FaultCount(handler.replies) <= f0
        decreases Measure(handler.State(), handler.schemaVersion)
      {
        ghost var before := handler.calls;
        var articles;
        articles, escape := ProcessRound();
        if articles == [] {
          EmptyFetchRecorded(c0, before, handler.calls, batchSize, llm, translate);
          return None;
        }
        RoundRecorded(c0, before, handler.calls, articles, batchSize, llm, translate);
        if escape.Some? {
          return;
        }
      }
    }
  }
}
