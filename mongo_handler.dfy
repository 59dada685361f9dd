/** `MongoHandler`: the store gateway over the `articles` and
    `failed_articles` collections. The two collections are maps from
    `_id` to document. What the server does on each call is scripted: a
    sequence of replies, one consumed per collection call, each of which lets
    the call behave as an in-memory collection would, report that it had no
    effect, or raise. Every other outcome (a missing document, a duplicate
    key) follows from the contents of the collections. */
module Database {
  import opened Wrappers
  import opened Models
  import opened Sequences

  /** MongoDB's duplicate-key error code. */
  const DUPLICATE_KEY_CODE: int := 11000

  /** A `PyMongoError`: an `OperationFailure` with its code and the `_id` in its
      `keyValue` detail (absent when the server sends none), or any failure
      that is not an `OperationFailure` (lost connection, timeout). */
  datatype StoreError =
    | OperationFailure(code: int, keyValue: Option<ArticleId>)
    | ConnectionFailure(message: string)

  /** What the server does with one call: behave normally, acknowledge it
      without effect (no `inserted_id`, `deleted_count` 0, `modified_count` 0,
      `find_one` returning `None`), or raise. */
  datatype Reply = Normal | NoEffect | Raise(error: StoreError)

  /** The number of scripted replies that are not `Normal`. */
  function FaultCount(replies: seq<Reply>): nat {
    if replies == [] then 0
    else (if replies[0] == Normal then 0 else 1) + FaultCount(replies[1..])
  }

  /** Both collections and the rest of the reply script. Once the script is
      used up every call behaves normally. */
  datatype Store = Store(articles: map<ArticleId, GlobeArticle>,
                         failed: map<ArticleId, FailedGlobeArticle>,
                         replies: seq<Reply>)
  {
    function Next(): (r: Reply)
      ensures r != Normal ==> r in replies
    {
      if replies == [] then Normal else replies[0]
    }

    /** The store after one call has consumed its reply. */
    function Advance(): (t: Store)
      ensures t.articles == articles && t.failed == failed
      ensures forall x :: x in t.replies ==> x in replies
      ensures FaultCount(t.replies) <= FaultCount(replies)
      ensures Next() != Normal ==> FaultCount(t.replies) < FaultCount(replies)
      ensures FaultCount(replies) == 0 ==> Next() == Normal
    {
      this.(replies := if replies == [] then [] else replies[1..])
    }
  }

  /** Every document is stored under its own `_id`. */
  predicate WellKeyed(s: Store) {
    && (forall k :: k in s.articles ==> s.articles[k].id == k)
    && (forall k :: k in s.failed ==> s.failed[k].article.id == k)
  }

  /** The result of one collection call: the store after it, and what it
      returned or raised. */
  datatype Answer<+T> = Answer(store: Store, result: Result<T, StoreError>)

  // ---------------------------------------------------------------------------
  // The collection calls
  // ---------------------------------------------------------------------------

  /** `articles.find_one({"_id": id})`. */
  function FindOne(s: Store, id: ArticleId): (a: Answer<Option<GlobeArticle>>)
    ensures a.store == s.Advance()
    ensures a.result.Err? <==> s.Next().Raise?
    ensures a.result.Err? ==> s.Next() == Raise(a.result.error)
    ensures a.result == Ok(None) <==> s.Next() == NoEffect || (s.Next() == Normal && id !in s.articles)
    ensures a.result.Ok? && a.result.value.Some? ==> id in s.articles && a.result.value.value == s.articles[id]
  {
    match s.Next()
    case Raise(e) => Answer(s.Advance(), Err(e))
    case NoEffect => Answer(s.Advance(), Ok(None))
    case Normal => Answer(s.Advance(), Ok(if id in s.articles then Some(s.articles[id]) else None))
  }

  /** `failed_articles.insert_one(doc)`: `Ok(true)` when an `inserted_id` is
      returned. A document whose `_id` is already there raises a duplicate-key
      error naming that `_id`. */
  function InsertOne(s: Store, doc: FailedGlobeArticle): (a: Answer<bool>)
    ensures a.store.articles == s.articles && a.store.replies == s.Advance().replies
    ensures a.result == Ok(true) <==> s.Next() == Normal && doc.article.id !in s.failed
    ensures a.result == Ok(true) ==> a.store.failed == s.failed[doc.article.id := doc]
    ensures a.result != Ok(true) ==> a.store.failed == s.failed
    ensures a.result.Err? ==>
      s.Next() == Raise(a.result.error) || (s.Next() == Normal && doc.article.id in s.failed)
    ensures s.Next() == Normal && doc.article.id in s.failed ==>
      a.result == Err(OperationFailure(DUPLICATE_KEY_CODE, Some(doc.article.id)))
  {
    var t := s.Advance();
    match s.Next()
    case Raise(e) => Answer(t, Err(e))
    case NoEffect => Answer(t, Ok(false))
    case Normal =>
      if doc.article.id in s.failed then Answer(t, Err(OperationFailure(DUPLICATE_KEY_CODE, Some(doc.article.id))))
      else Answer(t.(failed := s.failed[doc.article.id := doc]), Ok(true))
  }

  /** `articles.delete_one({"_id": id})`: `Ok(true)` when `deleted_count > 0`. */
  function DeleteOne(s: Store, id: ArticleId): (a: Answer<bool>)
    ensures a.store.failed == s.failed && a.store.replies == s.Advance().replies
    ensures a.result.Err? <==> s.Next().Raise?
    ensures a.result.Err? ==> s.Next() == Raise(a.result.error)
    ensures a.result == Ok(true) <==> s.Next() == Normal && id in s.articles
    ensures a.store.articles == if a.result == Ok(true) then s.articles - {id} else s.articles
  {
    var t := s.Advance();
    match s.Next()
    case Raise(e) => Answer(t, Err(e))
    case NoEffect => Answer(t, Ok(false))
    case Normal =>
      if id in s.articles then Answer(t.(articles := s.articles - {id}), Ok(true))
      else Answer(t, Ok(false))
  }

  // ---------------------------------------------------------------------------
  // get_unprocessed_articles
  // ---------------------------------------------------------------------------

  /** The `_id`s matching `{"post_processed": {"$ne": True}, "schema_version": v}`. */
  function PendingIds(articles: map<ArticleId, GlobeArticle>, schemaVersion: string): set<ArticleId> {
    set k | k in articles && !articles[k].postProcessed && articles[k].schemaVersion == schemaVersion
  }

  /** How many documents `find(..., limit=batchSize)` returns when `available`
      match: a limit of 0 means no limit, and a negative limit counts as its
      absolute value. */
  function ResultSize(batchSize: int, available: nat): (n: nat)
    ensures n <= available
    ensures batchSize == 0 ==> n == available
    ensures batchSize != 0 ==> n <= (if batchSize < 0 then -batchSize else batchSize)
    ensures batchSize != 0 ==> n == available || n == if batchSize < 0 then -batchSize else batchSize
    ensures available <= (if batchSize < 0 then -batchSize else batchSize) ==> n == available
    ensures n == 0 <==> available == 0
  {
    var limit := if batchSize < 0 then -batchSize else batchSize;
    if batchSize == 0 || available <= limit then available else limit
  }

  predicate InBatch(batch: seq<GlobeArticle>, id: ArticleId) {
    exists i :: 0 <= i < |batch| && batch[i].id == id
  }

  /** What the query with sort `[("post_processed", 1), ("date_scraped", -1)]`
      may return: as many matching documents as the limit allows, each once,
      newest first, and no matching document left out that is newer than one
      returned. Every match has the same `post_processed`, so the first sort key
      does not order them; documents scraped at the same instant may come in
      any order. */
  predicate IsFetchResult(articles: map<ArticleId, GlobeArticle>, schemaVersion: string, batchSize: int,
                          batch: seq<GlobeArticle>)
  {
    var pending := PendingIds(articles, schemaVersion);
    && |batch| == ResultSize(batchSize, |pending|)
    && (forall i :: 0 <= i < |batch| ==> batch[i].id in pending && articles[batch[i].id] == batch[i])
    && (forall i, j :: 0 <= i < j < |batch| ==> batch[i].id != batch[j].id)
    && (forall i, j :: 0 <= i < j < |batch| ==> batch[j].dateScraped <= batch[i].dateScraped)
    && (forall k, i :: k in pending && !InBatch(batch, k) && 0 <= i < |batch| ==>
          articles[k].dateScraped <= batch[i].dateScraped)
  }

  /** The most recently scraped of a non-empty set of stored documents. */
  method Latest(articles: map<ArticleId, GlobeArticle>, candidates: set<ArticleId>) returns (best: ArticleId)
    requires candidates != {} && candidates <= articles.Keys
    ensures best in candidates
    ensures forall k :: k in candidates ==> articles[k].dateScraped <= articles[best].dateScraped
  {
    best :| best in candidates;
    var rest := candidates - {best};
    while rest != {}
      invariant rest <= candidates && best in candidates && best !in rest
      invariant forall k :: k in candidates && k !in rest ==> articles[k].dateScraped <= articles[best].dateScraped
      decreases |rest|
    {
      var k :| k in rest;
      if articles[k].dateScraped > articles[best].dateScraped {
        best := k;
      }
      rest := rest - {k};
    }
  }

  /** The in-memory collection's answer to the query: repeatedly take the most
      recently scraped matching document not yet taken. */
  method SelectLatest(articles: map<ArticleId, GlobeArticle>, schemaVersion: string, batchSize: int)
    returns (batch: seq<GlobeArticle>)
    requires forall k :: k in articles ==> articles[k].id == k
    ensures IsFetchResult(articles, schemaVersion, batchSize, batch)
  {
    ghost var pending := PendingIds(articles, schemaVersion);
    var remaining := PendingIds(articles, schemaVersion);
    var want := ResultSize(batchSize, |remaining|);
    batch := [];
    while |batch| < want
      invariant |batch| <= want
      invariant remaining <= pending && |remaining| == |pending| - |batch|
      invariant Selection(articles, pending, remaining, batch)
    {
      var best := Latest(articles, remaining);
      SelectionStep(articles, pending, remaining, batch, best);
      batch := batch + [articles[best]];
      remaining := remaining - {best};
    }
  }

  /** The loop invariant of the selection: `batch` holds, newest first and
      each once, the pending documents that are not `remaining`, none older
      than a remaining one. */
  predicate Selection(articles: map<ArticleId, GlobeArticle>, pending: set<ArticleId>,
                      remaining: set<ArticleId>, batch: seq<GlobeArticle>)
    requires remaining <= pending <= articles.Keys
  {
    && (forall i :: 0 <= i < |batch| ==>
          batch[i].id in pending && batch[i].id !in remaining && articles[batch[i].id] == batch[i])
    && (forall k :: k in pending && k !in remaining ==> InBatch(batch, k))
    && (forall i, j :: 0 <= i < j < |batch| ==> batch[i].id != batch[j].id)
    && (forall i, j :: 0 <= i < j < |batch| ==> batch[j].dateScraped <= batch[i].dateScraped)
    && (forall k, i :: k in remaining && 0 <= i < |batch| ==> articles[k].dateScraped <= batch[i].dateScraped)
  }

  lemma SelectionStep(articles: map<ArticleId, GlobeArticle>, pending: set<ArticleId>,
                      remaining: set<ArticleId>, batch: seq<GlobeArticle>, best: ArticleId)
    requires forall k :: k in articles ==> articles[k].id == k
    requires pending <= articles.Keys && remaining <= pending
    requires Selection(articles, pending, remaining, batch)
    requires best in remaining
    requires forall k :: k in remaining ==> articles[k].dateScraped <= articles[best].dateScraped
    ensures Selection(articles, pending, remaining - {best}, batch + [articles[best]])
  {
    var next := batch + [articles[best]];
    assert next[|batch|].id == best;
    forall k | k in pending && k !in remaining - {best}
      ensures InBatch(next, k)
    {
      if k != best {
        var i :| 0 <= i < |batch| && batch[i].id == k;
        assert next[i].id == k;
      }
    }
  }

  /** A fetch comes back empty exactly when no document is pending. */
  lemma FetchEmptyIff(articles: map<ArticleId, GlobeArticle>, schemaVersion: string, batchSize: int,
                      batch: seq<GlobeArticle>)
    requires IsFetchResult(articles, schemaVersion, batchSize, batch)
    ensures batch == [] <==> PendingIds(articles, schemaVersion) == {}
  {
    if PendingIds(articles, schemaVersion) != {} {
      var k :| k in PendingIds(articles, schemaVersion);
      assert |PendingIds(articles, schemaVersion)| > 0;
    }
  }

  // ---------------------------------------------------------------------------
  // update_articles
  // ---------------------------------------------------------------------------

  /** `$addToSet: {keywords: {$each: additions}}`: each addition, in order, is
      appended unless the array already holds it. The appended part holds no
      keyword already stored, no keyword twice, and the additions' order. */
  function AddToSet(existing: seq<string>, additions: seq<string>): (r: seq<string>)
    ensures forall x :: x in r <==> x in existing || x in additions
    ensures |existing| <= |r| && r[..|existing|] == existing
    ensures forall x :: x in r[|existing|..] ==> x !in existing
    ensures NoDuplicates(r[|existing|..])
    ensures Subsequence(r[|existing|..], additions)
    ensures NoDuplicates(existing) ==> NoDuplicates(r)
    decreases |additions|
  {
    if additions == [] then existing
    else if additions[0] in existing then AddToSet(existing, additions[1..])
    else
      var grown := existing + [additions[0]];
      assert grown[..|existing|] == existing;
      var r := AddToSet(grown, additions[1..]);
      AddedPartCons(existing, additions[0], additions[1..], r);
      r
  }

  /** The appended part after a fresh head is that head before the rest's. */
  lemma AddedPartCons(existing: seq<string>, x: string, rest: seq<string>, r: seq<string>)
    requires x !in existing
    requires |existing + [x]| <= |r| && r[..|existing + [x]|] == existing + [x]
    requires forall y :: y in r[|existing| + 1..] ==> y !in existing + [x]
    requires NoDuplicates(r[|existing| + 1..])
    requires Subsequence(r[|existing| + 1..], rest)
    ensures forall y :: y in r[|existing|..] ==> y !in existing
    ensures NoDuplicates(r[|existing|..])
    ensures Subsequence(r[|existing|..], [x] + rest)
  {
    var tail := r[|existing| + 1..];
    assert r[|existing|] == (existing + [x])[|existing|] == x;
    assert r[|existing|..] == [x] + tail;
    assert x in existing + [x];
    assert x !in tail;
    forall i, j | 0 <= i < j < |[x] + tail|
      ensures ([x] + tail)[i] != ([x] + tail)[j]
    {
      if i > 0 {
        assert ([x] + tail)[i] == tail[i - 1] && ([x] + tail)[j] == tail[j - 1];
      } else {
        assert ([x] + tail)[j] in tail;
      }
    }
    forall y | y in [x] + tail
      ensures y !in existing
    {
      if y != x {
        assert y in tail;
        assert y !in existing + [x];
        assert forall z :: z in existing ==> z in existing + [x];
      }
    }
    assert ([x] + rest)[1..] == rest;
    assert ([x] + tail)[1..] == tail;
  }

  lemma {:induction false} AddToSetPresent(existing: seq<string>, additions: seq<string>)
    requires forall x :: x in additions ==> x in existing
    ensures AddToSet(existing, additions) == existing
    decreases |additions|
  {
    if additions != [] {
      assert additions[0] in existing;
      AddToSetPresent(existing, additions[1..]);
    }
  }

  /** Adding the same keywords again changes nothing. */
  lemma AddToSetIdempotent(existing: seq<string>, additions: seq<string>)
    ensures AddToSet(AddToSet(existing, additions), additions) == AddToSet(existing, additions)
  {
    AddToSetPresent(AddToSet(existing, additions), additions);
  }

  /** The fields the update leaves alone are those of `doc`. */
  predicate UpdateKeeps(doc: GlobeArticle, d: GlobeArticle) {
    d == doc.(postProcessed := d.postProcessed, category := d.category, relatedCountries := d.relatedCountries,
              titleTranslated := d.titleTranslated, descriptionTranslated := d.descriptionTranslated,
              keywords := d.keywords)
  }

  /** The document after `update_one`'s `$set` and `$addToSet`. */
  function UpdateDoc(doc: GlobeArticle, c: GlobeArticle): (d: GlobeArticle)
    ensures d.postProcessed
    ensures d.category == c.category && d.relatedCountries == c.relatedCountries
    ensures d.titleTranslated == c.titleTranslated && d.descriptionTranslated == c.descriptionTranslated
    ensures forall x :: x in d.keywords <==> x in doc.keywords || x in c.keywords
    ensures |doc.keywords| <= |d.keywords| && d.keywords[..|doc.keywords|] == doc.keywords
    ensures NoDuplicates(doc.keywords) ==> NoDuplicates(d.keywords)
    ensures UpdateKeeps(doc, d)
  {
    doc.(postProcessed := true, category := c.category, relatedCountries := c.relatedCountries,
         titleTranslated := c.titleTranslated, descriptionTranslated := c.descriptionTranslated,
         keywords := AddToSet(doc.keywords, c.keywords))
  }

  /** `articles.update_one({"_id": c.id}, ...)`: `Ok(true)` when
      `modified_count > 0`, which is when a document matched and changed. */
  function UpdateOne(s: Store, c: GlobeArticle): (a: Answer<bool>)
    ensures a.store.failed == s.failed && a.store.replies == s.Advance().replies
    ensures a.result.Err? <==> s.Next().Raise?
    ensures s.Next() == Normal && c.id in s.articles ==>
      a.store.articles == s.articles[c.id := UpdateDoc(s.articles[c.id], c)]
    ensures !(s.Next() == Normal && c.id in s.articles) ==> a.store.articles == s.articles
    ensures a.result == Ok(true) <==>
      s.Next() == Normal && c.id in s.articles && UpdateDoc(s.articles[c.id], c) != s.articles[c.id]
  {
    var t := s.Advance();
    match s.Next()
    case Raise(e) => Answer(t, Err(e))
    case NoEffect => Answer(t, Ok(false))
    case Normal =>
      if c.id in s.articles then
        var d := UpdateDoc(s.articles[c.id], c);
        Answer(t.(articles := s.articles[c.id := d]), Ok(d != s.articles[c.id]))
      else Answer(t, Ok(false))
  }

  /** The store after `update_articles`, the ids it returns, and whether a
      store error ended the loop early. */
  datatype UpdateRun = UpdateRun(store: Store, updated: seq<ArticleId>, aborted: bool)

  /** The reference semantics of the loop in `update_articles`: one
      `update_one` per curated article in order; the first store error ends
      the loop, and the ids collected until then are returned. */
  function UpdateAll(s: Store, curated: seq<GlobeArticle>): UpdateRun
    decreases |curated|
  {
    if curated == [] then UpdateRun(s, [], false)
    else
      var a := UpdateOne(s, curated[0]);
      match a.result
      case Err(_) => UpdateRun(a.store, [], true)
      case Ok(modified) =>
        var rest := UpdateAll(a.store, curated[1..]);
        UpdateRun(rest.store, (if modified then [curated[0].id] else []) + rest.updated, rest.aborted)
  }

  function Ids(articles: seq<GlobeArticle>): (ids: seq<ArticleId>)
    ensures |ids| == |articles| && forall i :: 0 <= i < |articles| ==> ids[i] == articles[i].id
  {
    seq(|articles|, i requires 0 <= i < |articles| => articles[i].id)
  }

  /** The pending set of a store: what the next fetch would select from. */
  function Pending(s: Store, schemaVersion: string): set<ArticleId> {
    PendingIds(s.articles, schemaVersion)
  }

  /** Updates never add a pending document, and never use up faults they did
      not meet. */
  predicate Shrinks(s: Store, t: Store, schemaVersion: string) {
    && Pending(t, schemaVersion) <= Pending(s, schemaVersion)
    && FaultCount(t.replies) <= FaultCount(s.replies)
  }

  /** An updated document keeps its `_id` and `schema_version`, and a set
      `post_processed` flag stays set. */
  predicate KeepsIdentity(d: GlobeArticle, e: GlobeArticle) {
    e.id == d.id && e.schemaVersion == d.schemaVersion && (d.postProcessed ==> e.postProcessed)
  }

  /** What a run of updates naming only the ids in `touched` leaves alone: the
      quarantine collection, the set of stored ids, each document's identity,
      every document not named, and the faults not met. */
  predicate UpdateFrame(s: Store, t: Store, touched: seq<ArticleId>) {
    && t.failed == s.failed
    && t.articles.Keys == s.articles.Keys
    && (forall k :: k in s.articles ==> KeepsIdentity(s.articles[k], t.articles[k]))
    && (forall k :: k in s.articles && k !in touched ==> t.articles[k] == s.articles[k])
    && FaultCount(t.replies) <= FaultCount(s.replies)
  }

  lemma FrameShrinks(s: Store, t: Store, touched: seq<ArticleId>, schemaVersion: string)
    requires UpdateFrame(s, t, touched)
    ensures Shrinks(s, t, schemaVersion)
    ensures WellKeyed(s) ==> WellKeyed(t)
  {
  }

  lemma FrameCompose(s: Store, t: Store, u: Store, a: seq<ArticleId>, b: seq<ArticleId>)
    requires UpdateFrame(s, t, a) && UpdateFrame(t, u, b)
    ensures UpdateFrame(s, u, a + b)
  {
  }

  /** `update_articles` changes only the documents the curated articles name,
      and those only in the fields it sets. */
  lemma {:induction false} UpdateAllFrame(s: Store, curated: seq<GlobeArticle>)
    ensures UpdateFrame(s, UpdateAll(s, curated).store, Ids(curated))
    decreases |curated|
  {
    if curated != [] {
      var a := UpdateOne(s, curated[0]);
      assert UpdateFrame(s, a.store, [curated[0].id]);
      if a.result.Ok? {
        UpdateAllFrame(a.store, curated[1..]);
        assert Ids(curated) == [curated[0].id] + Ids(curated[1..]);
        FrameCompose(s, a.store, UpdateAll(s, curated).store, [curated[0].id], Ids(curated[1..]));
      }
    }
  }

  /** The returned ids are curated ids, in input order. */
  lemma {:induction false} UpdatedInOrder(s: Store, curated: seq<GlobeArticle>)
    ensures Subsequence(UpdateAll(s, curated).updated, Ids(curated))
    decreases |curated|
  {
    if curated != [] {
      var a := UpdateOne(s, curated[0]);
      if a.result.Ok? {
        var rest := UpdateAll(a.store, curated[1..]);
        var pre := if a.result.value then [curated[0].id] else [];
        assert UpdateAll(s, curated).updated == pre + rest.updated;
        UpdatedInOrder(a.store, curated[1..]);
        assert Ids(curated) == [curated[0].id] + Ids(curated[1..]);
        SubsequenceCons(curated[0].id, rest.updated, Ids(curated[1..]), a.result.value);
      }
    }
  }

  predicate AllProcessed(ids: seq<ArticleId>, articles: map<ArticleId, GlobeArticle>) {
    forall i :: 0 <= i < |ids| ==> ids[i] in articles && articles[ids[i]].postProcessed
  }

  /** Each returned id names a document that ends up post-processed. */
  lemma {:induction false} UpdatedAreProcessed(s: Store, curated: seq<GlobeArticle>)
    ensures AllProcessed(UpdateAll(s, curated).updated, UpdateAll(s, curated).store.articles)
    decreases |curated|
  {
    if curated != [] {
      var a := UpdateOne(s, curated[0]);
      if a.result.Ok? {
        var rest := UpdateAll(a.store, curated[1..]);
        var pre := if a.result.value then [curated[0].id] else [];
        assert UpdateAll(s, curated) == UpdateRun(rest.store, pre + rest.updated, rest.aborted);
        UpdatedAreProcessed(a.store, curated[1..]);
        assert AllProcessed(rest.updated, rest.store.articles);
        UpdateAllFrame(a.store, curated[1..]);
        var all := pre + rest.updated;
        forall i | 0 <= i < |all|
          ensures all[i] in rest.store.articles && rest.store.articles[all[i]].postProcessed
        {
          if i < |pre| {
            var id := curated[0].id;
            assert all[i] == id && id in s.articles;
            assert a.store.articles == s.articles[id := UpdateDoc(s.articles[id], curated[0])];
            assert id in a.store.articles && a.store.articles[id].postProcessed;
            assert KeepsIdentity(a.store.articles[id], rest.store.articles[id]);
          } else {
            assert all[i] == rest.updated[i - |pre|];
          }
        }
      }
    }
  }

  /** A run of the loop continued over `b`, unless it was aborted. */
  function UpdateThen(ra: UpdateRun, b: seq<GlobeArticle>): UpdateRun {
    if ra.aborted then ra
    else
      var rb := UpdateAll(ra.store, b);
      UpdateRun(rb.store, ra.updated + rb.updated, rb.aborted)
  }

  /** Running the loop over `a + b` is running it over `a` and, unless a store
      error ended that, going on over `b` from where it left the store. */
  lemma {:induction false} UpdateAllSplit(s: Store, a: seq<GlobeArticle>, b: seq<GlobeArticle>)
    ensures UpdateAll(s, a + b) == UpdateThen(UpdateAll(s, a), b)
    decreases |a|
  {
    if a == [] {
      assert a + b == b;
    } else {
      var first := UpdateOne(s, a[0]);
      assert (a + b)[0] == a[0] && (a + b)[1..] == a[1..] + b;
      if first.result.Ok? {
        var pre := if first.result.value then [a[0].id] else [];
        var ra := UpdateAll(first.store, a[1..]);
        var rab := UpdateAll(first.store, a[1..] + b);
        assert UpdateAll(s, a) == UpdateRun(ra.store, pre + ra.updated, ra.aborted);
        assert UpdateAll(s, a + b) == UpdateRun(rab.store, pre + rab.updated, rab.aborted);
        UpdateAllSplit(first.store, a[1..], b);
        UpdateThenPrefix(pre, ra, b);
      }
    }
  }

  lemma UpdateThenPrefix(pre: seq<ArticleId>, ra: UpdateRun, b: seq<GlobeArticle>)
    ensures UpdateThen(UpdateRun(ra.store, pre + ra.updated, ra.aborted), b)
         == var t := UpdateThen(ra, b); UpdateRun(t.store, pre + t.updated, t.aborted)
  {
    if !ra.aborted {
      var rb := UpdateAll(ra.store, b);
      assert pre + (ra.updated + rb.updated) == (pre + ra.updated) + rb.updated;
    }
  }

  /** One iteration of the update loop that raised: the loop ends there. */
  lemma UpdateStepRaised(s: Store, updated: seq<ArticleId>, cs: seq<GlobeArticle>)
    requires cs != [] && UpdateOne(s, cs[0]).result.Err?
    ensures UpdateThen(UpdateRun(s, updated, false), cs) == UpdateRun(UpdateOne(s, cs[0]).store, updated, true)
  {
    assert updated + [] == updated;
  }

  /** One iteration of the update loop that did not raise: the id is
      collected when the document changed, and the loop goes on. */
  lemma UpdateStepDone(s: Store, updated: seq<ArticleId>, cs: seq<GlobeArticle>)
    requires cs != [] && UpdateOne(s, cs[0]).result.Ok?
    ensures var a := UpdateOne(s, cs[0]);
      UpdateThen(UpdateRun(s, updated, false), cs)
        == UpdateThen(UpdateRun(a.store, updated + (if a.result.value then [cs[0].id] else []), false), cs[1..])
  {
    var a := UpdateOne(s, cs[0]);
    var pre := if a.result.value then [cs[0].id] else [];
    var rest := UpdateAll(a.store, cs[1..]);
    assert UpdateAll(s, cs) == UpdateRun(rest.store, pre + rest.updated, rest.aborted);
    assert updated + (pre + rest.updated) == (updated + pre) + rest.updated;
  }

  /** The loop after an iteration that did not raise: it goes on with the rest. */
  lemma UpdateAllOk(s: Store, curated: seq<GlobeArticle>)
    requires curated != [] && UpdateOne(s, curated[0]).result.Ok?
    ensures var rest := UpdateAll(UpdateOne(s, curated[0]).store, curated[1..]);
      UpdateAll(s, curated).store == rest.store && UpdateAll(s, curated).aborted == rest.aborted
  {
  }

  lemma UpdateThenNothing(r: UpdateRun)
    ensures UpdateThen(r, []) == r
  {
    assert r.updated + [] == r.updated;
  }

  /** A store error ends the loop: the articles after it are not updated. */
  lemma UpdateAbortIgnoresRest(s: Store, a: seq<GlobeArticle>, b: seq<GlobeArticle>)
    requires UpdateAll(s, a).aborted
    ensures UpdateAll(s, a + b) == UpdateAll(s, a)
  {
    UpdateAllSplit(s, a, b);
  }

  /** With no scripted faults the loop runs to the end and every stored
      document a curated article names is post-processed. */
  lemma {:induction false} UpdateFaultFree(s: Store, curated: seq<GlobeArticle>)
    requires FaultCount(s.replies) == 0
    ensures var r := UpdateAll(s, curated);
      && !r.aborted
      && FaultCount(r.store.replies) == 0
      && r.store.articles.Keys == s.articles.Keys
      && forall j :: 0 <= j < |curated| && curated[j].id in s.articles ==> r.store.articles[curated[j].id].postProcessed
    decreases |curated|
  {
    if curated != [] {
      var a := UpdateOne(s, curated[0]);
      UpdateAllOk(s, curated);
      UpdateFaultFree(a.store, curated[1..]);
      UpdateAllFrame(a.store, curated[1..]);
      assert forall j :: 1 <= j < |curated| ==> curated[j] == curated[1..][j - 1];
    }
  }

  /** When the first curated article is pending, the loop either meets a fault
      or takes that article out of the pending set. */
  lemma UpdateProgress(s: Store, curated: seq<GlobeArticle>, schemaVersion: string)
    requires curated != [] && curated[0].id in Pending(s, schemaVersion)
    ensures var r := UpdateAll(s, curated).store;
      && Shrinks(s, r, schemaVersion)
      && (FaultCount(r.replies) < FaultCount(s.replies) || Pending(r, schemaVersion) < Pending(s, schemaVersion))
  {
    var a := UpdateOne(s, curated[0]);
    UpdateAllFrame(s, curated);
    FrameShrinks(s, UpdateAll(s, curated).store, Ids(curated), schemaVersion);
    if a.result.Ok? {
      UpdateAllFrame(a.store, curated[1..]);
      FrameShrinks(a.store, UpdateAll(s, curated).store, Ids(curated[1..]), schemaVersion);
      if s.Next() == Normal {
        assert curated[0].id !in Pending(a.store, schemaVersion);
      }
    }
  }

  // ---------------------------------------------------------------------------
  // move_failed_articles
  // ---------------------------------------------------------------------------

  /** The exception that leaves `move_failed_articles`: an `AttributeError`
      from reading `_OperationFailure__code` off an error that has none, a
      failed lookup of the missing `keyValue` detail, or a store error raised
      by the `delete_one` inside the handler. */
  datatype Escape = AttributeError | MissingKeyValue | StoreRaised(error: StoreError)

  /** What the `except PyMongoError` handler does with an error. */
  datatype ErrorAction = LogOnly | DeleteDuplicate(key: ArticleId) | Reraise(escape: Escape)

  predicate IsDuplicateKey(e: StoreError) {
    e.OperationFailure? && e.code == DUPLICATE_KEY_CODE
  }

  /** The handler as written: it reads `e._OperationFailure__code` from every
      `PyMongoError`, which only an `OperationFailure` has. */
  function MoveErrorActionAsWritten(e: StoreError): (a: ErrorAction)
    ensures a.Reraise? <==> e.ConnectionFailure? || (IsDuplicateKey(e) && e.keyValue.None?)
    ensures a.DeleteDuplicate? <==> IsDuplicateKey(e) && e.keyValue.Some?
    ensures a.DeleteDuplicate? ==> a.key == e.keyValue.value
  {
    match e
    case ConnectionFailure(_) => Reraise(AttributeError)
    case OperationFailure(code, keyValue) =>
      if code != DUPLICATE_KEY_CODE then LogOnly
      else if keyValue.None? then Reraise(MissingKeyValue)
      else DeleteDuplicate(keyValue.value)
  }

  /** The handler as intended: a duplicate key deletes the original, any other
      store error is logged. */
  function MoveErrorAction(e: StoreError): (a: ErrorAction)
    ensures a.Reraise? <==> IsDuplicateKey(e) && e.keyValue.None?
    ensures a.Reraise? ==> a.escape == MissingKeyValue
    ensures a.DeleteDuplicate? <==> IsDuplicateKey(e) && e.keyValue.Some?
    ensures a.DeleteDuplicate? ==> a.key == e.keyValue.value
    ensures !IsDuplicateKey(e) ==> a == LogOnly
  {
    if IsDuplicateKey(e) then
      if e.keyValue.None? then Reraise(MissingKeyValue) else DeleteDuplicate(e.keyValue.value)
    else LogOnly
  }

  /** The two handlers differ exactly on errors that are not an
      `OperationFailure`: as written those escape as an `AttributeError`. */
  lemma HandlersDifferOnConnectionLoss(e: StoreError)
    ensures MoveErrorActionAsWritten(e) != MoveErrorAction(e) <==> e.ConnectionFailure?
    ensures e.ConnectionFailure? ==>
      MoveErrorActionAsWritten(e) == Reraise(AttributeError) && MoveErrorAction(e) == LogOnly
  {
  }

  /** Which `except PyMongoError` block the move loop runs: the one in
      `move_failed_articles` as written, or the corrected one. */
  datatype Handling = AsWritten | Corrected

  function ErrorActionOf(handling: Handling, e: StoreError): (a: ErrorAction)
    ensures !e.ConnectionFailure? ==> a == MoveErrorAction(e)
  {
    match handling
    case AsWritten => MoveErrorActionAsWritten(e)
    case Corrected => MoveErrorAction(e)
  }

  /** How far one iteration of the loop got. */
  datatype Step = Done(store: Store, moved: bool) | Raised(store: Store, error: StoreError)

  /** The quarantine copy: the stored document with the failure reason. */
  function QuarantineCopy(stored: GlobeArticle, f: FailedGlobeArticle): FailedGlobeArticle {
    FailedGlobeArticle(stored, f.failureReason)
  }

  /** One iteration of the loop: `find_one`, then `insert_one` of the copy when
      found, then `delete_one` when the insert returned an id. */
  function MoveOne(s: Store, f: FailedGlobeArticle): (r: Step)
    requires WellKeyed(s)
    ensures WellKeyed(r.store)
    ensures var id := f.article.id;
      && (r.store.articles == s.articles || (r.store.articles == s.articles - {id} && id in r.store.failed))
      && (r.store.failed == s.failed ||
            (id !in s.failed && id in s.articles && r.store.failed == s.failed[id := QuarantineCopy(s.articles[id], f)]))
      && FaultCount(r.store.replies) <= FaultCount(s.replies)
  {
    var found := FindOne(s, f.article.id);
    match found.result
    case Err(e) => Raised(found.store, e)
    case Ok(None) => Done(found.store, false)
    case Ok(Some(stored)) =>
      var inserted := InsertOne(found.store, QuarantineCopy(stored, f));
      match inserted.result
      case Err(e) => Raised(inserted.store, e)
      case Ok(false) => Done(inserted.store, false)
      case Ok(true) =>
        var deleted := DeleteOne(inserted.store, f.article.id);
        match deleted.result
        case Err(e) => Raised(deleted.store, e)
        case Ok(removed) => Done(deleted.store, removed)
  }
  /** An id is collected only when its document was found, copied and
      deleted; an error is one the server raised or a duplicate key on this
      id, with the original still in place. */
  lemma MoveOneOutcome(s: Store, f: FailedGlobeArticle)
    requires WellKeyed(s)
    ensures var r := MoveOne(s, f); var id := f.article.id;
      && (r.Done? && r.moved ==> id in s.articles && r.store.articles == s.articles - {id} && id in r.store.failed)
      && (r.Raised? ==>
            || Raise(r.error) in s.replies
            || (r.error == OperationFailure(DUPLICATE_KEY_CODE, Some(id)) && id in r.store.failed
                && r.store.articles == s.articles && FaultCount(r.store.replies) == FaultCount(s.replies)))
  {
    var found := FindOne(s, f.article.id);
    if found.result.Ok? && found.result.value.Some? {
      var inserted := InsertOne(found.store, QuarantineCopy(found.result.value.value, f));
      if inserted.result.Err? && found.store.Next() == Normal {
        assert s.Next() == Normal;
      }
    }
  }

  /** A failed article whose document is not stored is skipped: nothing is
      inserted or deleted and its id is not collected. */
  lemma MissingArticleSkipped(s: Store, f: FailedGlobeArticle)
    requires WellKeyed(s) && f.article.id !in s.articles
    ensures var r := MoveOne(s, f);
      && r.store == s.Advance()
      && (r.Done? <==> !s.Next().Raise?)
      && (r.Done? ==> !r.moved)
  {
  }

  /** A pending document given to one iteration either meets a fault, leaves
      `articles`, or hits a duplicate key with everything else normal. */
  lemma MoveOneProgress(s: Store, f: FailedGlobeArticle)
    requires WellKeyed(s)
    ensures var r := MoveOne(s, f); var id := f.article.id;
      && (s.Next() != Normal ==> FaultCount(r.store.replies) < FaultCount(s.replies))
      && (s.Next() == Normal && id in s.articles ==>
        || FaultCount(r.store.replies) < FaultCount(s.replies)
        || (r.Done? && r.store.articles == s.articles - {id})
        || (r.Raised? && r.error == OperationFailure(DUPLICATE_KEY_CODE, Some(id)) && r.store.articles == s.articles))
  {
    var id := f.article.id;
    if s.Next() == Normal && id in s.articles {
      var found := FindOne(s, id);
      assert found.result == Ok(Some(s.articles[id]));
      var inserted := InsertOne(found.store, QuarantineCopy(s.articles[id], f));
      if inserted.result == Ok(true) {
        var deleted := DeleteOne(inserted.store, id);
        assert id in inserted.store.articles;
      }
    }
  }


  /** The `except` block: the store after it and how the call ends. */
  function HandleMoveError(s: Store, e: StoreError, h: Handling): (r: MoveRun)
    ensures r.moved == [] && r.end != Completed
    ensures r.store.failed == s.failed
    ensures r.store.articles == s.articles ||
      (ErrorActionOf(h, e).DeleteDuplicate? && r.store.articles == s.articles - {ErrorActionOf(h, e).key})
    ensures FaultCount(r.store.replies) <= FaultCount(s.replies)
    ensures r.end.Escaped? ==> ErrorActionOf(h, e).Reraise? || s.Next().Raise?
    ensures ErrorActionOf(h, e).Reraise? ==> r == MoveRun(s, [], Escaped(ErrorActionOf(h, e).escape))
    ensures ErrorActionOf(h, e) == LogOnly ==> r == MoveRun(s, [], Stopped)
    ensures ErrorActionOf(h, e).DeleteDuplicate? && ErrorActionOf(h, e).key in s.articles ==>
      FaultCount(r.store.replies) < FaultCount(s.replies) || ErrorActionOf(h, e).key !in r.store.articles
  {
    match ErrorActionOf(h, e)
    case LogOnly => MoveRun(s, [], Stopped)
    case Reraise(x) => MoveRun(s, [], Escaped(x))
    case DeleteDuplicate(key) =>
      var deleted := DeleteOne(s, key);
      match deleted.result
      case Err(e2) => MoveRun(deleted.store, [], Escaped(StoreRaised(e2)))
      case Ok(_) => MoveRun(deleted.store, [], Stopped)
  }

  /** How `move_failed_articles` ends: the loop ran to the end, a handled
      store error stopped it, or an exception left the method. */
  datatype MoveEnd = Completed | Stopped | Escaped(escape: Escape)

  /** The store after `move_failed_articles`, the ids it collected (returned
      unless an exception escaped), and how it ended. */
  datatype MoveRun = MoveRun(store: Store, moved: seq<ArticleId>, end: MoveEnd)

  /** The reference semantics of `move_failed_articles`: one iteration per
      failed article in order; the single `try` around the loop means the
      first store error ends it, in the `except` block `h` selects. */
  function MoveAll(s: Store, failed: seq<FailedGlobeArticle>, h: Handling): MoveRun
    requires WellKeyed(s)
    decreases |failed|
  {
    if failed == [] then MoveRun(s, [], Completed)
    else
      match MoveOne(s, failed[0])
      case Raised(t, e) => HandleMoveError(t, e, h)
      case Done(t, moved) =>
        var rest := MoveAll(t, failed[1..], h);
        MoveRun(rest.store, (if moved then [failed[0].article.id] else []) + rest.moved, rest.end)
  }

  /** The loop after an iteration that raised: the handler ends it. */
  lemma MoveAllRaised(s: Store, failed: seq<FailedGlobeArticle>, h: Handling)
    requires WellKeyed(s) && failed != [] && MoveOne(s, failed[0]).Raised?
    ensures WellKeyed(MoveOne(s, failed[0]).store)
    ensures MoveAll(s, failed, h) == HandleMoveError(MoveOne(s, failed[0]).store, MoveOne(s, failed[0]).error, h)
  {
  }

  lemma HandleMoveErrorFrame(s: Store, e: StoreError, h: Handling)
    requires WellKeyed(s)
    ensures MoveFrame(s, HandleMoveError(s, e, h).store, []) && WellKeyed(HandleMoveError(s, e, h).store)
  {
  }

  lemma FailedIdsCons(failed: seq<FailedGlobeArticle>)
    requires failed != []
    ensures FailedIds(failed) == [failed[0].article.id] + FailedIds(failed[1..])
  {
    assert forall i :: 1 <= i < |failed| ==> failed[1..][i - 1] == failed[i];
  }

  /** The loop after an iteration that did not raise. */
  lemma MoveAllDone(s: Store, failed: seq<FailedGlobeArticle>, h: Handling)
    requires WellKeyed(s) && failed != [] && MoveOne(s, failed[0]).Done?
    ensures var step := MoveOne(s, failed[0]); var rest := MoveAll(step.store, failed[1..], h);
      MoveAll(s, failed, h) == MoveRun(rest.store, (if step.moved then [failed[0].article.id] else []) + rest.moved, rest.end)
  {
  }

  function FailedIds(failed: seq<FailedGlobeArticle>): (ids: seq<ArticleId>)
    ensures |ids| == |failed| && forall i :: 0 <= i < |failed| ==> ids[i] == failed[i].article.id
  {
    seq(|failed|, i requires 0 <= i < |failed| => failed[i].article.id)
  }

  /** What moving the failed articles `failed` can do: documents only leave
      `articles`, existing quarantine entries are never overwritten, and each
      new one is the stored document with the reason of a failed article of
      that id. */
  predicate MoveFrame(s: Store, t: Store, failed: seq<FailedGlobeArticle>) {
    && (forall k :: k in t.articles ==> k in s.articles && t.articles[k] == s.articles[k])
    && (forall k :: k in s.failed ==> k in t.failed && t.failed[k] == s.failed[k])
    && (forall k :: k in t.failed && k !in s.failed ==>
          k in s.articles && exists j :: 0 <= j < |failed| && failed[j].article.id == k &&
                                         t.failed[k] == QuarantineCopy(s.articles[k], failed[j]))
    && FaultCount(t.replies) <= FaultCount(s.replies)
  }

  lemma MoveFrameShrinks(s: Store, t: Store, failed: seq<FailedGlobeArticle>, schemaVersion: string)
    requires MoveFrame(s, t, failed)
    ensures Shrinks(s, t, schemaVersion)
  {
  }

  lemma MoveFrameCompose(s: Store, t: Store, u: Store, a: seq<FailedGlobeArticle>, b: seq<FailedGlobeArticle>)
    requires MoveFrame(s, t, a) && MoveFrame(t, u, b)
    ensures MoveFrame(s, u, a + b)
  {
    forall k | k in u.failed && k !in s.failed
      ensures k in s.articles && exists j :: 0 <= j < |a + b| && (a + b)[j].article.id == k &&
                                        u.failed[k] == QuarantineCopy(s.articles[k], (a + b)[j])
    {
      if k in t.failed {
        var j :| 0 <= j < |a| && a[j].article.id == k && t.failed[k] == QuarantineCopy(s.articles[k], a[j]);
        assert (a + b)[j] == a[j];
      } else {
        var j :| 0 <= j < |b| && b[j].article.id == k && u.failed[k] == QuarantineCopy(t.articles[k], b[j]);
        assert (a + b)[|a| + j] == b[j];
      }
    }
  }

  lemma MoveFrameWiden(s: Store, t: Store, a: seq<FailedGlobeArticle>, b: seq<FailedGlobeArticle>)
    requires MoveFrame(s, t, a) && a <= b
    ensures MoveFrame(s, t, b)
  {
    forall k | k in t.failed && k !in s.failed
      ensures exists j :: 0 <= j < |b| && b[j].article.id == k && t.failed[k] == QuarantineCopy(s.articles[k], b[j])
    {
      var j :| 0 <= j < |a| && a[j].article.id == k && t.failed[k] == QuarantineCopy(s.articles[k], a[j]);
      assert b[j] == a[j];
    }
  }

  lemma MoveOneFrame(s: Store, f: FailedGlobeArticle)
    requires WellKeyed(s)
    ensures MoveFrame(s, MoveOne(s, f).store, [f])
  {
    var t := MoveOne(s, f).store;
    if f.article.id in t.failed && f.article.id !in s.failed {
      assert [f][0] == f;
    }
  }

  /** `move_failed_articles` moves only what its frame allows, and keeps every
      document under its own `_id`. */
  lemma {:induction false} MoveAllFrame(s: Store, failed: seq<FailedGlobeArticle>, h: Handling)
    requires WellKeyed(s)
    ensures MoveFrame(s, MoveAll(s, failed, h).store, failed)
    ensures WellKeyed(MoveAll(s, failed, h).store)
    decreases |failed|
  {
    if failed != [] {
      var step := MoveOne(s, failed[0]);
      MoveOneFrame(s, failed[0]);
      assert [failed[0]] + failed[1..] == failed;
      if step.Raised? {
        MoveAllRaised(s, failed, h);
        var r := HandleMoveError(step.store, step.error, h);
        HandleMoveErrorFrame(step.store, step.error, h);
        MoveFrameCompose(s, step.store, r.store, [failed[0]], []);
        assert [failed[0]] + [] == [failed[0]];
        MoveFrameWiden(s, r.store, [failed[0]], failed);
      } else {
        MoveAllDone(s, failed, h);
        MoveAllFrame(step.store, failed[1..], h);
        MoveFrameCompose(s, step.store, MoveAll(step.store, failed[1..], h).store, [failed[0]], failed[1..]);
      }
    }
  }

  /** A run of the loop continued over `b`, unless it was stopped. */
  function MoveThen(ra: MoveRun, b: seq<FailedGlobeArticle>, h: Handling): MoveRun
    requires WellKeyed(ra.store)
  {
    if ra.end != Completed then ra
    else
      var rb := MoveAll(ra.store, b, h);
      MoveRun(rb.store, ra.moved + rb.moved, rb.end)
  }

  /** Running the loop over `a + b` is running it over `a` and, unless a store
      error ended that, going on over `b`: a store error leaves the rest of
      the failed articles unprocessed. */
  lemma {:induction false} MoveAllSplit(s: Store, a: seq<FailedGlobeArticle>, b: seq<FailedGlobeArticle>, h: Handling)
    requires WellKeyed(s)
    ensures WellKeyed(MoveAll(s, a, h).store)
    ensures MoveAll(s, a + b, h) == MoveThen(MoveAll(s, a, h), b, h)
    decreases |a|
  {
    MoveAllFrame(s, a, h);
    if a == [] {
      assert a + b == b;
    } else {
      assert (a + b)[0] == a[0] && (a + b)[1..] == a[1..] + b;
      match MoveOne(s, a[0])
      case Raised(t, e) =>
      case Done(t, moved) =>
        var pre := if moved then [a[0].article.id] else [];
        var ra := MoveAll(t, a[1..], h);
        var rab := MoveAll(t, a[1..] + b, h);
        assert MoveAll(s, a, h) == MoveRun(ra.store, pre + ra.moved, ra.end);
        assert MoveAll(s, a + b, h) == MoveRun(rab.store, pre + rab.moved, rab.end);
        MoveAllSplit(t, a[1..], b, h);
        MoveThenPrefix(pre, ra, b, h);
    }
  }

  lemma MoveThenPrefix(pre: seq<ArticleId>, ra: MoveRun, b: seq<FailedGlobeArticle>, h: Handling)
    requires WellKeyed(ra.store)
    ensures MoveThen(MoveRun(ra.store, pre + ra.moved, ra.end), b, h)
         == var t := MoveThen(ra, b, h); MoveRun(t.store, pre + t.moved, t.end)
  {
    if ra.end == Completed {
      var rb := MoveAll(ra.store, b, h);
      assert pre + (ra.moved + rb.moved) == (pre + ra.moved) + rb.moved;
    }
  }

  /** One iteration of the loop that raised: the handler's outcome ends the run. */
  lemma MoveStepRaised(s: Store, moved: seq<ArticleId>, fs: seq<FailedGlobeArticle>, h: Handling)
    requires WellKeyed(s) && fs != [] && MoveOne(s, fs[0]).Raised?
    ensures WellKeyed(MoveOne(s, fs[0]).store)
    ensures var x := HandleMoveError(MoveOne(s, fs[0]).store, MoveOne(s, fs[0]).error, h);
      MoveThen(MoveRun(s, moved, Completed), fs, h) == MoveRun(x.store, moved, x.end)
  {
    MoveAllRaised(s, fs, h);
    assert moved + [] == moved;
  }

  /** One iteration of the loop that did not raise: the id is collected when
      the article was moved, and the loop goes on. */
  lemma MoveStepDone(s: Store, moved: seq<ArticleId>, fs: seq<FailedGlobeArticle>, h: Handling)
    requires WellKeyed(s) && fs != [] && MoveOne(s, fs[0]).Done?
    ensures WellKeyed(MoveOne(s, fs[0]).store)
    ensures var a := MoveOne(s, fs[0]);
      MoveThen(MoveRun(s, moved, Completed), fs, h)
        == MoveThen(MoveRun(a.store, moved + (if a.moved then [fs[0].article.id] else []), Completed), fs[1..], h)
  {
    var a := MoveOne(s, fs[0]);
    var pre := if a.moved then [fs[0].article.id] else [];
    MoveAllDone(s, fs, h);
    MoveThenShift(s, a.store, moved, pre, fs, fs[1..], h);
  }

  lemma MoveThenShift(s: Store, t: Store, moved: seq<ArticleId>, pre: seq<ArticleId>,
                      fs: seq<FailedGlobeArticle>, rest: seq<FailedGlobeArticle>, h: Handling)
    requires WellKeyed(s) && WellKeyed(t)
    requires var r := MoveAll(t, rest, h); MoveAll(s, fs, h) == MoveRun(r.store, pre + r.moved, r.end)
    ensures MoveThen(MoveRun(s, moved, Completed), fs, h) == MoveThen(MoveRun(t, moved + pre, Completed), rest, h)
  {
    var r := MoveAll(t, rest, h);
    var q := MoveAll(s, fs, h);
    assert MoveThen(MoveRun(s, moved, Completed), fs, h) == MoveRun(q.store, moved + q.moved, q.end);
    assert MoveThen(MoveRun(t, moved + pre, Completed), rest, h) == MoveRun(r.store, (moved + pre) + r.moved, r.end);
    assert moved + q.moved == (moved + pre) + r.moved;
  }

  lemma MoveThenNothing(r: MoveRun, h: Handling)
    requires WellKeyed(r.store)
    ensures MoveThen(r, [], h) == r
  {
    assert r.moved + [] == r.moved;
  }

  /** What `move_failed_articles` gives its caller: the collected ids, or the
      exception that left it. */
  function Returned(run: MoveRun): (r: Result<seq<ArticleId>, Escape>)
    ensures r.Err? <==> run.end.Escaped?
    ensures r.Ok? ==> r.value == run.moved
  {
    if run.end.Escaped? then Err(run.end.escape) else Ok(run.moved)
  }

  /** After an error the rest of the failed articles is not looked at. */
  lemma MoveAbortIgnoresRest(s: Store, a: seq<FailedGlobeArticle>, b: seq<FailedGlobeArticle>, h: Handling)
    requires WellKeyed(s) && MoveAll(s, a, h).end != Completed
    ensures MoveAll(s, a + b, h) == MoveAll(s, a, h)
  {
    MoveAllSplit(s, a, b, h);
  }

  /** A lost connection met part-way through the loop. As written, the
      handler's own `AttributeError` leaves `move_failed_articles`, so the ids
      moved until then are never returned; the corrected handler logs the
      error and returns them. Either way the rest of the list is not looked at. */
  lemma ConnectionLossInMove(s: Store, a: seq<FailedGlobeArticle>, b: seq<FailedGlobeArticle>, h: Handling)
    requires WellKeyed(s) && WellKeyed(MoveAll(s, a, h).store)
    requires MoveAll(s, a, h).end == Completed && b != []
    requires var step := MoveOne(MoveAll(s, a, h).store, b[0]); step.Raised? && step.error.ConnectionFailure?
    ensures var ra := MoveAll(s, a, h); var r := MoveAll(s, a + b, h);
      && r.store == MoveOne(ra.store, b[0]).store
      && r.moved == ra.moved
      && (h == AsWritten ==> r.end == Escaped(AttributeError) && Returned(r) == Err(AttributeError))
      && (h == Corrected ==> r.end == Stopped && Returned(r) == Ok(ra.moved))
  {
    var ra := MoveAll(s, a, h);
    MoveAllSplit(s, a, b, h);
    MoveAllRaised(ra.store, b, h);
    assert ra.moved + [] == ra.moved;
  }

  predicate AllMoved(ids: seq<ArticleId>, s: Store) {
    forall i :: 0 <= i < |ids| ==> ids[i] !in s.articles && ids[i] in s.failed
  }

  /** The collected ids are failed-article ids, in input order. */
  lemma {:induction false} MovedInOrder(s: Store, failed: seq<FailedGlobeArticle>, h: Handling)
    requires WellKeyed(s)
    ensures Subsequence(MoveAll(s, failed, h).moved, FailedIds(failed))
    decreases |failed|
  {
    if failed != [] && MoveOne(s, failed[0]).Done? {
      var step := MoveOne(s, failed[0]);
      var rest := MoveAll(step.store, failed[1..], h);
      MoveAllDone(s, failed, h);
      MovedInOrder(step.store, failed[1..], h);
      FailedIdsCons(failed);
      SubsequenceCons(failed[0].article.id, rest.moved, FailedIds(failed[1..]), step.moved);
    }
  }

  /** Each collected id was deleted from `articles` and has a quarantine copy. */
  lemma {:induction false} MovedAreQuarantined(s: Store, failed: seq<FailedGlobeArticle>, h: Handling)
    requires WellKeyed(s)
    ensures AllMoved(MoveAll(s, failed, h).moved, MoveAll(s, failed, h).store)
    decreases |failed|
  {
    if failed != [] && MoveOne(s, failed[0]).Done? {
      var step := MoveOne(s, failed[0]);
      var rest := MoveAll(step.store, failed[1..], h);
      var pre := if step.moved then [failed[0].article.id] else [];
      MoveAllDone(s, failed, h);
      MoveOneOutcome(s, failed[0]);
      assert AllMoved(pre, step.store);
      MovedAreQuarantined(step.store, failed[1..], h);
      MoveAllFrame(step.store, failed[1..], h);
      AllMovedAppend(pre, rest.moved, step.store, rest.store);
    }
  }

  lemma AllMovedAppend(a: seq<ArticleId>, b: seq<ArticleId>, t: Store, u: Store)
    requires AllMoved(a, t) && AllMoved(b, u)
    requires forall k :: k in u.articles ==> k in t.articles
    requires forall k :: k in t.failed ==> k in u.failed
    ensures AllMoved(a + b, u)
  {
    forall i | 0 <= i < |a + b|
      ensures (a + b)[i] !in u.articles && (a + b)[i] in u.failed
    {
      if i >= |a| {
        assert (a + b)[i] == b[i - |a|];
      } else {
        assert (a + b)[i] == a[i];
      }
    }
  }

  /** A script injects no duplicate-key error: those come only from the
      collection's contents. */
  predicate NoScriptedDuplicateKey(replies: seq<Reply>) {
    forall x :: x in replies ==> !(x.Raise? && IsDuplicateKey(x.error))
  }

  predicate Retained(s: Store, t: Store) {
    forall k :: k in s.articles ==> k in t.articles || k in t.failed
  }

  /** No article is lost: every document that leaves `articles` is in
      `failed_articles`, as long as the server reports duplicate keys only for
      keys that are really there. */
  lemma {:induction false} NoArticleLost(s: Store, failed: seq<FailedGlobeArticle>, h: Handling)
    requires WellKeyed(s) && NoScriptedDuplicateKey(s.replies)
    ensures Retained(s, MoveAll(s, failed, h).store)
    decreases |failed|
  {
    if failed != [] {
      RetainedStep(s, failed[0], h);
      match MoveOne(s, failed[0])
      case Raised(t, e) =>
      case Done(t, _) =>
        NoArticleLost(t, failed[1..], h);
        MoveAllFrame(t, failed[1..], h);
    }
  }

  /** One iteration, with its error handling, keeps every document. */
  lemma RetainedStep(s: Store, f: FailedGlobeArticle, h: Handling)
    requires WellKeyed(s) && NoScriptedDuplicateKey(s.replies)
    ensures match MoveOne(s, f)
      case Raised(t, e) => Retained(s, HandleMoveError(t, e, h).store)
      case Done(t, _) => Retained(s, t) && NoScriptedDuplicateKey(t.replies)
  {
    MoveOneOutcome(s, f);
    match MoveOne(s, f)
    case Raised(t, e) =>
      if ErrorActionOf(h, e).DeleteDuplicate? {
        assert e == OperationFailure(DUPLICATE_KEY_CODE, Some(f.article.id));
      }
    case Done(t, _) =>
      MoveOneReplies(s, f);
  }

  /** One iteration only consumes replies from the front of the script. */
  lemma MoveOneReplies(s: Store, f: FailedGlobeArticle)
    requires WellKeyed(s)
    ensures forall x :: x in MoveOne(s, f).store.replies ==> x in s.replies
  {
  }

  lemma {:induction false} FaultFreeScript(replies: seq<Reply>)
    requires FaultCount(replies) == 0
    ensures forall x :: x in replies ==> x == Normal
  {
    if replies != [] {
      FaultFreeScript(replies[1..]);
      assert replies == [replies[0]] + replies[1..];
    }
  }

  /** With no scripted faults, the only error is a duplicate key, which the
      handler answers by deleting the original: nothing escapes. */
  lemma {:induction false} MoveFaultFreeNoEscape(s: Store, failed: seq<FailedGlobeArticle>, h: Handling)
    requires WellKeyed(s) && FaultCount(s.replies) == 0
    ensures !MoveAll(s, failed, h).end.Escaped?
    ensures FaultCount(MoveAll(s, failed, h).store.replies) == 0
    decreases |failed|
  {
    MoveAllFrame(s, failed, h);
    if failed != [] {
      FaultFreeScript(s.replies);
      MoveOneOutcome(s, failed[0]);
      match MoveOne(s, failed[0])
      case Raised(t, e) =>
      case Done(t, _) =>
        MoveFaultFreeNoEscape(t, failed[1..], h);
    }
  }

  /** When the first failed article is pending, the loop either meets a fault
      or takes that article out of `articles`. */
  lemma MoveProgress(s: Store, failed: seq<FailedGlobeArticle>, schemaVersion: string, h: Handling)
    requires WellKeyed(s)
    requires failed != [] && failed[0].article.id in Pending(s, schemaVersion)
    ensures var r := MoveAll(s, failed, h).store;
      && Shrinks(s, r, schemaVersion)
      && (FaultCount(r.replies) < FaultCount(s.replies) || Pending(r, schemaVersion) < Pending(s, schemaVersion))
  {
    var id := failed[0].article.id;
    MoveAllFrame(s, failed, h);
    MoveFrameShrinks(s, MoveAll(s, failed, h).store, failed, schemaVersion);
    MoveOneProgress(s, failed[0]);
    match MoveOne(s, failed[0])
    case Raised(t, e) =>
    case Done(t, _) =>
      MoveAllFrame(t, failed[1..], h);
      MoveFrameShrinks(t, MoveAll(t, failed[1..], h).store, failed[1..], schemaVersion);
  }

  /** One iteration on a fault-free script, for a stored document not yet in
      quarantine: found, copied and deleted. */
  lemma MoveOneFaultFree(s: Store, f: FailedGlobeArticle)
    requires WellKeyed(s) && FaultCount(s.replies) == 0
    requires f.article.id in s.articles && f.article.id !in s.failed
    ensures var r := MoveOne(s, f); var id := f.article.id;
      && r.Done? && r.moved
      && r.store.articles == s.articles - {id}
      && r.store.failed == s.failed[id := QuarantineCopy(s.articles[id], f)]
      && FaultCount(r.store.replies) == 0
  {
    var found := FindOne(s, f.article.id);
    var inserted := InsertOne(found.store, QuarantineCopy(s.articles[f.article.id], f));
    assert inserted.result == Ok(true);
  }

  /** Every failed article's document has left `articles` for `failed`,
      copied from `s` with its reason. */
  predicate AllQuarantined(s: Store, t: Store, failed: seq<FailedGlobeArticle>) {
    forall j :: 0 <= j < |failed| ==>
      var id := failed[j].article.id;
      id in s.articles && id !in t.articles && id in t.failed && t.failed[id] == QuarantineCopy(s.articles[id], failed[j])
  }

  lemma AllQuarantinedCons(s: Store, t: Store, r: Store, failed: seq<FailedGlobeArticle>)
    requires failed != []
    requires AllQuarantined(s, t, [failed[0]]) && AllQuarantined(t, r, failed[1..]) && MoveFrame(t, r, failed[1..])
    requires forall k :: k in t.articles ==> k in s.articles && t.articles[k] == s.articles[k]
    ensures AllQuarantined(s, r, failed)
  {
    forall j | 0 <= j < |failed|
      ensures var id := failed[j].article.id;
        id in s.articles && id !in r.articles && id in r.failed && r.failed[id] == QuarantineCopy(s.articles[id], failed[j])
    {
      if j == 0 {
        assert [failed[0]][0] == failed[0];
      } else {
        assert failed[j] == failed[1..][j - 1];
      }
    }
  }

  /** The preconditions of `MoveFaultFree` carry over to the rest of the list
      after the first article was moved. */
  predicate MovableAll(s: Store, failed: seq<FailedGlobeArticle>) {
    && NoDuplicates(FailedIds(failed))
    && forall j :: 0 <= j < |failed| ==> failed[j].article.id in s.articles && failed[j].article.id !in s.failed
  }

  lemma MovableRest(s: Store, t: Store, failed: seq<FailedGlobeArticle>)
    requires failed != [] && MovableAll(s, failed)
    requires t.articles == s.articles - {failed[0].article.id}
    requires t.failed == s.failed[failed[0].article.id := QuarantineCopy(s.articles[failed[0].article.id], failed[0])]
    ensures MovableAll(t, failed[1..])
  {
    var rest := failed[1..];
    assert forall j :: 0 <= j < |rest| ==> rest[j] == failed[j + 1] && FailedIds(failed)[j + 1] == rest[j].article.id;
    assert FailedIds(rest) == FailedIds(failed)[1..];
  }

  /** On a fault-free script, distinct failed articles that are stored and not
      yet quarantined are all moved, and every id is returned in order. */
  lemma {:induction false} MoveFaultFree(s: Store, failed: seq<FailedGlobeArticle>, h: Handling)
    requires WellKeyed(s) && FaultCount(s.replies) == 0
    requires MovableAll(s, failed)
    ensures MoveAll(s, failed, h).end == Completed
    ensures MoveAll(s, failed, h).moved == FailedIds(failed)
    decreases |failed|
  {
    if failed != [] {
      var id := failed[0].article.id;
      MoveOneFaultFree(s, failed[0]);
      var t := MoveOne(s, failed[0]).store;
      var rest := failed[1..];
      MovableRest(s, t, failed);
      MoveFaultFree(t, rest, h);
      MoveAllDone(s, failed, h);
      FailedIdsCons(failed);
    }
  }

  /** In that run each quarantine copy is the stored document with its reason,
      and no moved document is left in `articles`. */
  lemma {:induction false} MoveFaultFreeCopies(s: Store, failed: seq<FailedGlobeArticle>, h: Handling)
    requires WellKeyed(s) && FaultCount(s.replies) == 0
    requires MovableAll(s, failed)
    ensures AllQuarantined(s, MoveAll(s, failed, h).store, failed)
    decreases |failed|
  {
    if failed != [] {
      MoveOneFaultFree(s, failed[0]);
      var t := MoveOne(s, failed[0]).store;
      var rest := failed[1..];
      assert AllQuarantined(s, t, [failed[0]]) by {
        assert [failed[0]][0] == failed[0];
      }
      MovableRest(s, t, failed);
      MoveFaultFreeCopies(t, rest, h);
      MoveAllFrame(t, rest, h);
      MoveAllDone(s, failed, h);
      AllQuarantinedCons(s, t, MoveAll(t, rest, h).store, failed);
    }
  }

  /** A failed article already in quarantine, on a fault-free script: the
      insert hits the duplicate key, the original is deleted, its id is not
      returned, and the loop stops there. */
  lemma DuplicateDeletesOriginal(s: Store, failed: seq<FailedGlobeArticle>, h: Handling)
    requires WellKeyed(s) && FaultCount(s.replies) == 0
    requires failed != [] && failed[0].article.id in s.articles && failed[0].article.id in s.failed
    ensures var r := MoveAll(s, failed, h);
      && r.moved == [] && r.end == Stopped
      && r.store.articles == s.articles - {failed[0].article.id}
      && r.store.failed == s.failed
  {
    var id := failed[0].article.id;
    var found := FindOne(s, id);
    assert found.result == Ok(Some(s.articles[id]));
    var inserted := InsertOne(found.store, QuarantineCopy(s.articles[id], failed[0]));
    assert inserted.result == Err(OperationFailure(DUPLICATE_KEY_CODE, Some(id)));
    assert inserted.store.Next() == Normal;
  }


  // ---------------------------------------------------------------------------
  // The handler object
  // ---------------------------------------------------------------------------

  /** One request the pipeline made of the handler, with what it was given or
      what it got back, kept to state the pipeline's protocol. */
  datatype Call =
    | Fetched(batchSize: int, batch: seq<GlobeArticle>)
    | UpdateRequested(curated: seq<GlobeArticle>)
    | MoveRequested(failed: seq<FailedGlobeArticle>)

  /** `MongoHandler` over its two collections. The reply script stands for
      the server; `schemaVersion` is the `SCHEMA_VERSION` the query uses, and
      `handling` selects the `except` block of `move_failed_articles`:
      `AsWritten` is the code as it stands. */
  class MongoHandler {
    var articles: map<ArticleId, GlobeArticle>
    var failedArticles: map<ArticleId, FailedGlobeArticle>
    var replies: seq<Reply>
    const schemaVersion: string
    const handling: Handling
    ghost var calls: seq<Call>

    function State(): Store
      reads this
    {
      Store(articles, failedArticles, replies)
    }

    predicate Valid()
      reads this
    {
      WellKeyed(State())
    }

    /** The documents the next fetch selects from. */
    function PendingArticles(): set<ArticleId>
      reads this
    {
      Pending(State(), schemaVersion)
    }

    /** A handler over already checked collections; the connection and
        permission checks of `__init__` are not part of this model. */
    constructor(articles: map<ArticleId, GlobeArticle>, failedArticles: map<ArticleId, FailedGlobeArticle>,
                replies: seq<Reply>, schemaVersion: string, handling: Handling)
      requires WellKeyed(Store(articles, failedArticles, replies))
      ensures State() == Store(articles, failedArticles, replies)
      ensures this.schemaVersion == schemaVersion && this.handling == handling && calls == []
      ensures Valid()
    {
      this.articles := articles;
      this.failedArticles := failedArticles;
      this.replies := replies;
      this.schemaVersion := schemaVersion;
      this.handling := handling;
      calls := [];
    }

    /** The server's reply to the call being made. */
    method NextReply() returns (reply: Reply)
      modifies this
      ensures reply == old(State()).Next() && State() == old(State()).Advance()
      ensures calls == old(calls)
    {
      reply := if replies == [] then Normal else replies[0];
      replies := if replies == [] then [] else replies[1..];
    }

    /** `self._articles.find_one({"_id": id})`. */
    method FindArticle(id: ArticleId) returns (r: Result<Option<GlobeArticle>, StoreError>)
      modifies this
      ensures Answer(State(), r) == FindOne(old(State()), id)
      ensures calls == old(calls)
    {
      var reply := NextReply();
      match reply
      case Raise(e) => r := Err(e);
      case NoEffect => r := Ok(None);
      case Normal => r := Ok(if id in articles then Some(articles[id]) else None);
    }

    /** `self._failed_articles.insert_one(doc)`. */
    method InsertFailedArticle(doc: FailedGlobeArticle) returns (r: Result<bool, StoreError>)
      modifies this
      ensures Answer(State(), r) == InsertOne(old(State()), doc)
      ensures calls == old(calls)
    {
      var reply := NextReply();
      match reply
      case Raise(e) => r := Err(e);
      case NoEffect => r := Ok(false);
      case Normal =>
        if doc.article.id in failedArticles {
          r := Err(OperationFailure(DUPLICATE_KEY_CODE, Some(doc.article.id)));
        } else {
          failedArticles := failedArticles[doc.article.id := doc];
          r := Ok(true);
        }
    }

    /** `self._articles.delete_one({"_id": id})`. */
    method DeleteArticle(id: ArticleId) returns (r: Result<bool, StoreError>)
      modifies this
      ensures Answer(State(), r) == DeleteOne(old(State()), id)
      ensures calls == old(calls)
    {
      var reply := NextReply();
      match reply
      case Raise(e) => r := Err(e);
      case NoEffect => r := Ok(false);
      case Normal =>
        if id in articles {
          articles := articles - {id};
          r := Ok(true);
        } else {
          r := Ok(false);
        }
    }

    /** `self._articles.update_one(...)` for one curated article. */
    method UpdateArticle(c: GlobeArticle) returns (r: Result<bool, StoreError>)
      modifies this
      ensures Answer(State(), r) == UpdateOne(old(State()), c)
      ensures calls == old(calls)
    {
      var reply := NextReply();
      match reply
      case Raise(e) => r := Err(e);
      case NoEffect => r := Ok(false);
      case Normal =>
        if c.id in articles {
          var d := UpdateDoc(articles[c.id], c);
          r := Ok(d != articles[c.id]);
          articles := articles[c.id := d];
        } else {
          r := Ok(false);
        }
    }

    /** `get_unprocessed_articles`: one query; a raised error (or a reply
        without effect) gives the empty list. */
    method GetUnprocessedArticles(batchSize: int) returns (batch: seq<GlobeArticle>)
      requires Valid()
      modifies this
      ensures Valid()
      ensures articles == old(articles) && failedArticles == old(failedArticles)
      ensures replies == old(State()).Advance().replies
      ensures old(State()).Next() != Normal ==> batch == []
      ensures old(State()).Next() == Normal ==> IsFetchResult(articles, schemaVersion, batchSize, batch)
      ensures calls == old(calls) + [Fetched(batchSize, batch)]
    {
      var reply := NextReply();
      if reply == Normal {
        batch := SelectLatest(articles, schemaVersion, batchSize);
      } else {
        batch := [];
      }
      calls := calls + [Fetched(batchSize, batch)];
    }

    /** `update_articles`: the loop inside the single `try`; a store error
        ends it, and the ids collected so far are returned. */
    method UpdateArticles(curated: seq<GlobeArticle>) returns (updated: seq<ArticleId>)
      requires Valid()
      modifies this
      ensures Valid()
      ensures State() == UpdateAll(old(State()), curated).store
      ensures updated == UpdateAll(old(State()), curated).updated
      ensures calls == old(calls) + [UpdateRequested(curated)]
    {
      ghost var s0 := State();
      updated := [];
      var i := 0;
      while i < |curated|
        invariant 0 <= i <= |curated|
        invariant UpdateAll(s0, curated) == UpdateThen(UpdateRun(State(), updated, false), curated[i..])
        invariant calls == old(calls)
      {
        ghost var s := State();
        assert curated[i..][0] == curated[i] && curated[i..][1..] == curated[i + 1..];
        var r := UpdateArticle(curated[i]);
        if r.Err? {
          UpdateStepRaised(s, updated, curated[i..]);
          break;
        }
        UpdateStepDone(s, updated, curated[i..]);
        if r.value {
          updated := updated + [curated[i].id];
        }
        i := i + 1;
      }
      UpdateThenNothing(UpdateRun(State(), updated, false));
      assert UpdateAll(s0, curated).store == State() && UpdateAll(s0, curated).updated == updated;
      UpdateAllFrame(s0, curated);
      FrameShrinks(s0, State(), Ids(curated), schemaVersion);
      calls := calls + [UpdateRequested(curated)];
    }
  
    /** One iteration of the loop in `move_failed_articles`: the error it
        raised, if any, and whether the article was moved. */
    method MoveArticle(f: FailedGlobeArticle) returns (error: Option<StoreError>, moved: bool)
      requires Valid()
      modifies this
      ensures Valid()
      ensures MoveOne(old(State()), f) == if error.Some? then Raised(State(), error.value) else Done(State(), moved)
      ensures calls == old(calls)
    {
      var found := FindArticle(f.article.id);
      if found.Err? {
        return Some(found.error), false;
      }
      if found.value.None? {
        return None, false;
      }
      var inserted := InsertFailedArticle(QuarantineCopy(found.value.value, f));
      if inserted.Err? {
        return Some(inserted.error), false;
      }
      if !inserted.value {
        return None, false;
      }
      var deleted := DeleteArticle(f.article.id);
      if deleted.Err? {
        return Some(deleted.error), false;
      }
      return None, deleted.value;
    }

    /** The `except PyMongoError` block that `handling` selects; an exception
        leaving it is returned. */
    method HandleMoveFailure(e: StoreError) returns (escape: Option<Escape>)
      requires Valid()
      modifies this
      ensures Valid()
      ensures HandleMoveError(old(State()), e, handling) == MoveRun(State(), [], if escape.Some? then Escaped(escape.value) else Stopped)
      ensures calls == old(calls)
    {
      HandleMoveErrorFrame(State(), e, handling);
      match ErrorActionOf(handling, e)
      case LogOnly => escape := None;
      case Reraise(x) => escape := Some(x);
      case DeleteDuplicate(key) =>
        var deleted := DeleteArticle(key);
        escape := if deleted.Err? then Some(StoreRaised(deleted.error)) else None;
    }

    /** `move_failed_articles`: the ids it returns, or the exception that
        leaves it. */
    method MoveFailedArticles(failed: seq<FailedGlobeArticle>) returns (r: Result<seq<ArticleId>, Escape>)
      requires Valid()
      modifies this
      ensures Valid()
      ensures State() == MoveAll(old(State()), failed, handling).store
      ensures r == Returned(MoveAll(old(State()), failed, handling))
      ensures calls == old(calls) + [MoveRequested(failed)]
    {
      ghost var s0 := State();
      var moved := [];
      var i := 0;
      while i < |failed|
        invariant 0 <= i <= |failed| && Valid()
        invariant MoveAll(s0, failed, handling) == MoveThen(MoveRun(State(), moved, Completed), failed[i..], handling)
        invariant calls == old(calls)
      {
        ghost var s := State();
        assert failed[i..][0] == failed[i] && failed[i..][1..] == failed[i + 1..];
        var error, wasMoved := MoveArticle(failed[i]);
        if error.Some? {
          MoveStepRaised(s, moved, failed[i..], handling);
          var escape := HandleMoveFailure(error.value);
          r := if escape.Some? then Err(escape.value) else Ok(moved);
          calls := calls + [MoveRequested(failed)];
          return;
        }
        MoveStepDone(s, moved, failed[i..], handling);
        if wasMoved {
          moved := moved + [failed[i].article.id];
        }
        i := i + 1;
      }
      MoveThenNothing(MoveRun(State(), moved, Completed), handling);
      r := Ok(moved);
      calls := calls + [MoveRequested(failed)];
    }
  }
}
