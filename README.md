# Globe News post-processor, modelled in Dafny

This project models the core of the Globe News post-processor and proves
properties of it. The post-processor is a batch pipeline. It fetches pending
news articles from MongoDB, enriches each one through a language model,
translates non-English titles and descriptions, writes curated articles back,
and moves articles that failed into a `failed_articles` quarantine collection.

The modules follow the program's files:

| module | file | form |
|---|---|---|
| `Models` (`models.dfy`) | `models.py` | datatypes and functions |
| `PostProcessor` (`post_processor.dfy`) | `post_processor.py` | functions; the language model and the translator are oracle functions returning `Ok` or `Err(message)` |
| `GlobeNews` (`globe_news.dfy`) | `__init__.py` | class `GlobeNewsPostProcessor` with the batch loop and the fetch loop as Dafny loops |
| `Database` (`mongo_handler.dfy`) | `mongo_handler.py` | class `MongoHandler` with the two collections as `map` fields; its loops are proved against reference functions |
| `Translator` (`translator.dfy`) | `translator.py` | the retry/backoff loop as a method proved against a reference function |
| `FewShot` (`few_shot.dfy`) | `base.py` | the few-shot shape check and the loaders' error mapping, as functions |
| `Sequences`, `Wrappers` | — | sub-sequences, duplicate-freedom, `Option`/`Result` |

The MongoDB server is a script of replies, one consumed per collection call.
Each reply is one of:

- `Normal`: the call behaves like an in-memory collection.
- `NoEffect`: the call is acknowledged but does nothing (no `inserted_id`, a
  `deleted_count` of 0, a `modified_count` of 0, or `find_one` returning
  `None`).
- `Raise(error)`: the call raises a `PyMongoError`.

Once the script is used up, every call is `Normal`. Duplicate-key errors are
not scripted: they come from the quarantine collection already holding the key.

The pipeline's own entry points are `GlobeNewsPostProcessor.ProcessPendingArticles`,
`ProcessBatch` and `UpdateArticles`. Each `MongoHandler` method changes the
handler's fields, and its `ensures` ties the new state to a reference function
of the old state (`UpdateAll`, `MoveAll`, `FindOne`, …). The lemmas prove what
the code promises about those functions.

The handler also keeps a ghost record of the calls made to it. That record lets
`ProcessPendingArticles` state the pipeline's protocol: each round is a
non-empty fetch, then the update of exactly that batch's curated articles, then
the move of exactly its failed ones. The loop ends at an empty fetch, or when
an exception leaves the move.

### How the code behaves where it matters

- The translator catches only `HTTPError`. A connection error, a time-out or an unreadable response body leaves `translate` at once, unretried and not wrapped as `ArticleTranslatorError`, although its docstring names only that type (`translator.py:44`, `63-65`, `71`).
- Articles are processed one at a time. Each article's title is translated
  before its description (`__init__.py:71-80`, `post_processor.py:61-62`).
- No retry loop surrounds the language-model call in this repository, so that
  call is an oracle here.
- One `try` surrounds each whole loop in `update_articles` and
  `move_failed_articles`. The first store error therefore ends that loop
  (`mongo_handler.py:99-124`, `134-171`).
- An article that hits a duplicate key in the quarantine is not returned, and
  the move loop stops there (`mongo_handler.py:161-167`).
- The `except` block of `move_failed_articles` can be modelled two ways.
  `MongoHandler` takes the choice as its `handling` constant: `AsWritten` is
  the handler in the source, and `Corrected` is the fix described under
  "Findings". Every contract of the handler class and of the pipeline holds
  for both.

## Model

| member | source | states |
|---|---|---|
| Models.SetPostProcessedToTrue | globe_news_post_processor/models.py:81-86 | the flag is true whatever value was supplied |
| Models.WithoutCountry | globe_news_post_processor/models.py:94-97 | the filtered list has no entry equal to the country, is no longer than the input, and keeps every other country with its multiplicity |
| Models.RemoveOriginCountry | globe_news_post_processor/models.py:88-98 | the result is present exactly when the list was; a non-empty origin country is not in it; every other country keeps its count; an empty origin, a `None` list or an empty list is returned untouched |
| Models.BuildCurated | globe_news_post_processor/models.py:62-98 | the result is curated (flag set, origin not among related countries); only `post_processed` and `related_countries` differ from the fields given; other countries keep their counts |
| Models.WithoutCountryAppend | globe_news_post_processor/models.py:94-97 | the filter distributes over concatenation, so it keeps the original order |
| Models.WithoutAbsentCountry | globe_news_post_processor/models.py:94-97 | a list that does not mention the country comes back unchanged |
| Models.WithoutCountryIdempotent | globe_news_post_processor/models.py:94-97 | filtering twice equals filtering once |
| Models.RemoveOriginCountryIdempotent | globe_news_post_processor/models.py:88-98 | running the validator twice equals running it once |
| Models.BuildCuratedIdempotent | globe_news_post_processor/models.py:62-98 | re-validating a curated article changes nothing |
| Models.RemoveOriginCountryExamples | globe_news_post_processor/models.py:93-97 | GB with [US, GB, CA] gives [US, CA]; CZ with [DE, SK, PL] is unchanged; DE with [DE, FR] gives [FR]; a `None` list stays `None` |
| Models.ParseCategory | globe_news_post_processor/models.py:115 | a parsed category has exactly that name; a string that is none of the seven names is rejected |
| Models.ParseCategoryName | globe_news_post_processor/models.py:115 | every one of the seven categories parses back from its name |
| Models.ParseLlmArticleData | globe_news_post_processor/models.py:111-117 | accepted exactly when the category is one of the seven and there are at most 5 keywords; accepted fields are copied unchanged; the error lists exactly the failing fields |
| Models.ParseLlmArticleDataRoundTrip | globe_news_post_processor/models.py:111-117 | validating an already valid value gives it back |
| PostProcessor.TranslateIfNeeded | globe_news_post_processor/post_process_pipeline/post_processor.py:52-66 | English or unset language returns the originals; otherwise succeeds exactly when both translations do, the title translated first, and the first failure's message is the error |
| PostProcessor.CreateCuratedArticle | globe_news_post_processor/post_process_pipeline/post_processor.py:68-90 | the result is curated; category, keywords and related countries (origin removed) come from the language model; the translated fields are the given texts; every other field is the article's |
| PostProcessor.ProcessArticle | globe_news_post_processor/post_process_pipeline/post_processor.py:28-50 | keeps the id; succeeds exactly when the model call and the translation do, with the model's token usage and the curated fields above; otherwise a failed article holding the input unchanged and the first exception message |
| PostProcessor.EnglishIgnoresTranslator | globe_news_post_processor/post_process_pipeline/post_processor.py:59-65 | an English or unlabelled article gives the same result whatever the translator does, with its own title and description as the translated fields |
| PostProcessor.LlmFailureIgnoresTranslator | globe_news_post_processor/post_process_pipeline/post_processor.py:37-40 | when the model call fails no translation matters: the result is the failed article with the model's message |
| PostProcessor.TitleTranslatedFirst | globe_news_post_processor/post_process_pipeline/post_processor.py:61-62 | a failed title translation decides the result whatever the description's translation would be |
| GlobeNews.GlobeNewsPostProcessor.ProcessBatch | globe_news_post_processor/__init__.py:57-82 | the loop returns exactly the curated list, the failed list and the usage total of processing the batch in order |
| GlobeNews.ResultsAppend | globe_news_post_processor/__init__.py:71-80 | processing a batch distributes over splitting it |
| GlobeNews.PartitionAppend | globe_news_post_processor/__init__.py:71-80 | both lists and the usage total distribute over concatenating results |
| GlobeNews.PartitionSizes | globe_news_post_processor/__init__.py:71-80 | the two lists' lengths add up to the batch length |
| GlobeNews.AllCurated | globe_news_post_processor/__init__.py:71-80 | every curated article satisfies what `CuratedGlobeArticle` validates |
| GlobeNews.FailedAreInputs | globe_news_post_processor/__init__.py:71-80 | every failed entry carries an input article unchanged |
| GlobeNews.ResultIdsOf | globe_news_post_processor/__init__.py:71-80 | the results' ids are the batch's ids, in order |
| GlobeNews.PartitionOrder | globe_news_post_processor/__init__.py:71-80 | each list's ids are a sub-sequence of the results' ids |
| GlobeNews.PartitionIds | globe_news_post_processor/__init__.py:71-80 | the two lists' ids together are the results' ids as a multiset |
| GlobeNews.BatchOrderKept | globe_news_post_processor/__init__.py:71-80 | curated and failed lists each keep the batch's relative order |
| GlobeNews.IdsConserved | globe_news_post_processor/__init__.py:71-80 | every input article lands in exactly one list: the ids of both lists together are the batch's ids |
| GlobeNews.TotalUsageMonotone | globe_news_post_processor/__init__.py:76-78 | token totals never decrease as results are added |
| GlobeNews.NoCuratedNoUsage | globe_news_post_processor/__init__.py:69-80 | totals start at zero and a batch with no success counts no tokens |
| GlobeNews.GlobeNewsPostProcessor.UpdateArticles | globe_news_post_processor/__init__.py:84-99 | the store ends as updating the curated articles and then moving the failed ones makes it; the handler receives exactly these two requests, in that order |
| GlobeNews.GlobeNewsPostProcessor.ProcessRound | globe_news_post_processor/__init__.py:40-43 | an empty fetch records only that fetch and means nothing is pending or a fault was met; a non-empty one records fetch, update and move of that batch's lists and makes faults plus pending documents strictly fewer |
| GlobeNews.GlobeNewsPostProcessor.ProcessPendingArticles | globe_news_post_processor/__init__.py:32-43 | the calls made are whole rounds of a non-empty fetch, its update and its move, followed by an empty fetch unless an exception left; with no faults in the script it ends without exception and nothing pending; the loop terminates |
| GlobeNews.RoundShrinks | globe_news_post_processor/__init__.py:40-42 | after a non-empty fetch the round meets a fault or takes a pending document out of the pending set, never increasing either |
| GlobeNews.RoundFaultFree | globe_news_post_processor/__init__.py:41-42 | with no faults left, a round lets no exception out and meets no fault |
| GlobeNews.FetchedNothing | globe_news_post_processor/__init__.py:40 | an empty fetch means nothing is pending, or the fetch itself met a fault |
| GlobeNews.FirstIsPending | globe_news_post_processor/__init__.py:40-42 | the first curated or else the first failed article of a fetched batch is pending |
| Database.FindOne | globe_news_post_processor/database/mongo_handler.py:137 | returns the stored document under the id, `None` when absent or without effect, or the raised error |
| Database.InsertOne | globe_news_post_processor/database/mongo_handler.py:144 | inserts and reports an id exactly on a normal reply for a new key; an existing key raises code 11000 naming it; otherwise the quarantine is unchanged |
| Database.DeleteOne | globe_news_post_processor/database/mongo_handler.py:148 | removes the id and reports a deletion exactly on a normal reply for a stored id |
| Database.ResultSize | globe_news_post_processor/database/mongo_handler.py:74-79 | the number of matches returned: all when the limit is 0; otherwise the smaller of the match count and the limit's absolute value; empty exactly when nothing matches |
| Database.Latest | globe_news_post_processor/database/mongo_handler.py:80 | the chosen document is a candidate scraped no earlier than any other |
| Database.SelectLatest | globe_news_post_processor/database/mongo_handler.py:74-83 | the batch holds pending documents with the configured schema version, each once, newest first, up to the limit, leaving out none newer than one returned |
| Database.FetchEmptyIff | globe_news_post_processor/database/mongo_handler.py:74-83 | a fetch is empty exactly when nothing is pending |
| Database.AddToSet | globe_news_post_processor/database/mongo_handler.py:112-116 | the keywords become the union of old and new, the old ones first and in place; the appended keywords were not stored before, appear once each and keep the order of the additions |
| Database.AddToSetPresent | globe_news_post_processor/database/mongo_handler.py:112-116 | adding keywords already present changes nothing |
| Database.AddToSetIdempotent | globe_news_post_processor/database/mongo_handler.py:112-116 | adding the same keywords twice equals adding them once |
| Database.UpdateDoc | globe_news_post_processor/database/mongo_handler.py:102-118 | the document is post-processed with the curated category, related countries and translations and the keyword union; every other field is kept |
| Database.UpdateOne | globe_news_post_processor/database/mongo_handler.py:102-120 | only a normal reply for a stored id changes that document; reports a modification exactly when the document changed; errors exactly on a raised reply |
| Database.UpdateAllFrame | globe_news_post_processor/database/mongo_handler.py:98-124 | only documents named by curated articles change, keep their id and schema version, and stay post-processed once set; the quarantine is untouched |
| Database.UpdatedInOrder | globe_news_post_processor/database/mongo_handler.py:119-120 | the returned ids are curated ids in input order |
| Database.UpdatedAreProcessed | globe_news_post_processor/database/mongo_handler.py:100-120 | every returned id names a stored, post-processed document |
| Database.UpdateAllSplit | globe_news_post_processor/database/mongo_handler.py:99-124 | the loop over a + b is the loop over a, then over b unless a store error ended it |
| Database.UpdateAbortIgnoresRest | globe_news_post_processor/database/mongo_handler.py:121-122 | after a store error the remaining curated articles are not updated and only the ids so far are returned |
| Database.UpdateFaultFree | globe_news_post_processor/database/mongo_handler.py:98-124 | with no faults, the loop completes and every stored document a curated article names is post-processed |
| Database.UpdateProgress | globe_news_post_processor/database/mongo_handler.py:100-120 | when the first curated article is pending, the loop meets a fault or takes it out of the pending set |
| Database.MoveErrorActionAsWritten | globe_news_post_processor/database/mongo_handler.py:161-169 | the handler as written: a non-`OperationFailure` error escapes; a duplicate key without `keyValue` escapes; one with it deletes that key; other codes are logged |
| Database.MoveErrorAction | globe_news_post_processor/database/mongo_handler.py:161-169 | the handler as intended: a duplicate key deletes that key (escapes only without `keyValue`); every other store error is logged |
| Database.ErrorActionOf | globe_news_post_processor/database/mongo_handler.py:161-169 | on every error other than a lost connection, the handler as written and the corrected one act alike |
| Database.HandlersDifferOnConnectionLoss | globe_news_post_processor/database/mongo_handler.py:163 | the two handlers differ exactly on errors that are not an `OperationFailure`, which as written escape as an `AttributeError` |
| Database.MoveOne | globe_news_post_processor/database/mongo_handler.py:135-159 | one iteration either leaves `articles` alone or removes just this id after quarantining it; a new quarantine entry is the stored document with the failure reason |
| Database.MoveOneOutcome | globe_news_post_processor/database/mongo_handler.py:137-151 | an id is collected only when its document was found, copied and deleted; an error is a raised reply or a duplicate key on this id with the original left in place |
| Database.MissingArticleSkipped | globe_news_post_processor/database/mongo_handler.py:137-159 | a failed article whose document is not stored inserts and deletes nothing and is not collected |
| Database.MoveOneProgress | globe_news_post_processor/database/mongo_handler.py:137-151 | a stored document given to one iteration meets a fault, leaves `articles`, or hits a duplicate key |
| Database.HandleMoveError | globe_news_post_processor/database/mongo_handler.py:161-169 | the `except` block the handling selects: it collects nothing and never touches the quarantine; when logging it stops the loop, when re-raising it lets that escape unchanged, and otherwise it deletes at most the duplicate key; only a re-raise or a raised delete escapes |
| Database.MoveAllFrame | globe_news_post_processor/database/mongo_handler.py:133-171 | documents only leave `articles`; existing quarantine entries are never overwritten; each new one is a stored document with the reason of a failed article of that id |
| Database.MoveAllSplit | globe_news_post_processor/database/mongo_handler.py:134-171 | the loop over a + b is the loop over a, then over b unless a store error ended it |
| Database.MoveAbortIgnoresRest | globe_news_post_processor/database/mongo_handler.py:161-171 | after a store error the remaining failed articles are not looked at |
| Database.ConnectionLossInMove | globe_news_post_processor/database/mongo_handler.py:134-171 | a lost connection after any completed prefix ends the loop with the ids moved so far. As written, the handler's `AttributeError` escapes and no ids are returned; the corrected handler stops and returns them |
| Database.Returned | globe_news_post_processor/database/mongo_handler.py:161-171 | the caller gets the collected ids, or the exception when one left the method |
| Database.MovedInOrder | globe_news_post_processor/database/mongo_handler.py:150-151 | the returned ids are failed-article ids in input order |
| Database.MovedAreQuarantined | globe_news_post_processor/database/mongo_handler.py:141-151 | every returned id has left `articles` and is in `failed_articles` |
| Database.NoArticleLost | globe_news_post_processor/database/mongo_handler.py:133-171 | every document that leaves `articles` is in `failed_articles`, when the server reports duplicates only for keys that exist |
| Database.MoveFaultFreeNoEscape | globe_news_post_processor/database/mongo_handler.py:161-167 | with no faults in the script no exception leaves the method and no fault is met |
| Database.MoveProgress | globe_news_post_processor/database/mongo_handler.py:135-151 | when the first failed article is pending, the loop meets a fault or takes it out of `articles` |
| Database.MoveOneFaultFree | globe_news_post_processor/database/mongo_handler.py:137-151 | with no faults a stored, unquarantined document is found, copied with its reason and deleted, and its id collected |
| Database.MoveFaultFree | globe_news_post_processor/database/mongo_handler.py:133-171 | with no faults, distinct stored failed articles not yet quarantined are all moved and every id is returned, in order |
| Database.MoveFaultFreeCopies | globe_news_post_processor/database/mongo_handler.py:140-151 | in that run each quarantine copy is the stored document with its reason, and none is left in `articles` |
| Database.DuplicateDeletesOriginal | globe_news_post_processor/database/mongo_handler.py:161-167 | an already quarantined article's insert hits the duplicate key: the original is deleted, its id is not returned, the quarantine is unchanged and the loop stops |
| Database.MongoHandler.FindArticle | globe_news_post_processor/database/mongo_handler.py:137 | the call answers as `FindOne` on the old state |
| Database.MongoHandler.InsertFailedArticle | globe_news_post_processor/database/mongo_handler.py:144 | the call answers as `InsertOne` on the old state |
| Database.MongoHandler.DeleteArticle | globe_news_post_processor/database/mongo_handler.py:148 | the call answers as `DeleteOne` on the old state |
| Database.MongoHandler.UpdateArticle | globe_news_post_processor/database/mongo_handler.py:102-120 | the call answers as `UpdateOne` on the old state |
| Database.MongoHandler.GetUnprocessedArticles | globe_news_post_processor/database/mongo_handler.py:65-89 | leaves the collections alone; a failing reply gives the empty list; otherwise the batch is a valid answer to the query (schema version, pending, newest first, limit) |
| Database.MongoHandler.UpdateArticles | globe_news_post_processor/database/mongo_handler.py:91-124 | the loop leaves the store and returns the ids `UpdateAll` gives |
| Database.MongoHandler.MoveArticle | globe_news_post_processor/database/mongo_handler.py:135-159 | one iteration does what `MoveOne` describes |
| Database.MongoHandler.HandleMoveFailure | globe_news_post_processor/database/mongo_handler.py:161-169 | the `except` block selected by `handling` does what `HandleMoveError` describes; with `AsWritten`, that is the source's handler |
| Database.MongoHandler.MoveFailedArticles | globe_news_post_processor/database/mongo_handler.py:126-171 | the loop leaves the store as `MoveAll` does with the handler's `handling`, and returns its ids or the exception that left it |
| Translator.NextBackoff | globe_news_post_processor/post_process_pipeline/translator.py:74-79 | the server's hint when given; otherwise exactly the smaller of twice the previous delay and 60, so never below a previous delay of at most 60 |
| Translator.Translate | globe_news_post_processor/post_process_pipeline/translator.py:60-86 | the loop's outcome, sleeps and request count are those of the reference run, including an exception other than `HTTPError` that escapes unwrapped |
| Translator.RequestsAndSleeps | globe_news_post_processor/post_process_pipeline/translator.py:61-86 | a call that ends made one request more than it slept; one still retrying slept after every response |
| Translator.FirstResponse | globe_news_post_processor/post_process_pipeline/translator.py:63-86 | text returns it; empty text fails with no retry; a non-429 error fails at once; an exception other than `HTTPError` (connection error, time-out, unreadable body) escapes at once, neither retried nor wrapped; a 429 sleeps first |
| Translator.EscapesOnlyFromRaised | globe_news_post_processor/post_process_pipeline/translator.py:61-86 | a call ends with an exception that is not an `ArticleTranslatorError` exactly when its last request raised one, and then with that request's message |
| Translator.DoubledFromInitial | globe_news_post_processor/post_process_pipeline/translator.py:32-33 | from the initial 1 second the n-th doubling is min(2^n, 60) |
| Translator.RetriesUntilSuccess | globe_news_post_processor/post_process_pipeline/translator.py:61-82 | no attempt cap: any number of 429s without `Retry-After`, whatever their error text, followed by a translation return it, after one doubled sleep per 429 |
| Translator.BackoffBoundedAndMonotone | globe_news_post_processor/post_process_pipeline/translator.py:77-82 | over any run of 429s without a hint, whatever their error text, the sleeps never exceed 60 s and never decrease |
| Translator.FirstSleeps | globe_news_post_processor/post_process_pipeline/translator.py:60-82 | the first sleep after a 429 without a hint is 2 s; with `Retry-After: v` it is v s |
| Translator.ZeroHintStaysZero | globe_news_post_processor/post_process_pipeline/translator.py:74-79 | after a `Retry-After: 0` hint, every later 429 without a hint sleeps 0 s, whatever its error text |
| FewShot.AllStringObjectsCorrect | globe_news_post_processor/post_process_pipeline/langchain/llm_handlers/base.py:62-64 | the element-by-element `all` holds exactly when every element is a string-to-string object |
| FewShot.CheckFewShotExamples | globe_news_post_processor/post_process_pipeline/langchain/llm_handlers/base.py:62-66 | accepted exactly when the data is a list of string-to-string objects, and then returned unchanged; otherwise `ValueError("Invalid few-shot examples format")` |
| FewShot.ExampleRoundTrip | globe_news_post_processor/post_process_pipeline/langchain/llm_handlers/base.py:66 | an accepted object converts to an example and back unchanged |
| FewShot.LoadFewShotExamples | globe_news_post_processor/post_process_pipeline/langchain/llm_handlers/base.py:58-68 | accepted data is returned; a shape error is the format `ValueError`; a missing file or bad JSON is "Error loading few-shot examples: …"; other errors pass through |
| FewShot.EmptyListAccepted | globe_news_post_processor/post_process_pipeline/langchain/llm_handlers/base.py:62-64 | the empty list is accepted |
| FewShot.LoadSystemPrompt | globe_news_post_processor/post_process_pipeline/langchain/llm_handlers/base.py:79-85 | the file's text, a `ValueError` naming the prompt path when it is missing, other errors unchanged; the path is joined as `os.path.join` does, so an absolute file name replaces the prompts directory |

## Left out

- I/O: MongoDB connections, HTTP requests, file reads, `time.sleep`, UUID trace ids and all logging. Sleeps are returned as a list of delays, and file contents are inputs.
- `MongoHandler.__init__` and `_check_permissions`: these are connection, database, collection and permission probes. The `MongoHandler` constructor starts from collections that are already checked.
- Database.MongoHandler.GetUnprocessedArticles: the model assumes the configuration has a `SCHEMA_VERSION` setting, and takes its value as a constructor parameter of `MongoHandler`. The `Config` class in `config.py` defines no such setting, and its `extra='ignore'` stops a `.env` entry from adding one. As written, reading `self._config.SCHEMA_VERSION` at `mongo_handler.py:77` raises `AttributeError` before any query is sent. The `except Exception` at `mongo_handler.py:87-89` then returns `[]`, so every fetch comes back empty and `process_pending_articles` processes nothing.
- `azure_openai.py`, `factory.py` and the language model's own retries are not part of this model. The language-model call is the oracle `LlmOracle`.
- The rate limiter in `base.py:88-103` only configures a langchain object whose algorithm is not in this repository.
- pydantic validation of country codes, language codes and URLs is left out; these are opaque strings. The `_id`/`id` alias handling is left out too.
- The `GlobeArticle(**doc)` conversion error in `get_unprocessed_articles` is not modelled separately, because stored documents are already articles. Its outcome, the empty list, is the one every failing reply gives.
- PostProcessor.ProcessArticle: the translator oracle is not tied to `Translator.TranslateRun`, so a translation that never stops retrying is not modelled there. An exception from building the `CuratedGlobeArticle` cannot happen because the fields are already validated.
- Translator.Translate: `Retry-After` is whole delay-seconds (section 10.2.3 of RFC 9110). A fractional value is not modelled, and neither is an HTTP-date, which `float()` rejects. When the modelled responses run out the call ends as `StillRetrying`, because the source has no attempt cap. An exception other than `HTTPError` is kept only as its message, not its Python type.
- Database.HandleMoveFailure: the duplicate-key delete uses the `_id` from `keyValue`, whereas the code passes the whole `keyValue` document as the filter, which is the same for an `_id` index.
- Database.SelectLatest: it returns one of the orders the sort allows. Among documents scraped at the same instant, `IsFetchResult` allows any order, and MongoDB's own tie order is not modelled.
- GlobeNews.GlobeNewsPostProcessor.ProcessPendingArticles: termination is proved for a finite fault script, after which the server behaves normally. A server that fails forever could keep the real loop running, and that case is not modelled.
- The token-usage log line after each batch is left out; the total is returned by `ProcessBatch`.

## Findings

| source | as written | input that shows it | evidently intended | confidence | as-written member | corrected member |
|---|---|---|---|---|---|---|
| globe_news_post_processor/database/mongo_handler.py:161-169 | the `except PyMongoError` handler reads `e._OperationFailure__code`, which only an `OperationFailure` has | a `PyMongoError` that is not an `OperationFailure` (for example a lost connection) during `find_one`, `insert_one` or `delete_one` in the move loop: the handler itself raises `AttributeError`, which escapes `move_failed_articles` and the whole pipeline | log the error and return the ids moved so far, as the `else` branch does for other store errors | not executed | Database.MoveErrorActionAsWritten, with Database.HandlersDifferOnConnectionLoss and Database.ConnectionLossInMove (`AsWritten`) | Database.MoveErrorAction, run by Database.HandleMoveError and Database.MoveAll with `Corrected`; Database.ConnectionLossInMove (`Corrected`) |
