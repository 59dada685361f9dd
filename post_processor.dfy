/** `ArticlePostProcessor.process_article`: enrich one article with the
    language model, translate its title and description when needed, and build
    the curated article, or a failed article carrying the exception message.
    The language-model handler and the translator are oracles: total functions
    returning `Ok` or `Err(message)`, where the message is `str(e)` of the
    exception they raise. */
module PostProcessor {
  import opened Wrappers
  import opened Models

  /** `llm_handler.process_article`: the parsed data and token usage, or the
      message of the exception it raised. */
  type LlmOracle = GlobeArticle -> Result<(LlmArticleData, TokenUsage), string>

  /** `translator.translate(text, from_lang)`: the translation, or the message
      of the exception it raised. */
  type TranslateOracle = (string, string) -> Result<string, string>

  /** The two shapes `process_article` returns, tagged instead of told apart
      by `isinstance(result, tuple)`. */
  datatype ProcessResult =
    | Processed(curated: GlobeArticle, usage: TokenUsage)
    | Failed(failed: FailedGlobeArticle)
  {
    function Id(): ArticleId {
      match this
      case Processed(curated, _) => curated.id
      case Failed(failed) => failed.article.id
    }
  }

  /** `article.language != 'en' and article.language`. */
  predicate NeedsTranslation(language: Option<string>) {
    language.Some? && language.value != "en" && language.value != ""
  }

  /** `_translate_if_needed`: the title, then the description, from the
      article's language; the originals when it is English or unset. */
  function TranslateIfNeeded(article: GlobeArticle, translate: TranslateOracle): (r: Result<(string, string), string>)
    ensures !NeedsTranslation(article.language) ==> r == Ok((article.title, article.description))
    ensures NeedsTranslation(article.language) ==>
      var lang := article.language.value;
      && (r.Ok? <==> translate(article.title, lang).Ok? && translate(article.description, lang).Ok?)
      && (r.Ok? ==> r.value == (translate(article.title, lang).value, translate(article.description, lang).value))
      && (translate(article.title, lang).Err? ==> r == Err(translate(article.title, lang).error))
      && (translate(article.title, lang).Ok? && translate(article.description, lang).Err? ==>
            r == Err(translate(article.description, lang).error))
  {
    if NeedsTranslation(article.language) then
      var lang := article.language.value;
      match translate(article.title, lang)
      case Err(e) => Err(e)
      case Ok(title) =>
        match translate(article.description, lang)
        case Err(e) => Err(e)
        case Ok(description) => Ok((title, description))
    else
      Ok((article.title, article.description))
  }

  /** The fields `_create_curated_article` copies from the article: all but
      the five it replaces and the flag the validator forces. */
  predicate CarriedOver(article: GlobeArticle, c: GlobeArticle) {
    c == article.(category := c.category, relatedCountries := c.relatedCountries, keywords := c.keywords,
                  titleTranslated := c.titleTranslated, descriptionTranslated := c.descriptionTranslated,
                  postProcessed := c.postProcessed)
  }

  /** `_create_curated_article`. */
  function CreateCuratedArticle(article: GlobeArticle, data: LlmArticleData, title: string, description: string): (c: GlobeArticle)
    ensures IsCurated(c)
    ensures CarriedOver(article, c)
    ensures c.category == Some(CategoryName(data.category))
    ensures c.keywords == data.keywords
    ensures c.titleTranslated == Some(title) && c.descriptionTranslated == Some(description)
    ensures c.relatedCountries.Some?
    ensures forall x :: x != article.originCountry ==>
      multiset(c.relatedCountries.value)[x] == multiset(data.relatedCountries)[x]
    ensures c.relatedCountries == RemoveOriginCountry(article.originCountry, Some(data.relatedCountries))
  {
    BuildCurated(article.(category := Some(CategoryName(data.category)),
                          relatedCountries := Some(data.relatedCountries),
                          keywords := data.keywords,
                          titleTranslated := Some(title),
                          descriptionTranslated := Some(description)))
  }

  /** `process_article`. */
  function ProcessArticle(article: GlobeArticle, llm: LlmOracle, translate: TranslateOracle): (r: ProcessResult)
    ensures r.Id() == article.id
    ensures r.Processed? <==> llm(article).Ok? && TranslateIfNeeded(article, translate).Ok?
    ensures r.Processed? ==>
      var data := llm(article).value.0;
      var translated := TranslateIfNeeded(article, translate).value;
      && r.usage == llm(article).value.1
      && IsCurated(r.curated)
      && CarriedOver(article, r.curated)
      && r.curated.category == Some(CategoryName(data.category))
      && r.curated.keywords == data.keywords
      && r.curated.relatedCountries == RemoveOriginCountry(article.originCountry, Some(data.relatedCountries))
      && r.curated.titleTranslated == Some(translated.0)
      && r.curated.descriptionTranslated == Some(translated.1)
    ensures r.Failed? ==>
      && r.failed.article == article
      && r.failed.failureReason ==
           (if llm(article).Err? then llm(article).error else TranslateIfNeeded(article, translate).error)
  {
    match llm(article)
    case Err(message) => Failed(FailedGlobeArticle(article, message))
    case Ok((data, usage)) =>
      match TranslateIfNeeded(article, translate)
      case Err(message) => Failed(FailedGlobeArticle(article, message))
      case Ok((title, description)) => Processed(CreateCuratedArticle(article, data, title, description), usage)
  }

  /** An English or unlabelled article never consults the translator, and its
      "translated" fields are its own title and description. */
  lemma EnglishIgnoresTranslator(article: GlobeArticle, llm: LlmOracle, t1: TranslateOracle, t2: TranslateOracle)
    requires !NeedsTranslation(article.language)
    ensures ProcessArticle(article, llm, t1) == ProcessArticle(article, llm, t2)
    ensures ProcessArticle(article, llm, t1).Processed? ==>
      && ProcessArticle(article, llm, t1).curated.titleTranslated == Some(article.title)
      && ProcessArticle(article, llm, t1).curated.descriptionTranslated == Some(article.description)
  {
  }

  /** When the language model fails, no translation is attempted: the result is
      the same whatever the translator would do. */
  lemma LlmFailureIgnoresTranslator(article: GlobeArticle, llm: LlmOracle, t1: TranslateOracle, t2: TranslateOracle)
    requires llm(article).Err?
    ensures ProcessArticle(article, llm, t1) == ProcessArticle(article, llm, t2)
            == Failed(FailedGlobeArticle(article, llm(article).error))
  {
  }

  /** A failed title translation ends the step before the description is
      translated: the description's translation cannot change the result. */
  lemma TitleTranslatedFirst(article: GlobeArticle, llm: LlmOracle, t1: TranslateOracle, t2: TranslateOracle)
    requires NeedsTranslation(article.language)
    requires t1(article.title, article.language.value) == t2(article.title, article.language.value)
    requires t1(article.title, article.language.value).Err?
    ensures ProcessArticle(article, llm, t1) == ProcessArticle(article, llm, t2)
  {
  }
}
