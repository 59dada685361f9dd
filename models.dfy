/** The article records of the post-processor: the stored article, its curated
    and failed forms, token usage, and the shape of the language model's output. */
module Models {
  import opened Wrappers

  /** A MongoDB ObjectId, kept opaque. */
  type ArticleId = nat

  /** A datetime, kept as an opaque ordered instant. */
  type Instant = int

  /** `GlobeArticle`: one scraped news record. Country and language codes and
      URLs are opaque strings. */
  datatype GlobeArticle = GlobeArticle(
    id: ArticleId,
    title: string,
    titleTranslated: Option<string>,
    url: string,
    description: string,
    descriptionTranslated: Option<string>,
    datePublished: Instant,
    provider: string,
    language: Option<string>,
    content: string,
    originCountry: string,
    keywords: seq<string>,
    sourceApi: string,
    schemaVersion: string,
    dateScraped: Instant,
    category: Option<string>,
    authors: Option<seq<string>>,
    relatedCountries: Option<seq<string>>,
    imageUrl: Option<string>,
    postProcessed: bool)

  /** `FailedGlobeArticle`: every field of the article plus the reason it failed. */
  datatype FailedGlobeArticle = FailedGlobeArticle(article: GlobeArticle, failureReason: string)

  /** Input and output token counts reported by one language-model call. */
  datatype TokenUsage = TokenUsage(inputTokens: nat, outputTokens: nat) {
    function Plus(other: TokenUsage): TokenUsage {
      TokenUsage(inputTokens + other.inputTokens, outputTokens + other.outputTokens)
    }
  }

  // ---------------------------------------------------------------------------
  // CuratedGlobeArticle: the two validators run when one is constructed
  // ---------------------------------------------------------------------------

  /** The `post_processed` validator runs before type checking and ignores the
      value it is given. */
  function SetPostProcessedToTrue(supplied: bool): (r: bool)
    ensures r
  {
    true
  }

  /** `countries` without any entry equal to `country`, the others in their
      original order. */
  function WithoutCountry(countries: seq<string>, country: string): (r: seq<string>)
    ensures country !in r
    ensures |r| <= |countries|
    ensures forall c :: c != country ==> multiset(r)[c] == multiset(countries)[c]
  {
    if countries == [] then []
    else
      assert countries == [countries[0]] + countries[1..];
      if countries[0] == country then WithoutCountry(countries[1..], country)
      else [countries[0]] + WithoutCountry(countries[1..], country)
  }

  /** The `remove_origin_country` validator: filters only when both the origin
      country and the related countries are truthy (non-empty). */
  function RemoveOriginCountry(originCountry: string, related: Option<seq<string>>): (r: Option<seq<string>>)
    ensures r.Some? <==> related.Some?
    ensures originCountry != "" && related.Some? ==> originCountry !in r.value
    ensures related.Some? ==> forall c :: c != originCountry ==> multiset(r.value)[c] == multiset(related.value)[c]
    ensures originCountry == "" || related.None? || related == Some([]) ==> r == related
  {
    if originCountry != "" && related.Some? && related.value != [] then
      Some(WithoutCountry(related.value, originCountry))
    else
      related
  }

  /** What a curated article guarantees: the flag is set and the origin country
      is not among the related countries. */
  predicate IsCurated(a: GlobeArticle) {
    && a.postProcessed
    && (a.originCountry != "" && a.relatedCountries.Some? ==> a.originCountry !in a.relatedCountries.value)
  }

  /** `CuratedGlobeArticle(**fields)`: both validators applied to the fields. */
  function BuildCurated(fields: GlobeArticle): (c: GlobeArticle)
    ensures IsCurated(c)
    ensures c == fields.(postProcessed := c.postProcessed, relatedCountries := c.relatedCountries)
    ensures c.relatedCountries.Some? <==> fields.relatedCountries.Some?
    ensures fields.relatedCountries.Some? ==>
      forall x :: x != fields.originCountry ==>
        multiset(c.relatedCountries.value)[x] == multiset(fields.relatedCountries.value)[x]
  {
    fields.(postProcessed := SetPostProcessedToTrue(fields.postProcessed),
            relatedCountries := RemoveOriginCountry(fields.originCountry, fields.relatedCountries))
  }

  lemma {:induction false} WithoutCountryAppend(a: seq<string>, b: seq<string>, country: string)
    ensures WithoutCountry(a + b, country) == WithoutCountry(a, country) + WithoutCountry(b, country)
  {
    if a == [] {
      assert a + b == b;
    } else {
      assert (a + b)[0] == a[0];
      assert (a + b)[1..] == a[1..] + b;
      WithoutCountryAppend(a[1..], b, country);
      if a[0] != country {
        assert [a[0]] + (WithoutCountry(a[1..], country) + WithoutCountry(b, country))
            == ([a[0]] + WithoutCountry(a[1..], country)) + WithoutCountry(b, country);
      }
    }
  }

  /** A list that does not mention the country comes back unchanged. */
  lemma {:induction false} WithoutAbsentCountry(countries: seq<string>, country: string)
    requires country !in countries
    ensures WithoutCountry(countries, country) == countries
  {
    if countries != [] {
      assert country !in countries[1..];
      WithoutAbsentCountry(countries[1..], country);
    }
  }

  lemma WithoutCountryIdempotent(countries: seq<string>, country: string)
    ensures WithoutCountry(WithoutCountry(countries, country), country) == WithoutCountry(countries, country)
  {
    WithoutAbsentCountry(WithoutCountry(countries, country), country);
  }

  lemma RemoveOriginCountryIdempotent(originCountry: string, related: Option<seq<string>>)
    ensures RemoveOriginCountry(originCountry, RemoveOriginCountry(originCountry, related))
         == RemoveOriginCountry(originCountry, related)
  {
    if originCountry != "" && related.Some? && related.value != [] {
      WithoutCountryIdempotent(related.value, originCountry);
    }
  }

  /** Re-validating a curated article changes nothing. */
  lemma BuildCuratedIdempotent(fields: GlobeArticle)
    ensures BuildCurated(BuildCurated(fields)) == BuildCurated(fields)
  {
    RemoveOriginCountryIdempotent(fields.originCountry, fields.relatedCountries);
  }

  /** The filter on the lists used by the unit tests and fixtures. */
  lemma RemoveOriginCountryExamples()
    ensures RemoveOriginCountry("GB", Some(["US", "GB", "CA"])) == Some(["US", "CA"])
    ensures RemoveOriginCountry("CZ", Some(["DE", "SK", "PL"])) == Some(["DE", "SK", "PL"])
    ensures RemoveOriginCountry("DE", Some(["DE", "FR"])) == Some(["FR"])
    ensures RemoveOriginCountry("GB", None) == None
  {
    assert WithoutCountry(["CA"], "GB") == ["CA"];
    assert WithoutCountry(["GB", "CA"], "GB") == ["CA"];
    assert WithoutCountry(["US", "GB", "CA"], "GB") == ["US", "CA"];
    assert WithoutCountry(["FR"], "DE") == ["FR"];
    assert WithoutCountry(["DE", "FR"], "DE") == ["FR"];
    WithoutAbsentCountry(["DE", "SK", "PL"], "CZ");
  }

  // ---------------------------------------------------------------------------
  // LLMArticleData: the structured output of the language model
  // ---------------------------------------------------------------------------

  const MAX_KEYWORDS: nat := 5

  /** The seven literal values of `LLMArticleData.category`. */
  datatype Category = Politics | Economy | Technology | Society | Culture | Sports | Environment

  function CategoryName(c: Category): string {
    match c
    case Politics => "POLITICS"
    case Economy => "ECONOMY"
    case Technology => "TECHNOLOGY"
    case Society => "SOCIETY"
    case Culture => "CULTURE"
    case Sports => "SPORTS"
    case Environment => "ENVIRONMENT"
  }

  function ParseCategory(s: string): (r: Option<Category>)
    ensures r.Some? ==> CategoryName(r.value) == s
    ensures r.None? ==> forall c: Category :: CategoryName(c) != s
  {
    if s == "POLITICS" then Some(Politics)
    else if s == "ECONOMY" then Some(Economy)
    else if s == "TECHNOLOGY" then Some(Technology)
    else if s == "SOCIETY" then Some(Society)
    else if s == "CULTURE" then Some(Culture)
    else if s == "SPORTS" then Some(Sports)
    else if s == "ENVIRONMENT" then Some(Environment)
    else None
  }

  lemma ParseCategoryName(c: Category)
    ensures ParseCategory(CategoryName(c)) == Some(c)
  {
    match c
    case Politics =>
    case Economy =>
    case Technology =>
    case Society =>
    case Culture =>
    case Sports =>
    case Environment =>
  }

  /** A keyword list of at most five entries (`Field(..., max_length=5)`). */
  type KeywordList = s: seq<string> | |s| <= MAX_KEYWORDS

  datatype LlmArticleData = LlmArticleData(category: Category, relatedCountries: seq<string>, keywords: KeywordList)

  /** The model's output before validation. */
  datatype RawLlmOutput = RawLlmOutput(category: string, relatedCountries: seq<string>, keywords: seq<string>)

  /** A field that failed validation; every failing field is reported. */
  datatype InvalidField = CategoryField | KeywordsField

  function ParseLlmArticleData(raw: RawLlmOutput): (r: Result<LlmArticleData, seq<InvalidField>>)
    ensures r.Ok? <==> (exists c: Category :: CategoryName(c) == raw.category) && |raw.keywords| <= MAX_KEYWORDS
    ensures r.Ok? ==>
      && CategoryName(r.value.category) == raw.category
      && r.value.relatedCountries == raw.relatedCountries
      && r.value.keywords == raw.keywords
    ensures r.Err? ==>
      && (CategoryField in r.error <==> forall c: Category :: CategoryName(c) != raw.category)
      && (KeywordsField in r.error <==> |raw.keywords| > MAX_KEYWORDS)
  {
    var category := ParseCategory(raw.category);
    if category.Some? && |raw.keywords| <= MAX_KEYWORDS then
      Ok(LlmArticleData(category.value, raw.relatedCountries, raw.keywords))
    else
      Err((if category.None? then [CategoryField] else []) +
          (if |raw.keywords| > MAX_KEYWORDS then [KeywordsField] else []))
  }

  /** Validating an already validated value gives it back. */
  lemma ParseLlmArticleDataRoundTrip(d: LlmArticleData)
    ensures ParseLlmArticleData(RawLlmOutput(CategoryName(d.category), d.relatedCountries, d.keywords)) == Ok(d)
  {
    ParseCategoryName(d.category);
  }
}
