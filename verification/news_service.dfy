/** The fetch gateway (src/services/newsService.ts): each call asks the
    document store first, falls back to the news provider on a miss, writes
    the provider's articles to the store and normalises them into
    `NewsItem`s. The store's answer, the API key, the provider's answer and
    the outcome of a store write are all inputs; each method also returns
    the provider request it issues (`None` when it does not call the
    provider). */
module NewsService {
  import opened Wrappers
  import opened NewsTypes
  import MongoNewsService
  import opened NewsModel

  /** An article in the provider's (NewsAPI) shape. An empty `author` stands
      for a missing or null one. */
  datatype ProviderArticle = ProviderArticle(
    url: string,
    title: string,
    description: string,
    content: string,
    author: string,
    sourceName: string,
    urlToImage: string,
    publishedAt: string)

  /** The `articles` field of the provider's answer. */
  datatype ArticlesField = Missing | NotArray | Articles(list: seq<ProviderArticle>)

  /** The provider's answer: a transport failure, or a JSON body. */
  datatype ProviderResponse = TransportError(message: string) | Body(articles: ArticlesField, totalResults: int)

  /** The store's answer to the cache query: it failed, or a page. */
  datatype DbLookup = DbFailed | DbPage(page: NewsResponse)

  /** The HTTP request sent to the provider; absent parameters are `None`. */
  datatype ProviderRequest = ProviderRequest(
    endpoint: string,
    apiKey: string,
    category: Option<string>,
    q: Option<string>,
    sortBy: Option<string>,
    language: string,
    page: int,
    pageSize: int)

  const MissingKeyMessage := "API key is required"
  const BadFormatMessage := "Invalid API response format"

  /** The store answered with at least one item. */
  predicate CacheHit(db: DbLookup) {
    db.DbPage? && |db.page.items| > 0
  }

  /** The `articles.map(...)` body shared by the three calls. */
  function ToNewsItem(a: ProviderArticle, category: string, trending: bool): (r: NewsItem)
    ensures r.id == a.url && r.url == a.url
    ensures r.source == a.sourceName && r.imageUrl == a.urlToImage
    ensures r.title == a.title && r.description == a.description && r.content == a.content
    ensures r.publishedAt == a.publishedAt
    ensures a.author != "" ==> r.author == a.author
    ensures a.author == "" ==> r.author == "Unknown"
    ensures r.category == category && r.isTrending == trending && !r.isBreaking && !r.isNew
  {
    NewsItem(a.url, a.title, a.description, a.content,
             if a.author != "" then a.author else "Unknown",
             a.sourceName, a.url, a.urlToImage, a.publishedAt, category,
             false, trending, false)
  }

  /** `articles.map(...)`: one item per article, same order, nothing dropped. */
  function ToNewsItems(arts: seq<ProviderArticle>, category: string, trending: bool): (r: seq<NewsItem>)
    ensures |r| == |arts|
    ensures forall k :: 0 <= k < |arts| ==> r[k] == ToNewsItem(arts[k], category, trending)
  {
    if |arts| == 0 then [] else [ToNewsItem(arts[0], category, trending)] + ToNewsItems(arts[1..], category, trending)
  }

  /** How `saveNewsToDb` reads a provider article: of the fields it looks at,
      only `title`, `description` and `content` exist under those names. */
  function AsStoredArticle(a: ProviderArticle): (r: MongoNewsService.RawArticle)
    ensures !MongoNewsService.IsComplete(r)
    ensures r.title == Some(a.title) && r.description == Some(a.description) && r.content == Some(a.content)
    ensures r.article_id.None? && r.source_id.None? && r.link.None? && r.pubDate.None?
  {
    MongoNewsService.RawArticle(
      None, Some(a.title), None, None, None,
      Some(a.description), Some(a.content), None, None, None, None)
  }

  function AsStoredBatch(arts: seq<ProviderArticle>): (r: seq<MongoNewsService.RawArticle>)
    ensures |r| == |arts|
    ensures forall k :: 0 <= k < |arts| ==> r[k] == AsStoredArticle(arts[k])
  {
    seq(|arts|, k requires 0 <= k < |arts| => AsStoredArticle(arts[k]))
  }

  /** Writing provider articles to the store never inserts anything: each of
      them lacks `article_id`, `source_id`, `link` and `pubDate`, so the
      validation step drops all of them. */
  lemma ProviderArticlesNeverStored(arts: seq<ProviderArticle>)
    ensures MongoNewsService.PrepareBatch(AsStoredBatch(arts)) == []
  {
    var raw := AsStoredBatch(arts);
    assert forall k :: 0 <= k < |raw| ==> !MongoNewsService.IsComplete(raw[k]);
    MongoNewsService.PrepareBatchEmptyIff(raw);
  }

  /** The cache write done after a successful provider call. It never fails,
      whatever the store would do with an insertion, because nothing reaches
      the insertion. */
  method SaveProviderArticles(arts: seq<ProviderArticle>, insert: MongoNewsService.InsertOutcome)
    returns (attempted: Option<seq<NewsDocument>>)
    ensures attempted == None
  {
    var result;
    attempted, result := MongoNewsService.SaveNewsToDb(MongoNewsService.Batch(AsStoredBatch(arts)), insert);
    ProviderArticlesNeverStored(arts);
    assert result.Pass?;
  }

  /** `fetchNewsApi(category, page)`. */
  method FetchNewsApi(category: string, page: int, db: DbLookup, apiKey: string,
                      response: ProviderResponse, insert: MongoNewsService.InsertOutcome)
    returns (request: Option<ProviderRequest>, result: Result<NewsResponse, string>)
    ensures CacheHit(db) ==> request == None && result == Success(db.page)
    ensures !CacheHit(db) && apiKey == "" ==> request == None && result == Failure(MissingKeyMessage)
    ensures !CacheHit(db) && apiKey != "" ==>
      request == Some(ProviderRequest("/top-headlines", apiKey, if category != "all" then Some(category) else None,
                                      None, None, "en", page, 10))
    ensures request.Some? ==> (request.value.category.None? <==> category == "all")
    ensures request.Some? && response.TransportError? ==> result == Failure(response.message)
    ensures request.Some? && response.Body? && !response.articles.Articles? ==> result == Failure(BadFormatMessage)
    ensures request.Some? && response.Body? && response.articles.Articles? ==>
      && result.Success?
      && result.value.items == ToNewsItems(response.articles.list, category, false)
      && result.value.totalItems == response.totalResults
      && result.value.page == page && result.value.pageSize == 10
      && (result.value.hasMore <==> page * 10 < response.totalResults)
  {
    if CacheHit(db) {
      return None, Success(db.page);
    }
    if apiKey == "" {
      return None, Failure(MissingKeyMessage);
    }
    request := Some(ProviderRequest("/top-headlines", apiKey, if category != "all" then Some(category) else None,
                                    None, None, "en", page, 10));
    match response
    case TransportError(message) =>
      result := Failure(message);
    case Body(articles, totalResults) =>
      if !articles.Articles? {
        result := Failure(BadFormatMessage);
      } else {
        var _ := SaveProviderArticles(articles.list, insert);
        result := Success(Page(ToNewsItems(articles.list, category, false), totalResults, page, 10,
                               page * 10 < totalResults));
      }
  }

  /** `fetchTrendingNewsApi()`. */
  method FetchTrendingNewsApi(db: DbLookup, apiKey: string, response: ProviderResponse,
                              insert: MongoNewsService.InsertOutcome)
    returns (request: Option<ProviderRequest>, result: Result<NewsResponse, string>)
    ensures CacheHit(db) ==> request == None && result == Success(db.page)
    ensures !CacheHit(db) && apiKey == "" ==> request == None && result == Failure(MissingKeyMessage)
    ensures !CacheHit(db) && apiKey != "" ==>
      request == Some(ProviderRequest("/everything", apiKey, None, Some("trending OR viral OR breaking"),
                                      Some("popularity"), "en", 1, 20))
    ensures request.Some? && response.TransportError? ==> result == Failure(response.message)
    ensures request.Some? && response.Body? && !response.articles.Articles? ==> result == Failure(BadFormatMessage)
    ensures request.Some? && response.Body? && response.articles.Articles? ==>
      result == Success(Page(ToNewsItems(response.articles.list, "trending", true), response.totalResults, 1, 20, false))
  {
    if CacheHit(db) {
      return None, Success(db.page);
    }
    if apiKey == "" {
      return None, Failure(MissingKeyMessage);
    }
    request := Some(ProviderRequest("/everything", apiKey, None, Some("trending OR viral OR breaking"),
                                    Some("popularity"), "en", 1, 20));
    match response
    case TransportError(message) =>
      result := Failure(message);
    case Body(articles, totalResults) =>
      if !articles.Articles? {
        result := Failure(BadFormatMessage);
      } else {
        var _ := SaveProviderArticles(articles.list, insert);
        result := Success(Page(ToNewsItems(articles.list, "trending", true), totalResults, 1, 20, false));
      }
  }

  /** `searchNewsApi(query)`. */
  method SearchNewsApi(query: string, db: DbLookup, apiKey: string, response: ProviderResponse,
                       insert: MongoNewsService.InsertOutcome)
    returns (request: Option<ProviderRequest>, result: Result<NewsResponse, string>)
    ensures CacheHit(db) ==> request == None && result == Success(db.page)
    ensures !CacheHit(db) && apiKey == "" ==> request == None && result == Failure(MissingKeyMessage)
    ensures !CacheHit(db) && apiKey != "" ==>
      request == Some(ProviderRequest("/everything", apiKey, None, Some(query), Some("relevancy"), "en", 1, 10))
    ensures request.Some? && response.TransportError? ==> result == Failure(response.message)
    ensures request.Some? && response.Body? && !response.articles.Articles? ==> result == Failure(BadFormatMessage)
    ensures request.Some? && response.Body? && response.articles.Articles? ==>
      && result.Success?
      && result.value.items == ToNewsItems(response.articles.list, "search", false)
      && result.value.totalItems == response.totalResults
      && result.value.page == 1 && result.value.pageSize == 10
      && (result.value.hasMore <==> 10 < response.totalResults)
  {
    if CacheHit(db) {
      return None, Success(db.page);
    }
    if apiKey == "" {
      return None, Failure(MissingKeyMessage);
    }
    request := Some(ProviderRequest("/everything", apiKey, None, Some(query), Some("relevancy"), "en", 1, 10));
    match response
    case TransportError(message) =>
      result := Failure(message);
    case Body(articles, totalResults) =>
      if !articles.Articles? {
        result := Failure(BadFormatMessage);
      } else {
        var _ := SaveProviderArticles(articles.list, insert);
        result := Success(Page(ToNewsItems(articles.list, "search", false), totalResults, 1, 10, 10 < totalResults));
      }
  }
}
