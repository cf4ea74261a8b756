/** The document-store side of the news cache
    (src/services/mongoNewsService.ts): validating and normalising a batch of
    raw articles before insertion, classifying insertion errors, and the page
    arithmetic of the three read queries. The store itself is an input: a
    sequence of documents already in `publishedAt`-descending order, and the
    outcome of an insertion. */
module MongoNewsService {
  import opened Wrappers
  import opened NewsTypes
  import opened NewsModel

  /** A raw article in the provider shape `saveNewsToDb` expects. A field is
      `None` when absent (or null). */
  datatype RawArticle = RawArticle(
    article_id: Option<string>,
    title: Option<string>,
    source_id: Option<string>,
    link: Option<string>,
    pubDate: Option<string>,
    description: Option<string>,
    content: Option<string>,
    image_url: Option<string>,
    creator: Option<seq<string>>,
    category: Option<seq<string>>,
    keywords: Option<seq<string>>)

  /** The argument of `saveNewsToDb`, which may not be an array at all. */
  datatype BatchInput = NotAnArray | Batch(items: seq<RawArticle>)

  /** An error raised by the store; `code` is absent for non-driver errors. */
  datatype DbError = DbError(code: Option<int>, message: string)

  /** What `insertMany` does with the batch it is given. */
  datatype InsertOutcome = Inserted | InsertFailed(err: DbError)

  /** The driver's duplicate-key error code. */
  const DuplicateKeyCode := 11000

  /** A string field is truthy when present and non-empty. */
  predicate Truthy(o: Option<string>) {
    o.Some? && o.value != ""
  }

  /** The article has every field the filter insists on. */
  predicate IsComplete(x: RawArticle)
    ensures IsComplete(x) <==> HasRequiredFields(Normalise(x))
  {
    Truthy(x.article_id) && Truthy(x.title) && Truthy(x.source_id) && Truthy(x.link) && Truthy(x.pubDate)
  }

  /** `Array.prototype.join`. */
  function Join(xs: seq<string>, sep: string): (r: string)
    ensures |xs| == 1 ==> r == xs[0]
    ensures sep != "" ==> (r == "" <==> |xs| == 0 || (|xs| == 1 && xs[0] == ""))
  {
    if |xs| == 0 then ""
    else if |xs| == 1 then xs[0]
    else xs[0] + sep + Join(xs[1..], sep)
  }

  /** `item.creator?.join(', ') || 'Unknown'`. */
  function AuthorOf(creator: Option<seq<string>>): (r: string)
    ensures r != ""
    ensures creator.None? ==> r == "Unknown"
    ensures creator.Some? && Join(creator.value, ", ") != "" ==> r == Join(creator.value, ", ")
    ensures creator.Some? && Join(creator.value, ", ") == "" ==> r == "Unknown"
  {
    var joined := if creator.Some? then Join(creator.value, ", ") else "";
    if joined != "" then joined else "Unknown"
  }

  /** `item.category?.[0] || 'general'`. */
  function CategoryOf(category: Option<seq<string>>): (r: string)
    ensures r != ""
    ensures category.Some? && |category.value| > 0 && category.value[0] != "" ==> r == category.value[0]
    ensures category.None? || |category.value| == 0 || category.value[0] == "" ==> r == "general"
  {
    if category.Some? && |category.value| > 0 && category.value[0] != "" then category.value[0]
    else "general"
  }

  /** The document built for a raw article; the code builds it only for
      complete articles, where every required field is present. */
  function Normalise(x: RawArticle): (d: NewsDocument)
    ensures d.article_id == x.article_id.GetOr("") && d.title == x.title.GetOr("")
    ensures d.source == x.source_id.GetOr("") && d.url == x.link.GetOr("") && d.publishedAt == x.pubDate.GetOr("")
    ensures d.description == x.description.GetOr("") && d.content == x.content.GetOr("")
    ensures d.imageUrl == x.image_url.GetOr("")
    ensures d.author == AuthorOf(x.creator) && d.category == CategoryOf(x.category)
    ensures d.isBreaking <==> x.keywords.Some? && "breaking" in x.keywords.value
    ensures !d.isTrending
  {
    NewsDocument(
      x.article_id.GetOr(""),
      x.title.GetOr(""),
      x.description.GetOr(""),
      x.content.GetOr(""),
      AuthorOf(x.creator),
      x.source_id.GetOr(""),
      x.link.GetOr(""),
      x.image_url.GetOr(""),
      x.pubDate.GetOr(""),
      CategoryOf(x.category),
      x.keywords.Some? && "breaking" in x.keywords.value,
      false)
  }

  /** The `map(...).filter(Boolean)` step: incomplete articles are dropped,
      the others normalised, in input order. */
  function PrepareBatch(xs: seq<RawArticle>): (r: seq<NewsDocument>)
    ensures |r| <= |xs|
    ensures forall k :: 0 <= k < |r| ==> HasRequiredFields(r[k])
  {
    if |xs| == 0 then []
    else (if IsComplete(xs[0]) then [Normalise(xs[0])] else []) + PrepareBatch(xs[1..])
  }

  /** The filter keeps input order: preparing a concatenation prepares the
      parts one after the other. */
  lemma {:induction false} PrepareBatchAppend(a: seq<RawArticle>, b: seq<RawArticle>)
    ensures PrepareBatch(a + b) == PrepareBatch(a) + PrepareBatch(b)
  {
    if |a| == 0 {
      assert a + b == b;
    } else {
      assert (a + b)[1..] == a[1..] + b;
      PrepareBatchAppend(a[1..], b);
    }
  }

  /** One article is kept, normalised, exactly when it is complete; with
      `PrepareBatchAppend` this determines the whole batch. */
  lemma PrepareBatchSingle(x: RawArticle)
    ensures PrepareBatch([x]) == if IsComplete(x) then [Normalise(x)] else []
  {
    assert [x][1..] == [];
  }

  /** An article is dropped exactly when it is incomplete, so nothing is left
      to insert exactly when no article is complete. */
  lemma {:induction false} PrepareBatchEmptyIff(xs: seq<RawArticle>)
    ensures PrepareBatch(xs) == [] <==> forall k :: 0 <= k < |xs| ==> !IsComplete(xs[k])
  {
    if |xs| > 0 {
      PrepareBatchEmptyIff(xs[1..]);
      assert forall k :: 1 <= k < |xs| ==> xs[k] == xs[1..][k - 1];
    }
  }

  /** `saveNewsToDb`: returns the batch handed to `insertMany` (None when no
      insertion is attempted) and whether the call fails. A non-array or
      empty argument, or a batch with nothing complete, returns at once; a
      duplicate-key error is success; every other error is rethrown. */
  method SaveNewsToDb(input: BatchInput, insert: InsertOutcome) returns (attempted: Option<seq<NewsDocument>>, result: Outcome<DbError>)
    ensures input.NotAnArray? || |input.items| == 0 ==> attempted == None
    ensures input.Batch? && |input.items| > 0 ==>
      attempted == (if PrepareBatch(input.items) == [] then None else Some(PrepareBatch(input.items)))
    ensures attempted.Some? ==> |attempted.value| > 0 && forall k :: 0 <= k < |attempted.value| ==> HasRequiredFields(attempted.value[k])
    ensures result.Fail? <==> attempted.Some? && insert.InsertFailed? && insert.err.code != Some(DuplicateKeyCode)
    ensures result.Fail? ==> result.error == insert.err
  {
    if input.NotAnArray? || |input.items| == 0 {
      return None, Pass;
    }
    var documents := PrepareBatch(input.items);
    if |documents| == 0 {
      return None, Pass;
    }
    attempted := Some(documents);
    match insert
    case Inserted =>
      result := Pass;
    case InsertFailed(err) =>
      if err.code == Some(DuplicateKeyCode) {
        result := Pass;
      } else {
        result := Fail(err);
      }
  }

  // ---------------------------------------------------------------------
  // Reads

  const PageSize := 10
  const TrendingLimit := 20
  const SearchLimit := 10

  /** `Array.prototype.filter`. */
  function Filter<T>(s: seq<T>, p: T -> bool): (r: seq<T>)
    ensures |r| <= |s|
    ensures forall k :: 0 <= k < |r| ==> p(r[k]) && r[k] in s
    ensures forall x :: x in s && p(x) ==> x in r
  {
    if |s| == 0 then []
    else
      var rest := Filter(s[1..], p);
      assert forall x :: x in s[1..] ==> x in s;
      assert forall x :: x in s ==> x == s[0] || x in s[1..];
      if p(s[0]) then [s[0]] + rest else rest
  }

  /** `filter` keeps order: filtering a concatenation is the concatenation
      of the filtered parts. */
  lemma {:induction false} FilterAppend<T>(a: seq<T>, b: seq<T>, p: T -> bool)
    ensures Filter(a + b, p) == Filter(a, p) + Filter(b, p)
  {
    if |a| == 0 {
      assert a + b == b;
    } else {
      assert (a + b)[1..] == a[1..] + b;
      FilterAppend(a[1..], b, p);
    }
  }

  /** `.skip(skip).limit(limit)` on an ordered result. */
  function Window<T>(s: seq<T>, skip: nat, limit: nat): (r: seq<T>)
    ensures |r| <= limit
    ensures |r| == if skip >= |s| then 0 else if |s| - skip < limit then |s| - skip else limit
    ensures skip <= |s| ==> r == s[skip..][..|r|]
  {
    if skip >= |s| then []
    else if |s| - skip < limit then s[skip..]
    else s[skip..skip + limit]
  }

  /** The `{ category }` query as a test on documents. */
  function InCategory(category: string): NewsDocument -> bool {
    (d: NewsDocument) => d.category == category
  }

  /** The documents a category query selects, in store order: all of them
      for 'all', otherwise exactly those of that category. */
  function MatchingCategory(db: seq<NewsDocument>, category: string): (r: seq<NewsDocument>)
    ensures category == "all" ==> r == db
    ensures category != "all" ==> r == Filter(db, InCategory(category))
    ensures forall k :: 0 <= k < |r| ==> r[k] in db && (category == "all" || r[k].category == category)
    ensures forall d :: d in db && (category == "all" || d.category == category) ==> d in r
  {
    if category != "all" then Filter(db, InCategory(category)) else db
  }

  /** `getNewsFromDb`: the `page`-th window of ten matching documents. */
  function GetNewsFromDb(db: seq<NewsDocument>, category: string, page: int): (r: Page<NewsDocument>)
    requires page >= 1
    ensures |r.items| <= PageSize && r.page == page && r.pageSize == PageSize
    ensures r.totalItems == |MatchingCategory(db, category)|
    ensures r.items == Window(MatchingCategory(db, category), (page - 1) * PageSize, PageSize)
    ensures r.hasMore <==> page * PageSize < r.totalItems
  {
    var matching := MatchingCategory(db, category);
    var skip := (page - 1) * PageSize;
    Page(Window(matching, skip, PageSize), |matching|, page, PageSize, page * PageSize < |matching|)
  }

  /** `hasMore` says exactly that the next page is not empty. */
  lemma HasMoreIffNextPageNonEmpty(db: seq<NewsDocument>, category: string, page: int)
    requires page >= 1
    ensures GetNewsFromDb(db, category, page).hasMore <==> |GetNewsFromDb(db, category, page + 1).items| > 0
  {
    assert (page + 1 - 1) * PageSize == page * PageSize;
  }

  /** Pages tile the matching documents: the k-th of them (0-based) is entry
      k % 10 of page k / 10 + 1. */
  lemma DocumentOnItsPage(db: seq<NewsDocument>, category: string, k: nat)
    requires k < |MatchingCategory(db, category)|
    ensures var p := GetNewsFromDb(db, category, k / PageSize + 1);
      k % PageSize < |p.items| && p.items[k % PageSize] == MatchingCategory(db, category)[k]
  {
    var m := MatchingCategory(db, category);
    var skip := (k / PageSize) * PageSize;
    assert skip + k % PageSize == k;
    assert skip <= k;
    var w := Window(m, skip, PageSize);
    assert |w| == if |m| - skip < PageSize then |m| - skip else PageSize;
    assert w == m[skip..][..|w|];
  }

  /** `getTrendingNewsFromDb`: at most twenty trending documents, newest first. */
  function GetTrendingNewsFromDb(db: seq<NewsDocument>): (r: Page<NewsDocument>)
    ensures |r.items| <= TrendingLimit && r.totalItems == |r.items|
    ensures forall k :: 0 <= k < |r.items| ==> r.items[k].isTrending
    ensures r.items == Window(Filter(db, (d: NewsDocument) => d.isTrending), 0, TrendingLimit)
    ensures r.page == 1 && r.pageSize == TrendingLimit && !r.hasMore
  {
    var items := Window(Filter(db, (d: NewsDocument) => d.isTrending), 0, TrendingLimit);
    assert forall k :: 0 <= k < |items| ==> items[k] == Filter(db, (d: NewsDocument) => d.isTrending)[k];
    Page(items, |items|, 1, TrendingLimit, false)
  }

  /** The `$or` of `searchNewsInDb`: the pattern matches the title, the
      description or the content. */
  predicate MatchesAnyField(d: NewsDocument, matches: string -> bool) {
    matches(d.title) || matches(d.description) || matches(d.content)
  }

  /** `searchNewsInDb`: at most ten documents the search pattern matches in
      one of the three text fields (the case-insensitive regular expression
      is given as the predicate `matches` on strings). */
  function SearchNewsInDb(db: seq<NewsDocument>, matches: string -> bool): (r: Page<NewsDocument>)
    ensures |r.items| <= SearchLimit && r.totalItems == |r.items|
    ensures forall k :: 0 <= k < |r.items| ==> MatchesAnyField(r.items[k], matches)
    ensures r.items == Window(Filter(db, d => MatchesAnyField(d, matches)), 0, SearchLimit)
    ensures r.page == 1 && r.pageSize == SearchLimit && !r.hasMore
  {
    var hits := Filter(db, d => MatchesAnyField(d, matches));
    var items := Window(hits, 0, SearchLimit);
    assert forall k :: 0 <= k < |items| ==> items[k] == hits[k];
    Page(items, |items|, 1, SearchLimit, false)
  }
}
