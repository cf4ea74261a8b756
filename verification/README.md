# News aggregator core, modelled in Dafny

This project models the state handling and data services of a real-time
news aggregator (a React/Redux client backed by NewsAPI and a MongoDB
cache):

- **Client stores** (Redux slices), one Dafny class each. Each reducer case
  is a method that updates the class's `seq` fields in place:
  - `NewsStore`: the feed, top stories, the trending view, the page cursor
    and the flags;
  - `UserStore`: the user, the subscribed categories and sources, and the
    theme;
  - `CategoryStore`: the category list and the selected category.

  The list updates that the reducers perform are specified by pure
  functions. Lemmas prove what those functions promise:
  - replace-or-prepend on `addNewsItem`, including the capacity eviction of
    the top-stories and trending views;
  - update-only-if-present on `updateNewsItem`;
  - the id-based de-duplication of the page-N merge;
  - the toggle semantics of subscriptions.
- **Category service**: the static category list, the slug→colour,
  colour→classes and icon-name→icon lookups. A finding about JavaScript
  record lookups is documented below.
- **Document-store service**:
  - the validation and normalisation of a raw batch before `insertMany`;
  - the classification of insertion errors (duplicate key 11000 is
    swallowed, every other error is rethrown);
  - the skip/limit page arithmetic of the three read queries.
- **Fetch gateway**: cache first, then NewsAPI, then a write-back to the
  cache, then mapping to `NewsItem`. The store's answer, the API key, the
  provider's answer and the insertion outcome are inputs. Each call returns
  the provider request it would issue.
- **Top-stories carousel**: the previous/next index updaters, proved to be
  rotation modulo the number of stories.

Files:

| file | contents |
|---|---|
| `wrappers.dfy` | `Option`, `Result`, `Outcome` |
| `news_types.dfy` | the shared records |
| `news_model.dfy` | the stored document |
| `news_slice.dfy`, `user_slice.dfy`, `category_slice.dfy` | the stores |
| `category_service.dfy`, `mongo_news_service.dfy`, `news_service.dfy` | the services |
| `top_stories.dfy` | the carousel index updaters |

## Model

| member | source | states |
|---|---|---|
| NewsSlice.FindById | src/store/slices/newsSlice.ts:49 | the result is -1 exactly when no entry has the id, otherwise the first position holding it |
| NewsSlice.FindByIdAt | src/store/slices/newsSlice.ts:49 | a position holding the id with no earlier one is the position `findIndex` returns |
| NewsSlice.Upsert | src/store/slices/newsSlice.ts:49-57 | the feed update of `addNewsItem`: the id is present afterwards; the length is kept for a known id, and an unknown id is put in front of the unchanged feed |
| NewsSlice.UpsertBounded | src/store/slices/newsSlice.ts:59-83 | the top-stories / trending update: a known id is handled exactly like the feed update; an unknown id goes in front, followed by the old entries cut to keep the length when the view would exceed `cap` |
| NewsSlice.UpsertReplacesOrPrepends | src/store/slices/newsSlice.ts:49-57 | a present id replaces the first same-id entry (length and all other positions unchanged); an absent id is prepended |
| NewsSlice.UpsertIds | src/store/slices/newsSlice.ts:49-57 | after the feed update the id is present and no other id appears or disappears |
| NewsSlice.UpsertIdempotent | src/store/slices/newsSlice.ts:46-57 | applying the same `addNewsItem` feed update twice equals applying it once |
| NewsSlice.UpsertBoundedIdempotent | src/store/slices/newsSlice.ts:59-83 | the bounded top-stories/trending update is idempotent for every positive capacity |
| NewsSlice.UpsertBoundedLength | src/store/slices/newsSlice.ts:61-82 | a view within capacity stays within it; a new item at a full view evicts exactly the last entry; a known id is replaced in place (the same update as the feed's), keeping the length |
| NewsSlice.UpsertKeepsDistinct | src/store/slices/newsSlice.ts:46-83 | neither the feed update nor the bounded update introduces a duplicate id |
| NewsSlice.ReplaceIfPresent | src/store/slices/newsSlice.ts:85-91 | an unknown id leaves the feed unchanged; a known id replaces its first entry with the payload marked new |
| NewsSlice.ReplaceIfPresentKeepsIds | src/store/slices/newsSlice.ts:85-91 | `updateNewsItem` never inserts: every position keeps its id, so a duplicate-free feed stays duplicate-free |
| NewsSlice.ClearNew | src/store/slices/newsSlice.ts:92-94 | same length, each entry equal to the old one with `isNew` false |
| NewsSlice.ClearNewProperties | src/store/slices/newsSlice.ts:92-94 | after clearing no entry is new, ids are in place, and clearing is idempotent |
| NewsSlice.FreshItems | src/store/slices/newsSlice.ts:113-115 | the kept payload items are exactly those whose id the feed does not hold |
| NewsSlice.FreshItemsAppend | src/store/slices/newsSlice.ts:113-115 | the filter keeps payload order (it distributes over concatenation) |
| NewsSlice.FreshItemsIdsFromPayload | src/store/slices/newsSlice.ts:113-115 | every kept id comes from the payload |
| NewsSlice.FreshItemsDistinct | src/store/slices/newsSlice.ts:113-115 | the filter of a duplicate-free payload is duplicate-free |
| NewsSlice.MergePage | src/store/slices/newsSlice.ts:111-117 | the page-N merge: the old feed is a prefix, every payload item with an unknown id is in the result, and nothing else is added |
| NewsSlice.MergePageKeepsPrefix | src/store/slices/newsSlice.ts:111-117 | the page-N merge keeps the old feed as a prefix and appends no id the feed already held |
| NewsSlice.MergePageKeepsDistinct | src/store/slices/newsSlice.ts:111-117 | a duplicate-free feed merged with a duplicate-free payload stays duplicate-free |
| NewsSlice.FreshItemsKeepsUnknownCopies | src/store/slices/newsSlice.ts:113-115 | for an id the feed does not hold, the filter keeps every copy of the payload item (equal multiplicity) |
| NewsSlice.MergePageKeepsPayloadDuplicates | src/store/slices/newsSlice.ts:112-116 | repeats inside the payload itself are not removed: an item whose id the feed does not hold occurs in the merged feed exactly as often as in the payload |
| NewsSlice.Breaking | src/store/slices/newsSlice.ts:122-123 | the result holds exactly the breaking items of the payload |
| NewsSlice.BreakingAppend | src/store/slices/newsSlice.ts:122-123 | the breaking filter keeps payload order (it distributes over concatenation) |
| NewsSlice.SeedTopStories | src/store/slices/newsSlice.ts:121-125 | the first min(5, number of breaking items) breaking items of the payload, in payload order |
| NewsSlice.UpsertView | src/store/slices/newsSlice.ts:61-69 | the in-place replace-or-unshift-and-pop on a bounded view computes `UpsertBounded`, and a view within its capacity stays within it (used for both views, lines 61-69 and 74-82) |
| NewsSlice.NewsStore.constructor | src/store/slices/newsSlice.ts:5-13 | the initial state: empty lists, not loading, no error, `hasMore`, page 1 |
| NewsSlice.NewsStore.AddNewsItem | src/store/slices/newsSlice.ts:46-83 | feed upserted; top stories / trending upserted with capacity 5 / 10 only when the item is breaking / trending; other fields unchanged; `Valid` kept |
| NewsSlice.NewsStore.UpdateNewsItem | src/store/slices/newsSlice.ts:85-91 | only the feed changes, and only when the id is present |
| NewsSlice.NewsStore.ClearNewIndicators | src/store/slices/newsSlice.ts:92-94 | only the feed's `isNew` flags change |
| NewsSlice.NewsStore.LoadMore | src/store/slices/newsSlice.ts:95-97 | the cursor advances by one and nothing else changes |
| NewsSlice.NewsStore.ResetNewsState | src/store/slices/newsSlice.ts:98 | the state is the initial state again |
| NewsSlice.NewsStore.FetchNewsPending | src/store/slices/newsSlice.ts:102-105 | loading with the error cleared; the lists and cursor are kept |
| NewsSlice.NewsStore.FetchNewsFulfilled | src/store/slices/newsSlice.ts:106-126 | page 1 replaces the feed, later pages merge; `hasMore` is taken from the payload; an empty top-stories view is seeded on page 1; the cursor is unchanged |
| NewsSlice.NewsStore.FetchNewsRejected | src/store/slices/newsSlice.ts:127-130 | the message is recorded and the lists are kept |
| NewsSlice.NewsStore.FetchTrendingPending | src/store/slices/newsSlice.ts:131-133 | loading, and the previous error is kept |
| NewsSlice.NewsStore.FetchTrendingFulfilled | src/store/slices/newsSlice.ts:134-137 | the trending view is replaced wholesale, so it is not capped at ten |
| NewsSlice.NewsStore.FetchTrendingRejected | src/store/slices/newsSlice.ts:138-141 | the message is recorded and the lists are kept |
| NewsSlice.PagedMergeScenario | src/store/slices/newsSlice.ts:95-126 | page 1 gives [a, b]; after `loadMore`, page [b, c] gives the feed [a, b, c] and cursor 2 |
| UserSlice.IndexOf | src/store/slices/userSlice.ts:49 | -1 exactly when the value is absent, otherwise its first position |
| UserSlice.Toggle | src/store/slices/userSlice.ts:49-55 | an absent value is appended; a present value makes the list one shorter; no other value appears |
| UserSlice.ToggleAppendsOrRemovesFirst | src/store/slices/userSlice.ts:47-56 | an absent value is appended; a present value loses its first occurrence, with the rest in order (the multiset drops one copy) |
| UserSlice.ToggleFlipsMembership | src/store/slices/userSlice.ts:47-66 | on a duplicate-free list a toggle flips the value's membership, leaves every other value alone and keeps the list duplicate-free |
| UserSlice.RemoveAtFlips | src/store/slices/userSlice.ts:54 | splicing out the only occurrence removes exactly that value |
| UserSlice.ToggleTwiceRestores | src/store/slices/userSlice.ts:47-56 | toggling an absent value twice restores the list |
| UserSlice.UserStore.constructor | src/store/slices/userSlice.ts:5-14 | no user, empty lists, light theme, not loading, no error |
| UserSlice.UserStore.ToggleCategorySubscription | src/store/slices/userSlice.ts:47-56 | categories become the toggle of the old list; nothing else changes |
| UserSlice.UserStore.ToggleSourceSubscription | src/store/slices/userSlice.ts:57-66 | sources become the toggle of the old list; nothing else changes |
| UserSlice.UserStore.SetTheme | src/store/slices/userSlice.ts:67-69 | only the theme changes |
| UserSlice.UserStore.PreferencesPending | src/store/slices/userSlice.ts:73-76 | loading with the error cleared (the update request's case at lines 87-90 is identical) |
| UserSlice.UserStore.PreferencesFulfilled | src/store/slices/userSlice.ts:77-82 | the user is installed and its lists replace the local ones; the theme and error stay (lines 91-96 are identical) |
| UserSlice.UserStore.PreferencesRejected | src/store/slices/userSlice.ts:83-86 | the message is recorded and the lists are kept (lines 97-100 are identical) |
| CategorySlice.CategoryStore.constructor | src/store/slices/categorySlice.ts:5-10 | empty list, 'all' selected, not loading, no error |
| CategorySlice.CategoryStore.SetSelectedCategory | src/store/slices/categorySlice.ts:28-30 | only the selection changes |
| CategorySlice.CategoryStore.FetchCategoriesPending | src/store/slices/categorySlice.ts:34-37 | loading with the error cleared |
| CategorySlice.CategoryStore.FetchCategoriesFulfilled | src/store/slices/categorySlice.ts:38-41 | the list is replaced; the selection and error stay |
| CategorySlice.CategoryStore.FetchCategoriesRejected | src/store/slices/categorySlice.ts:42-45 | the message is recorded and the list is kept |
| CategoryService.GetCategoryColor | src/services/categoryService.ts:100-113 | a listed slug gets its colour; the result is 'gray' exactly for 'all' and unlisted slugs; every result has a class entry |
| CategoryService.GetCategoryColorClasses | src/services/categoryService.ts:115-162 | always one of the table entries: the entry of the slug's colour, and the gray entry for an unknown slug |
| CategoryService.ColorClassesIdentifyColor | src/services/categoryService.ts:115-162 | with the own-key colour lookup, every colour has a class entry (the `colorMap.gray` fallback is not needed), and two slugs get the same classes exactly when they get the same colour |
| CategoryService.GetCategoryIcon | src/services/categoryService.ts:83-98 | a missing or empty name gives GlobeIcon; a registered name gives its icon; an unknown name gives GlobeIcon |
| CategoryService.IconNameRoundTrip | src/services/categoryService.ts:86-97 | every icon is found under its own name |
| CategoryService.GetCategoryColorAsWritten | src/services/categoryService.ts:100-113 | the colour lookup as JavaScript evaluates it: never undefined; an own value exactly for slugs that are not `Object.prototype` member names, the inherited member for the others |
| CategoryService.ColorLookupReachesPrototype | src/services/categoryService.ts:112 | the as-written colour lookup returns an inherited member for "constructor", and agrees with `GetCategoryColor` on every other non-prototype slug |
| CategoryService.GetCategoryColorClassesAsWritten | src/services/categoryService.ts:115-162 | `getCategoryColorClasses` as JavaScript evaluates it, on the as-written colour: always an own table entry, never an inherited member; `ColorClassesMaskPrototype` fixes its value for every slug |
| CategoryService.ColorClassesMaskPrototype | src/services/categoryService.ts:115-162 | as written, the classes of every prototype member name are the gray entry, and the as-written classes equal the own-key classes for every slug: the colour quirk is masked at every caller |
| CategoryService.GetCategoryIconAsWritten | src/services/categoryService.ts:83-98 | the icon lookup as JavaScript evaluates it: never undefined; an icon exactly when the name is missing or not an `Object.prototype` member name, the inherited member otherwise |
| CategoryService.IconLookupReachesPrototype | src/services/categoryService.ts:97 | the as-written icon lookup returns an inherited member for "toString", and agrees with `GetCategoryIcon` on every other non-prototype name |
| CategoryService.FetchCategoriesApi | src/services/categoryService.ts:10-81 | eight categories, 'all' first, id equals slug, distinct slugs, each colour equals `getCategoryColor` of the slug, each icon name registered |
| MongoNewsService.IsComplete | src/services/mongoNewsService.ts:12 | an article passes the validation exactly when the document built from it has every field the schema requires |
| MongoNewsService.Join | src/services/mongoNewsService.ts:22 | one part joins to itself; with a non-empty separator the result is empty exactly for no parts or a single empty part |
| MongoNewsService.AuthorOf | src/services/mongoNewsService.ts:22 | the joined creators when non-empty, otherwise 'Unknown'; never empty |
| MongoNewsService.CategoryOf | src/services/mongoNewsService.ts:27 | the first category when truthy, otherwise 'general'; never empty |
| MongoNewsService.Normalise | src/services/mongoNewsService.ts:17-30 | the document for an article: field-by-field mapping and defaults, `isBreaking` iff keywords contain 'breaking', never trending |
| MongoNewsService.PrepareBatch | src/services/mongoNewsService.ts:11-31 | no longer than the input, and every document satisfies the schema's required fields |
| MongoNewsService.PrepareBatchSingle | src/services/mongoNewsService.ts:11-31 | one article yields its normalised document when complete and nothing otherwise; with `PrepareBatchAppend` this fixes the whole batch |
| MongoNewsService.PrepareBatchAppend | src/services/mongoNewsService.ts:11-31 | validation keeps input order (it distributes over concatenation) |
| MongoNewsService.PrepareBatchEmptyIff | src/services/mongoNewsService.ts:11-35 | nothing is left to insert exactly when no article has all five required fields |
| MongoNewsService.SaveNewsToDb | src/services/mongoNewsService.ts:4-51 | a non-array, empty or all-invalid batch inserts nothing; otherwise the prepared batch is inserted; the call fails exactly on an insertion error whose code is not 11000, and fails with that error |
| MongoNewsService.Filter | src/services/mongoNewsService.ts:58-61 | the query filter: only elements satisfying the test, each from the input, and every satisfying element kept |
| MongoNewsService.FilterAppend | src/services/mongoNewsService.ts:58-61 | the filter keeps store order (it distributes over concatenation) |
| MongoNewsService.Window | src/services/mongoNewsService.ts:56-64 | `.skip(s).limit(l)` is the slice from s of length min(l, remaining) |
| MongoNewsService.MatchingCategory | src/services/mongoNewsService.ts:58 | 'all' matches every document; otherwise the order-preserving filter of that category, containing every document of it and nothing else |
| MongoNewsService.GetNewsFromDb | src/services/mongoNewsService.ts:53-80 | the page-th window of ten matching documents, the total count, and `hasMore` iff page·10 < total |
| MongoNewsService.HasMoreIffNextPageNonEmpty | src/services/mongoNewsService.ts:56-74 | `hasMore` holds exactly when the next page is non-empty |
| MongoNewsService.DocumentOnItsPage | src/services/mongoNewsService.ts:56-64 | pages tile the matches: match k is entry k mod 10 of page k div 10 + 1 |
| MongoNewsService.GetTrendingNewsFromDb | src/services/mongoNewsService.ts:82-100 | at most twenty documents, all trending, the first of the trending ones; total equals the item count; no more pages |
| MongoNewsService.SearchNewsInDb | src/services/mongoNewsService.ts:102-127 | at most ten documents whose title, description or content matches, the first of those; no more pages |
| NewsService.ToNewsItem | src/services/newsService.ts:54-67 | the field mapping of one provider article: id and url from its url, author defaulting to 'Unknown', the request's category, not breaking |
| NewsService.ToNewsItems | src/services/newsService.ts:54-67 | one item per article, in order, nothing dropped |
| NewsService.AsStoredArticle | src/services/newsService.ts:51 | a provider article as the validation reads it: title, description and content carry over; `article_id`, `source_id`, `link` and `pubDate` are absent, so it is never complete |
| NewsService.ProviderArticlesNeverStored | src/services/newsService.ts:51 | writing provider articles to the store inserts nothing, because none has `article_id`, `source_id`, `link` and `pubDate` |
| NewsService.SaveProviderArticles | src/services/newsService.ts:51 | the write-back never reaches `insertMany`, whatever the store would answer |
| NewsService.FetchNewsApi | src/services/newsService.ts:20-77 | a non-empty cache page is returned as is; otherwise a missing key fails; otherwise /top-headlines is asked (no category for 'all'); transport errors and a non-array `articles` fail; otherwise the mapped items with `hasMore` iff page·10 < totalResults |
| NewsService.FetchTrendingNewsApi | src/services/newsService.ts:79-140 | the same cache / key / format cases; /everything sorted by popularity, 20 per page; items mapped with category 'trending' and marked trending; no more pages |
| NewsService.SearchNewsApi | src/services/newsService.ts:142-200 | the same cases; /everything by relevancy for the query; `hasMore` iff 10 < totalResults |
| TopStories.Next | src/components/news/TopStories.tsx:16-18 | past the last story comes the first; an in-range index stays in range |
| TopStories.Prev | src/components/news/TopStories.tsx:12-14 | before the first story comes the last; an in-range index stays in range |
| TopStories.NextPrevAreRotation | src/components/news/TopStories.tsx:12-18 | on in-range indices next/prev are ±1 modulo the story count and undo each other |
| TopStories.NextN | src/components/news/TopStories.tsx:20-29 | repeated automatic rotation keeps an in-range index in range |
| TopStories.NextNIsModular | src/components/news/TopStories.tsx:20-29 | n automatic rotations move the index by n modulo the story count; a full cycle returns to the start |
| TopStories.SingleStoryIsFixed | src/components/news/TopStories.tsx:22 | with one story both updaters stay at 0 and navigation is off; with none, prev gives -1 |

## Left out

- React rendering, `setInterval` timers and effects: only the index updaters of the carousel are modelled.
- The socket service, and with it the `trending-update` broadcast: it is not part of this model.
- Asynchronous interleaving of thunks: each reducer case is one atomic method call. Concurrent `fetchNews` calls racing on `page` are not represented.
- The thunks themselves are not modelled; only their pending/fulfilled/rejected reducer cases are. The user-service API calls are not part of this model.
- Mongo's `sort({ publishedAt: -1 })`: the store is given as a sequence already in that order.
- `new Date(pubDate)` parsing: timestamps are opaque strings.
- The case-insensitive `RegExp` of the search is a string predicate parameter.
- Documents read with `lean()` carry `_id` and `article_id`, but no `id`. The gateway takes the cache's page as a page of `NewsItem`s (`DbLookup`) without modelling that conversion.
- A thrown cache lookup is the `DbFailed` input, and it falls through to the provider like an empty page.
- `insertMany` with `ordered: false` is modelled as all-or-error: partial insertion counts are not represented.
- Null or undefined provider string fields are represented by the empty string; a `creator` or `category` field that is present but not an array is not represented.
- A provider article without a `source` object is not represented: `item.source.name` then throws a TypeError in the `articles.map` (src/services/newsService.ts:60, 123, 183), and the call fails through the outer `catch`. The three fetch methods therefore do not capture that failure.
- A null element in the batch is not represented: `item.article_id` then throws inside `saveNewsToDb`'s `try` (src/services/mongoNewsService.ts:11-12), and the error, having no code 11000, is rethrown (line 49). SaveProviderArticles: its "never fails" holds only for batches of article objects, which is all `ProviderArticle` can express.
- The 500 ms artificial delay in `fetchCategoriesApi`; its `catch` is unreachable because the mock never fails.
- GetNewsFromDb: requires page ≥ 1. The callers always pass a cursor of at least 1, and for a smaller page the driver rejects the negative skip, which is not modelled.
- NewsStore.Valid: it bounds `topStories` only. The trending view has no invariant bound, because `fetchTrendingNews.fulfilled` installs the fetched list whatever its length (up to twenty from the cache).
- Changing the category does not reset the page cursor: `setSelectedCategory` changes only the selection (`CategoryStore.SetSelectedCategory`), and no news reducer reacts to it.
- The page-N merge does not guarantee distinct ids: it removes only payload items whose id the feed already holds, and repeats inside one payload survive (`MergePageKeepsPayloadDuplicates`).

## Findings

| source | as written | input that shows it | evidently intended | confidence | as-written member | corrected member |
|---|---|---|---|---|---|---|
| src/services/categoryService.ts:112 | `colors[category] \|\| 'gray'` reads a plain object literal, so inherited `Object.prototype` members are found too | the slug "constructor" yields the `Object` constructor function instead of 'gray'; every caller goes through `getCategoryColorClasses`, whose `colorMap.gray` fallback masks it (`ColorClassesMaskPrototype`), so it shows only to a direct caller of `getCategoryColor` | own keys only: every unlisted slug maps to 'gray' | high that the function returns a non-string; latent at the current callers (not executed) | CategoryService.GetCategoryColorAsWritten, CategoryService.ColorLookupReachesPrototype | CategoryService.GetCategoryColor |
| src/services/categoryService.ts:97 | `icons[iconName] \|\| GlobeIcon` reads a plain object literal, so inherited members are found too | the icon name "toString" yields `Object.prototype.toString`, which is not a component; the current caller passes only registered names from the static list | own keys only: every unregistered name maps to GlobeIcon | high that the function returns a non-component; latent at the current caller (not executed) | CategoryService.GetCategoryIconAsWritten, CategoryService.IconLookupReachesPrototype | CategoryService.GetCategoryIcon |
