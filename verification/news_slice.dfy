/** The news feed store (src/store/slices/newsSlice.ts): three lists of
    articles, a page cursor and the loading/error flags, changed only by
    the reducer cases below. Each reducer case is one method of
    `NewsStore`; the list updates they perform are specified by the
    functions of this module, and the lemmas state what those updates
    promise. */
module NewsSlice {
  import opened Wrappers
  import opened NewsTypes

  /** Capacity enforced on insertion into `topStories` and `trending`. */
  const TopStoriesCap: nat := 5
  const TrendingCap: nat := 10

  // ---------------------------------------------------------------------
  // Lookup by id

  predicate HasId(s: seq<NewsItem>, id: string) {
    exists k :: 0 <= k < |s| && s[k].id == id
  }

  /** No two entries share an id. */
  predicate DistinctIds(s: seq<NewsItem>) {
    forall j, k :: 0 <= j < k < |s| ==> s[j].id != s[k].id
  }

  /** `findIndex(item => item.id === id)`: the first position holding `id`, or -1. */
  function FindById(s: seq<NewsItem>, id: string): (r: int)
    ensures -1 <= r < |s|
    ensures r == -1 <==> !HasId(s, id)
    ensures 0 <= r ==> s[r].id == id && forall k :: 0 <= k < r ==> s[k].id != id
  {
    if |s| == 0 then -1
    else if s[0].id == id then 0
    else
      var t := FindById(s[1..], id);
      if t == -1 then -1 else t + 1
  }

  /** `FindById` is pinned down by its contract: a position holding `id`
      with no earlier one is the position it returns. */
  lemma FindByIdAt(s: seq<NewsItem>, id: string, i: int)
    requires 0 <= i < |s| && s[i].id == id
    requires forall k :: 0 <= k < i ==> s[k].id != id
    ensures FindById(s, id) == i
  {
    assert HasId(s, id);
  }

  /** The payload of `addNewsItem` with its highlight switched on. */
  function MarkNew(x: NewsItem): NewsItem {
    x.(isNew := true)
  }

  // ---------------------------------------------------------------------
  // addNewsItem

  /** The feed update of `addNewsItem`: replace the first same-id entry, or
      put the item in front. */
  function Upsert(s: seq<NewsItem>, x: NewsItem): (r: seq<NewsItem>)
    ensures HasId(r, x.id)
    ensures |r| == if HasId(s, x.id) then |s| else |s| + 1
    ensures !HasId(s, x.id) ==> r[0] == x && r[1..] == s
  {
    var i := FindById(s, x.id);
    if i >= 0 then
      assert s[i := x][i].id == x.id;
      s[i := x]
    else
      assert ([x] + s)[0].id == x.id;
      [x] + s
  }

  /** The update of `topStories` / `trending` by `addNewsItem`: replace the
      first same-id entry, or unshift the item and pop the last entry once
      if the view is then longer than `cap`. */
  function UpsertBounded(s: seq<NewsItem>, x: NewsItem, cap: nat): (r: seq<NewsItem>)
    ensures HasId(s, x.id) ==> r == Upsert(s, x)
    ensures !HasId(s, x.id) ==> |r| == if |s| + 1 > cap then |s| else |s| + 1
    ensures !HasId(s, x.id) && 0 < |r| ==> r[0] == x && r[1..] == s[..|r| - 1]
  {
    var i := FindById(s, x.id);
    if i >= 0 then s[i := x]
    else if |s| + 1 > cap then ([x] + s)[..|s|]
    else [x] + s
  }

  /** Replace-or-prepend: an item whose id is present replaces the FIRST entry
      with that id, keeping the length and every other position; otherwise the
      item is prepended. */
  lemma UpsertReplacesOrPrepends(s: seq<NewsItem>, x: NewsItem)
    ensures HasId(s, x.id) ==>
      var i := FindById(s, x.id);
      && |Upsert(s, x)| == |s|
      && s[i].id == x.id && (forall k :: 0 <= k < i ==> s[k].id != x.id)
      && Upsert(s, x)[i] == x
      && (forall k :: 0 <= k < |s| && k != i ==> Upsert(s, x)[k] == s[k])
    ensures !HasId(s, x.id) ==> Upsert(s, x) == [x] + s
  {
  }

  /** After the upsert the id is present, and the set of ids grew by exactly it. */
  lemma UpsertIds(s: seq<NewsItem>, x: NewsItem)
    ensures HasId(Upsert(s, x), x.id)
    ensures forall id :: id != x.id ==> (HasId(Upsert(s, x), id) <==> HasId(s, id))
  {
    var r := Upsert(s, x);
    var i := FindById(s, x.id);
    if i >= 0 {
      assert r[i].id == x.id;
      forall id | id != x.id ensures HasId(r, id) <==> HasId(s, id) {
        if HasId(s, id) {
          var k :| 0 <= k < |s| && s[k].id == id;
          assert r[k] == s[k];
        }
        if HasId(r, id) {
          var k :| 0 <= k < |r| && r[k].id == id;
          assert s[k] == r[k];
        }
      }
    } else {
      assert r[0].id == x.id;
      forall id | id != x.id ensures HasId(r, id) <==> HasId(s, id) {
        if HasId(s, id) {
          var k :| 0 <= k < |s| && s[k].id == id;
          assert r[k + 1] == s[k];
        }
        if HasId(r, id) {
          var k :| 0 <= k < |r| && r[k].id == id;
          assert k > 0 && s[k - 1] == r[k];
        }
      }
    }
  }

  /** Replaying the same push is harmless: the second upsert finds the item
      where the first one put it and rewrites it with itself. */
  lemma UpsertIdempotent(s: seq<NewsItem>, x: NewsItem)
    ensures Upsert(Upsert(s, x), x) == Upsert(s, x)
  {
    var r := Upsert(s, x);
    var i := FindById(s, x.id);
    if i >= 0 {
      assert forall k :: 0 <= k < i ==> r[k] == s[k];
      FindByIdAt(r, x.id, i);
    } else {
      FindByIdAt(r, x.id, 0);
    }
  }

  /** The bounded upsert is idempotent as well, for any positive capacity. */
  lemma UpsertBoundedIdempotent(s: seq<NewsItem>, x: NewsItem, cap: nat)
    requires cap >= 1
    ensures UpsertBounded(UpsertBounded(s, x, cap), x, cap) == UpsertBounded(s, x, cap)
  {
    var r := UpsertBounded(s, x, cap);
    var i := FindById(s, x.id);
    if i >= 0 {
      assert forall k :: 0 <= k < i ==> r[k] == s[k];
      FindByIdAt(r, x.id, i);
    } else {
      assert r[0] == x;
      FindByIdAt(r, x.id, 0);
    }
  }

  /** Length of a bounded view after an upsert: a view within its capacity
      stays within it, and a view already over capacity does not grow. When a
      new item arrives at a full view, exactly the last (oldest) entry is
      evicted. */
  lemma UpsertBoundedLength(s: seq<NewsItem>, x: NewsItem, cap: nat)
    ensures |s| <= cap ==> |UpsertBounded(s, x, cap)| <= cap
    ensures |s| > cap ==> |UpsertBounded(s, x, cap)| == |s|
    ensures HasId(s, x.id) ==> |UpsertBounded(s, x, cap)| == |s|
    ensures HasId(s, x.id) ==> UpsertBounded(s, x, cap) == Upsert(s, x)
    ensures !HasId(s, x.id) && 1 <= cap <= |s| ==> UpsertBounded(s, x, cap) == [x] + s[..|s| - 1]
    ensures !HasId(s, x.id) && |s| < cap ==> UpsertBounded(s, x, cap) == [x] + s
  {
    if !HasId(s, x.id) && 1 <= cap <= |s| {
      assert ([x] + s)[..|s|] == [x] + s[..|s| - 1];
    }
  }

  /** Neither upsert creates a duplicate id in a view that had none. */
  lemma UpsertKeepsDistinct(s: seq<NewsItem>, x: NewsItem, cap: nat)
    requires DistinctIds(s)
    ensures DistinctIds(Upsert(s, x))
    ensures DistinctIds(UpsertBounded(s, x, cap))
  {
    var i := FindById(s, x.id);
    if i >= 0 {
      assert forall k :: 0 <= k < |s| && k != i ==> s[k].id != x.id;
    } else {
      var t := [x] + s;
      assert DistinctIds(t) by {
        forall j, k | 0 <= j < k < |t| ensures t[j].id != t[k].id {
          if j > 0 { assert t[j] == s[j - 1] && t[k] == s[k - 1]; }
          else { assert t[k] == s[k - 1]; }
        }
      }
      assert Upsert(s, x) == t;
      if |s| + 1 > cap {
        assert UpsertBounded(s, x, cap) == t[..|s|];
      }
    }
  }

  // ---------------------------------------------------------------------
  // updateNewsItem

  /** The feed update of `updateNewsItem`: the first same-id entry is replaced
      by the payload marked new; an unknown id leaves the feed as it is. */
  function ReplaceIfPresent(s: seq<NewsItem>, x: NewsItem): (r: seq<NewsItem>)
    ensures |r| == |s|
    ensures !HasId(s, x.id) ==> r == s
    ensures HasId(s, x.id) ==>
      exists i :: 0 <= i < |s| && s[i].id == x.id && (forall k :: 0 <= k < i ==> s[k].id != x.id)
        && r == s[i := MarkNew(x)]
  {
    var i := FindById(s, x.id);
    if i != -1 then s[i := MarkNew(x)] else s
  }

  /** An update never inserts: the ids of the feed are exactly the ids it had. */
  lemma ReplaceIfPresentKeepsIds(s: seq<NewsItem>, x: NewsItem)
    ensures forall k :: 0 <= k < |s| ==> ReplaceIfPresent(s, x)[k].id == s[k].id
    ensures DistinctIds(s) ==> DistinctIds(ReplaceIfPresent(s, x))
  {
    var r := ReplaceIfPresent(s, x);
    var i := FindById(s, x.id);
    if i != -1 {
      assert r == s[i := MarkNew(x)];
    }
  }

  // ---------------------------------------------------------------------
  // clearNewIndicators

  /** `items.map(item => ({ ...item, isNew: false }))`. */
  function ClearNew(s: seq<NewsItem>): (r: seq<NewsItem>)
    ensures |r| == |s|
    ensures forall k :: 0 <= k < |s| ==> r[k] == s[k].(isNew := false)
  {
    if |s| == 0 then [] else [s[0].(isNew := false)] + ClearNew(s[1..])
  }

  /** Clearing leaves no highlighted item, keeps every id in place and is
      idempotent. */
  lemma ClearNewProperties(s: seq<NewsItem>)
    ensures forall k :: 0 <= k < |s| ==> !ClearNew(s)[k].isNew && ClearNew(s)[k].id == s[k].id
    ensures ClearNew(ClearNew(s)) == ClearNew(s)
  {
  }

  // ---------------------------------------------------------------------
  // fetchNews.fulfilled

  /** `payload.filter(p => !known.some(item => item.id === p.id))`. */
  function FreshItems(known: seq<NewsItem>, payload: seq<NewsItem>): (r: seq<NewsItem>)
    ensures |r| <= |payload|
    ensures forall k :: 0 <= k < |r| ==> !HasId(known, r[k].id)
    ensures forall p :: p in r ==> p in payload
    ensures forall p :: p in payload && !HasId(known, p.id) ==> p in r
  {
    if |payload| == 0 then []
    else
      var rest := FreshItems(known, payload[1..]);
      assert forall p :: p in payload[1..] ==> p in payload;
      assert forall p :: p in payload ==> p == payload[0] || p in payload[1..];
      if HasId(known, payload[0].id) then rest else [payload[0]] + rest
  }

  /** The filter keeps payload order: filtering a concatenation is the
      concatenation of the filtered parts. */
  lemma {:induction false} FreshItemsAppend(known: seq<NewsItem>, a: seq<NewsItem>, b: seq<NewsItem>)
    ensures FreshItems(known, a + b) == FreshItems(known, a) + FreshItems(known, b)
  {
    if |a| == 0 {
      assert a + b == b;
    } else {
      assert (a + b)[1..] == a[1..] + b;
      FreshItemsAppend(known, a[1..], b);
    }
  }

  /** The page-N merge: the old feed followed by the payload items whose id
      it does not already hold. */
  function MergePage(items: seq<NewsItem>, payload: seq<NewsItem>): (r: seq<NewsItem>)
    ensures |items| <= |r| <= |items| + |payload|
    ensures r[..|items|] == items
    ensures forall p :: p in payload && !HasId(items, p.id) ==> p in r
    ensures forall p :: p in r ==> p in items || p in payload
  {
    items + FreshItems(items, payload)
  }

  /** The old feed survives as a prefix, and nothing appended repeats an id
      the feed held before the merge. */
  lemma MergePageKeepsPrefix(items: seq<NewsItem>, payload: seq<NewsItem>)
    ensures MergePage(items, payload)[..|items|] == items
    ensures forall k :: |items| <= k < |MergePage(items, payload)| ==>
      !HasId(items, MergePage(items, payload)[k].id)
  {
    var r := MergePage(items, payload);
    assert forall k :: |items| <= k < |r| ==> r[k] == FreshItems(items, payload)[k - |items|];
  }

  /** A duplicate-free feed merged with a duplicate-free payload stays
      duplicate-free. */
  lemma {:induction false} MergePageKeepsDistinct(items: seq<NewsItem>, payload: seq<NewsItem>)
    requires DistinctIds(items) && DistinctIds(payload)
    ensures DistinctIds(MergePage(items, payload))
  {
    var f := FreshItems(items, payload);
    FreshItemsDistinct(items, payload);
    var r := items + f;
    forall j, k | 0 <= j < k < |r| ensures r[j].id != r[k].id {
      if k >= |items| && j < |items| {
        assert r[k] == f[k - |items|];
        assert !HasId(items, r[k].id);
        assert r[j] == items[j];
      } else if j >= |items| {
        assert r[j] == f[j - |items|] && r[k] == f[k - |items|];
      }
    }
  }

  /** Every id the filter keeps is an id of the payload. */
  lemma FreshItemsIdsFromPayload(known: seq<NewsItem>, payload: seq<NewsItem>)
    ensures forall k :: 0 <= k < |FreshItems(known, payload)| ==> HasId(payload, FreshItems(known, payload)[k].id)
  {
    var f := FreshItems(known, payload);
    forall k | 0 <= k < |f| ensures HasId(payload, f[k].id) {
      var m :| 0 <= m < |payload| && payload[m] == f[k];
    }
  }

  /** The filter of a duplicate-free payload is duplicate-free. */
  lemma {:induction false} FreshItemsDistinct(known: seq<NewsItem>, payload: seq<NewsItem>)
    requires DistinctIds(payload)
    ensures DistinctIds(FreshItems(known, payload))
  {
    if |payload| > 0 {
      var tail := payload[1..];
      assert DistinctIds(tail) by {
        forall j, k | 0 <= j < k < |tail| ensures tail[j].id != tail[k].id {
          assert tail[j] == payload[j + 1] && tail[k] == payload[k + 1];
        }
      }
      FreshItemsDistinct(known, tail);
      FreshItemsIdsFromPayload(known, tail);
      var rest := FreshItems(known, tail);
      assert forall m :: 0 <= m < |tail| ==> tail[m].id != payload[0].id by {
        forall m | 0 <= m < |tail| ensures tail[m].id != payload[0].id {
          assert tail[m] == payload[m + 1];
        }
      }
      assert forall k :: 0 <= k < |rest| ==> rest[k].id != payload[0].id;
      if !HasId(known, payload[0].id) {
        var r := [payload[0]] + rest;
        forall j, k | 0 <= j < k < |r| ensures r[j].id != r[k].id {
          assert r[k] == rest[k - 1];
          if j > 0 { assert r[j] == rest[j - 1]; }
        }
      }
    }
  }

  /** The filter only removes items whose id is already known: every copy
      of an item with an unknown id survives, repeats included. */
  lemma {:induction false} FreshItemsKeepsUnknownCopies(known: seq<NewsItem>, payload: seq<NewsItem>, p: NewsItem)
    requires !HasId(known, p.id)
    ensures multiset(FreshItems(known, payload))[p] == multiset(payload)[p]
  {
    if |payload| > 0 {
      var h, t := payload[0], payload[1..];
      FreshItemsKeepsUnknownCopies(known, t, p);
      assert payload == [h] + t;
      assert multiset(payload)[p] == multiset([h])[p] + multiset(t)[p];
      if HasId(known, h.id) {
        assert h != p;
      } else {
        assert FreshItems(known, payload) == [h] + FreshItems(known, t);
      }
    }
  }

  /** The merge only removes ids already in the feed: a payload that repeats
      an id the feed does not hold keeps every copy, so repeats inside one
      payload reach the feed. */
  lemma MergePageKeepsPayloadDuplicates(items: seq<NewsItem>, payload: seq<NewsItem>, p: NewsItem)
    requires !HasId(items, p.id)
    ensures multiset(MergePage(items, payload))[p] == multiset(payload)[p]
  {
    FreshItemsKeepsUnknownCopies(items, payload, p);
    assert p !in items;
  }

  /** `payload.filter(item => item.isBreaking)`. */
  function Breaking(s: seq<NewsItem>): (r: seq<NewsItem>)
    ensures |r| <= |s|
    ensures forall k :: 0 <= k < |r| ==> r[k].isBreaking && r[k] in s
    ensures forall p :: p in s && p.isBreaking ==> p in r
  {
    if |s| == 0 then []
    else
      var rest := Breaking(s[1..]);
      assert forall p :: p in s[1..] ==> p in s;
      assert forall p :: p in s ==> p == s[0] || p in s[1..];
      if s[0].isBreaking then [s[0]] + rest else rest
  }

  /** The breaking filter keeps payload order: filtering a concatenation is
      the concatenation of the filtered parts. */
  lemma {:induction false} BreakingAppend(a: seq<NewsItem>, b: seq<NewsItem>)
    ensures Breaking(a + b) == Breaking(a) + Breaking(b)
  {
    if |a| == 0 {
      assert a + b == b;
    } else {
      assert (a + b)[1..] == a[1..] + b;
      BreakingAppend(a[1..], b);
    }
  }

  /** The top-stories seed of the first page: `.filter(isBreaking).slice(0, 5)`. */
  function SeedTopStories(payload: seq<NewsItem>): (r: seq<NewsItem>)
    ensures |r| <= TopStoriesCap && |r| <= |Breaking(payload)|
    ensures |r| == if |Breaking(payload)| < TopStoriesCap then |Breaking(payload)| else TopStoriesCap
    ensures forall k :: 0 <= k < |r| ==> r[k].isBreaking && r[k] in payload
    ensures r == Breaking(payload)[..|r|]
    ensures |Breaking(payload)| <= TopStoriesCap ==> r == Breaking(payload)
  {
    var b := Breaking(payload);
    if |b| <= TopStoriesCap then b else b[..TopStoriesCap]
  }

  /** The in-place update `addNewsItem` performs on the top-stories and
      trending views: replace the first same-id entry, or `unshift` and
      `pop` once when the view is then longer than `cap`. */
  method UpsertView(view: seq<NewsItem>, item: NewsItem, cap: nat) returns (r: seq<NewsItem>)
    ensures r == UpsertBounded(view, item, cap)
    ensures |view| <= cap ==> |r| <= cap
  {
    UpsertBoundedLength(view, item, cap);
    var i := FindById(view, item.id);
    if i >= 0 {
      r := view[i := item];
    } else {
      r := [item] + view;
      if |r| > cap {
        r := r[..|r| - 1];
      }
    }
  }

  // ---------------------------------------------------------------------
  // The store

  /** The slice state (`NewsState`) with one method per reducer case. */
  class NewsStore {
    var items: seq<NewsItem>
    var trending: seq<NewsItem>
    var topStories: seq<NewsItem>
    var loading: bool
    var error: Option<string>
    var hasMore: bool
    var page: int

    /** What every reducer case preserves: the cursor never drops below 1
        and the top-stories view never exceeds its capacity. (The trending
        view has no such bound: `fetchTrendingNews.fulfilled` installs the
        fetched list as it is.) */
    ghost predicate Valid()
      reads this
    {
      page >= 1 && |topStories| <= TopStoriesCap
    }

    /** `initialState`. */
    ghost predicate IsInitial()
      reads this
    {
      items == [] && trending == [] && topStories == [] &&
      !loading && error == None && hasMore && page == 1
    }

    constructor ()
      ensures Valid() && IsInitial()
    {
      items, trending, topStories := [], [], [];
      loading, error, hasMore, page := false, None, true, 1;
    }

    /** `addNewsItem`: upsert into the feed, and into top stories / trending
        when the item is breaking / trending. */
    method AddNewsItem(x: NewsItem)
      requires Valid()
      modifies this
      ensures Valid()
      ensures items == Upsert(old(items), MarkNew(x))
      ensures topStories == if x.isBreaking then UpsertBounded(old(topStories), MarkNew(x), TopStoriesCap) else old(topStories)
      ensures trending == if x.isTrending then UpsertBounded(old(trending), MarkNew(x), TrendingCap) else old(trending)
      ensures |old(trending)| <= TrendingCap ==> |trending| <= TrendingCap
      ensures loading == old(loading) && error == old(error) && hasMore == old(hasMore) && page == old(page)
    {
      var newItem := MarkNew(x);
      var existingIndex := FindById(items, newItem.id);
      if existingIndex >= 0 {
        items := items[existingIndex := newItem];
      } else {
        items := [newItem] + items;
      }

      if newItem.isBreaking {
        topStories := UpsertView(topStories, newItem, TopStoriesCap);
      }
      if newItem.isTrending {
        trending := UpsertView(trending, newItem, TrendingCap);
      }
    }

    /** `updateNewsItem`: only the feed changes, and only if the id is there. */
    method UpdateNewsItem(x: NewsItem)
      requires Valid()
      modifies this
      ensures Valid()
      ensures items == ReplaceIfPresent(old(items), x)
      ensures !HasId(old(items), x.id) ==> items == old(items)
      ensures topStories == old(topStories) && trending == old(trending)
      ensures loading == old(loading) && error == old(error) && hasMore == old(hasMore) && page == old(page)
    {
      var index := FindById(items, x.id);
      if index != -1 {
        items := items[index := MarkNew(x)];
      }
    }

    /** `clearNewIndicators`: only the feed's highlights change. */
    method ClearNewIndicators()
      requires Valid()
      modifies this
      ensures Valid()
      ensures items == ClearNew(old(items))
      ensures topStories == old(topStories) && trending == old(trending)
      ensures loading == old(loading) && error == old(error) && hasMore == old(hasMore) && page == old(page)
    {
      items := ClearNew(items);
    }

    /** `loadMore`: advances the cursor and nothing else; it does not fetch. */
    method LoadMore()
      requires Valid()
      modifies this
      ensures Valid()
      ensures page == old(page) + 1
      ensures items == old(items) && topStories == old(topStories) && trending == old(trending)
      ensures loading == old(loading) && error == old(error) && hasMore == old(hasMore)
    {
      page := page + 1;
    }

    /** `resetNewsState`: back to `initialState`. */
    method ResetNewsState()
      modifies this
      ensures Valid() && IsInitial()
    {
      items, trending, topStories := [], [], [];
      loading, error, hasMore, page := false, None, true, 1;
    }

    /** `fetchNews.pending`: loading, and the previous error is cleared. */
    method FetchNewsPending()
      requires Valid()
      modifies this
      ensures Valid()
      ensures loading && error == None
      ensures items == old(items) && topStories == old(topStories) && trending == old(trending)
      ensures hasMore == old(hasMore) && page == old(page)
    {
      loading := true;
      error := None;
    }

    /** `fetchNews.fulfilled`: page 1 replaces the feed, later pages append
        the payload items whose id is new; the first page also seeds an empty
        top-stories view. The cursor used is the store's, not the payload's. */
    method FetchNewsFulfilled(response: NewsResponse)
      requires Valid()
      modifies this
      ensures Valid()
      ensures !loading && hasMore == response.hasMore
      ensures old(page) == 1 ==> items == response.items
      ensures old(page) != 1 ==> items == MergePage(old(items), response.items)
      ensures topStories ==
        if old(page) == 1 && |old(topStories)| == 0 then SeedTopStories(response.items) else old(topStories)
      ensures trending == old(trending) && error == old(error) && page == old(page)
    {
      loading := false;
      if page == 1 {
        items := response.items;
      } else {
        var newItems := FreshItems(items, response.items);
        items := items + newItems;
      }
      hasMore := response.hasMore;
      if page == 1 && |topStories| == 0 {
        topStories := SeedTopStories(response.items);
      }
    }

    /** `fetchNews.rejected`: the message is recorded, the lists are kept. */
    method FetchNewsRejected(message: string)
      requires Valid()
      modifies this
      ensures Valid()
      ensures !loading && error == Some(message)
      ensures items == old(items) && topStories == old(topStories) && trending == old(trending)
      ensures hasMore == old(hasMore) && page == old(page)
    {
      loading := false;
      error := Some(message);
    }

    /** `fetchTrendingNews.pending`: loading, but the previous error stays. */
    method FetchTrendingPending()
      requires Valid()
      modifies this
      ensures Valid()
      ensures loading && error == old(error)
      ensures items == old(items) && topStories == old(topStories) && trending == old(trending)
      ensures hasMore == old(hasMore) && page == old(page)
    {
      loading := true;
    }

    /** `fetchTrendingNews.fulfilled`: the trending view is replaced wholesale,
        whatever its length. */
    method FetchTrendingFulfilled(response: NewsResponse)
      requires Valid()
      modifies this
      ensures Valid()
      ensures !loading && trending == response.items
      ensures items == old(items) && topStories == old(topStories)
      ensures error == old(error) && hasMore == old(hasMore) && page == old(page)
    {
      loading := false;
      trending := response.items;
    }

    /** `fetchTrendingNews.rejected`: the message is recorded, the lists are kept. */
    method FetchTrendingRejected(message: string)
      requires Valid()
      modifies this
      ensures Valid()
      ensures !loading && error == Some(message)
      ensures items == old(items) && topStories == old(topStories) && trending == old(trending)
      ensures hasMore == old(hasMore) && page == old(page)
    {
      loading := false;
      error := Some(message);
    }
  }

  /** A fresh store, a first page [a, b], `loadMore`, then a second page
      [b, c]: the feed is [a, b, c], with b not repeated. */
  method PagedMergeScenario(a: NewsItem, b: NewsItem, c: NewsItem) returns (feed: seq<NewsItem>, cursor: int)
    requires a.id != b.id && b.id != c.id && a.id != c.id
    ensures feed == [a, b, c] && cursor == 2
  {
    var store := new NewsStore();
    store.FetchNewsPending();
    store.FetchNewsFulfilled(Page([a, b], 12, 1, 10, true));
    store.LoadMore();
    store.FetchNewsPending();
    store.FetchNewsFulfilled(Page([b, c], 12, 2, 10, false));
    assert HasId([a, b], b.id);
    assert !HasId([a, b], c.id);
    assert [b, c][1..] == [c];
    assert FreshItems([a, b], [c]) == [c];
    feed, cursor := store.items, store.page;
  }
}
