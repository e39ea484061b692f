/** The news feed of src/components/News.tsx: the three fetched lists
    merged and sorted newest first, the per-category tabs and the badge
    colour. The fetches are inputs (`None` while a list is not loaded). */
module News {
  import opened Wrappers
  import opened Strings
  import opened Seqs

  datatype NewsItem = NewsItem(category: string, datetime: int, headline: string)

  // ---------------------------------------------------------------------
  // The sort.
  // ---------------------------------------------------------------------

  /** Inserts `x` before the first item that is not newer than it. */
  function Insert(x: NewsItem, l: seq<NewsItem>): seq<NewsItem>
    decreases |l|
  {
    if l == [] || l[0].datetime <= x.datetime then [x] + l
    else [l[0]] + Insert(x, l[1..])
  }

  /** `sort((a, b) => b.datetime - a.datetime)`: newest first; the sort of
      ECMAScript 2019 and later is stable, so items with the same time keep
      their order. */
  function SortByDate(s: seq<NewsItem>): seq<NewsItem>
    decreases |s|
  {
    if s == [] then [] else Insert(s[0], SortByDate(s[1..]))
  }

  /** Newest first. */
  predicate NewestFirst(s: seq<NewsItem>)
  {
    forall i, j :: 0 <= i < j < |s| ==> s[i].datetime >= s[j].datetime
  }

  lemma {:induction false} InsertPermutes(x: NewsItem, l: seq<NewsItem>)
    ensures multiset(Insert(x, l)) == multiset(l) + multiset{x}
    decreases |l|
  {
    if !(l == [] || l[0].datetime <= x.datetime) {
      InsertPermutes(x, l[1..]);
      assert l == [l[0]] + l[1..];
    }
  }

  lemma NewestFirstTail(l: seq<NewsItem>)
    requires l != [] && NewestFirst(l)
    ensures NewestFirst(l[1..])
    ensures forall k :: 0 <= k < |l[1..]| ==> l[0].datetime >= l[1..][k].datetime
  {
    assert forall k :: 0 <= k < |l[1..]| ==> l[1..][k] == l[k + 1];
  }

  /** Every item of `Insert(x, l)` other than `x` is no newer than `bound`
      when all of `l` is no newer than it and `x` is older. */
  lemma InsertBounded(x: NewsItem, l: seq<NewsItem>, bound: int)
    requires x.datetime < bound
    requires forall k :: 0 <= k < |l| ==> bound >= l[k].datetime
    ensures forall k :: 0 <= k < |Insert(x, l)| ==> bound >= Insert(x, l)[k].datetime
  {
    InsertPermutes(x, l);
    forall k | 0 <= k < |Insert(x, l)| ensures bound >= Insert(x, l)[k].datetime {
      var y := Insert(x, l)[k];
      assert y in multiset(Insert(x, l));
      if y != x {
        assert y in multiset(l);
        var k' :| 0 <= k' < |l| && l[k'] == y;
      }
    }
  }

  lemma {:induction false} InsertKeepsOrder(x: NewsItem, l: seq<NewsItem>)
    requires NewestFirst(l)
    ensures NewestFirst(Insert(x, l))
    decreases |l|
  {
    if !(l == [] || l[0].datetime <= x.datetime) {
      var rest := Insert(x, l[1..]);
      NewestFirstTail(l);
      InsertKeepsOrder(x, l[1..]);
      InsertBounded(x, l[1..], l[0].datetime);
      var r := [l[0]] + rest;
      assert forall k :: 0 < k < |r| ==> r[k] == rest[k - 1];
    }
  }

  /** The sort only reorders. */
  lemma {:induction false} SortPermutes(s: seq<NewsItem>)
    ensures multiset(SortByDate(s)) == multiset(s)
    decreases |s|
  {
    if s != [] {
      SortPermutes(s[1..]);
      InsertPermutes(s[0], SortByDate(s[1..]));
      assert s == [s[0]] + s[1..];
    }
  }

  /** The result is newest first. */
  lemma {:induction false} SortOrders(s: seq<NewsItem>)
    ensures NewestFirst(SortByDate(s))
    decreases |s|
  {
    if s != [] {
      SortOrders(s[1..]);
      InsertKeepsOrder(s[0], SortByDate(s[1..]));
    }
  }

  function AtTime(t: int): NewsItem -> bool
  {
    (item: NewsItem) => item.datetime == t
  }

  lemma {:induction false} InsertStable(x: NewsItem, l: seq<NewsItem>, t: int)
    ensures Filter(Insert(x, l), AtTime(t)) ==
      if x.datetime == t then [x] + Filter(l, AtTime(t)) else Filter(l, AtTime(t))
    decreases |l|
  {
    if l == [] || l[0].datetime <= x.datetime {
      assert ([x] + l)[1..] == l;
    } else {
      InsertStable(x, l[1..], t);
      assert ([l[0]] + Insert(x, l[1..]))[1..] == Insert(x, l[1..]);
    }
  }

  /** Stability: the items with any one timestamp appear in the result in
      the order they had in the input. */
  lemma {:induction false} SortIsStable(s: seq<NewsItem>, t: int)
    ensures Filter(SortByDate(s), AtTime(t)) == Filter(s, AtTime(t))
    decreases |s|
  {
    if s != [] {
      SortIsStable(s[1..], t);
      InsertStable(s[0], SortByDate(s[1..]), t);
    }
  }

  // ---------------------------------------------------------------------
  // The feed.
  // ---------------------------------------------------------------------

  /** `allNews`: the general, crypto and forex lists, a missing one read as
      empty, in one list sorted newest first. */
  function AllNews(general: Option<seq<NewsItem>>, crypto: Option<seq<NewsItem>>, forex: Option<seq<NewsItem>>): seq<NewsItem>
  {
    SortByDate(general.GetOr([]) + crypto.GetOr([]) + forex.GetOr([]))
  }

  /** The feed holds exactly the fetched items, newest first, and items
      with equal times keep the general, crypto, forex order. */
  lemma AllNewsProperties(general: Option<seq<NewsItem>>, crypto: Option<seq<NewsItem>>, forex: Option<seq<NewsItem>>, t: int)
    ensures var merged := general.GetOr([]) + crypto.GetOr([]) + forex.GetOr([]);
      && multiset(AllNews(general, crypto, forex)) == multiset(merged)
      && NewestFirst(AllNews(general, crypto, forex))
      && Filter(AllNews(general, crypto, forex), AtTime(t)) == Filter(merged, AtTime(t))
  {
    var merged := general.GetOr([]) + crypto.GetOr([]) + forex.GetOr([]);
    SortPermutes(merged);
    SortOrders(merged);
    SortIsStable(merged, t);
  }

  function InCategory(category: string): NewsItem -> bool
  {
    (item: NewsItem) => ToLower(item.category) == category
  }

  /** `filteredNews`: the whole feed for 'all', otherwise the items whose
      lowercased category is the tab's name. */
  function FilteredNews(allNews: seq<NewsItem>, category: string): seq<NewsItem>
  {
    if category == "all" then allNews else Filter(allNews, InCategory(category))
  }

  /** A tab other than 'all' shows an item exactly when its lowercased
      category is the tab's name. */
  lemma FilteredNewsExactly(allNews: seq<NewsItem>, category: string, item: NewsItem)
    requires category != "all"
    ensures item in FilteredNews(allNews, category) <==> item in allNews && ToLower(item.category) == category
  {
    var r := FilteredNews(allNews, category);
    if item in r {
      var i :| 0 <= i < |r| && r[i] == item;
      assert InCategory(category)(r[i]);
    }
    if item in allNews && ToLower(item.category) == category {
      var i :| 0 <= i < |allNews| && allNews[i] == item;
      assert InCategory(category)(allNews[i]);
    }
  }

  /** A tab keeps the feed's order. */
  lemma FilteredNewsKeepsOrder(a: seq<NewsItem>, b: seq<NewsItem>, category: string)
    ensures FilteredNews(a + b, category) == FilteredNews(a, category) + FilteredNews(b, category)
  {
    if category != "all" {
      FilterConcat(a, b, InCategory(category));
    }
  }

  lemma AllTabShowsEverything(allNews: seq<NewsItem>)
    ensures FilteredNews(allNews, "all") == allNews
  {
  }

  /** `getCategoryColor`. */
  function CategoryColor(category: string): (c: string)
    ensures c == "bg-orange-500" <==> ToLower(category) == "crypto"
    ensures c == "bg-green-500" <==> ToLower(category) == "forex"
    ensures c == "bg-blue-500" <==> ToLower(category) == "general"
    ensures c == "bg-gray-500" <==> ToLower(category) !in {"crypto", "forex", "general"}
  {
    var lower := ToLower(category);
    if lower == "crypto" then "bg-orange-500"
    else if lower == "forex" then "bg-green-500"
    else if lower == "general" then "bg-blue-500"
    else "bg-gray-500"
  }

  /** The colour does not depend on letter case. */
  lemma CategoryColorIgnoresCase(category: string)
    ensures CategoryColor(ToLower(category)) == CategoryColor(category)
  {
    ToLowerIdempotent(category);
  }
}
