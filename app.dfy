/** The page controller: four state cells, the two handlers that reload
    them (a category feed and a search), the category selection that
    reloads the feed through an effect, and the choice of what the main
    area shows. Each asynchronous handler is modelled as a start step (the
    setters before the `await`) and a finish step (the setters after it);
    the service reply and the library inputs of the news service are
    parameters of the finish step. */
module App {
  import opened Types
  import NS = NewsService

  /** The four state cells. */
  datatype ViewState = ViewState(
    articles: seq<NewsArticle>,
    activeCategory: NewsCategory,
    loading: bool,
    isSearching: bool)

  /** The cells on first render: no articles, the Latest tab, loading, not searching. */
  const InitialState: ViewState := ViewState([], Latest, true, false)

  // ---------------------------------------------------------------------
  // Transitions of the state cells

  /** The setters `loadNews` runs before it awaits the fetch. */
  function StartLoad(s: ViewState): ViewState {
    s.(loading := true, isSearching := false)
  }

  /** The setters `handleSearch` runs before it awaits the search. */
  function StartSearch(s: ViewState): ViewState {
    s.(loading := true, isSearching := true)
  }

  /** The setters both handlers run once the data has arrived. */
  function Settle(s: ViewState, data: seq<NewsArticle>): ViewState {
    s.(articles := data, loading := false)
  }

  /** Picking a tab sets `activeCategory`; the effect keyed on that cell
      reloads the feed only when the value actually changes. */
  function SelectStep(s: ViewState, category: NewsCategory, data: seq<NewsArticle>): ViewState {
    var t := s.(activeCategory := category);
    if category == s.activeCategory then t else Settle(StartLoad(t), data)
  }

  /** "Back to Home" as evidently intended: back on the Latest tab, showing
      a freshly loaded Latest feed, whatever tab was active before. */
  function HomeStep(s: ViewState, data: seq<NewsArticle>): ViewState {
    Settle(StartLoad(s.(activeCategory := Latest)), data)
  }

  // ---------------------------------------------------------------------
  // What the main area shows

  /** The three branches of the main area. `hero` is the large card above
      the grid, when there is one. */
  datatype View =
    | Skeleton
    | Results(hero: Option<NewsArticle>, heading: string, grid: seq<NewsArticle>)
    | EmptyState

  const SearchHeading: string := "Search Results"
  const FeedHeadingPrefix: string := "More in "

  function Heading(s: ViewState): string {
    if s.isSearching then SearchHeading else FeedHeadingPrefix + CategoryName(s.activeCategory)
  }

  /** Every card a view shows, from top to bottom. */
  function Cards(v: View): seq<NewsArticle> {
    match v
    case Results(hero, _, grid) => (if hero.Some? then [hero.value] else []) + grid
    case _ => []
  }

  /** The main area for a state: the skeleton while loading, else the
      results when there are articles, else the empty state. The cards of
      the results are exactly the articles, in order, each once; the hero
      is there exactly outside search mode. */
  function Render(s: ViewState): (v: View)
    ensures v.Skeleton? <==> s.loading
    ensures v.EmptyState? <==> !s.loading && s.articles == []
    ensures v.Results? ==> Cards(v) == s.articles
    ensures v.Results? ==> (v.hero.Some? <==> !s.isSearching)
  {
    if s.loading then Skeleton
    else if |s.articles| > 0 then
      var hero := if !s.isSearching && |s.articles| > 0 then Some(s.articles[0]) else None;
      var grid := s.articles[if s.isSearching then 0 else 1..];
      assert hero.Some? ==> [s.articles[0]] + s.articles[1..] == s.articles;
      Results(hero, Heading(s), grid)
    else EmptyState
  }

  // ---------------------------------------------------------------------
  // Properties of the view

  /** Outside search mode the hero is the first article and the grid the
      rest, under the heading of the active tab. */
  lemma FeedLayout(s: ViewState)
    requires !s.loading && s.articles != [] && !s.isSearching
    ensures Render(s) == Results(Some(s.articles[0]), FeedHeadingPrefix + CategoryName(s.activeCategory), s.articles[1..])
  {
  }

  /** In search mode there is no hero and the grid holds every article. */
  lemma SearchLayout(s: ViewState)
    requires !s.loading && s.articles != [] && s.isSearching
    ensures Render(s) == Results(None, SearchHeading, s.articles)
  {
    assert s.articles[0..] == s.articles;
  }

  /** The two headings can never be confused: no tab heading reads "Search Results". */
  lemma HeadingsDistinct(s: ViewState)
    ensures Heading(s) == SearchHeading <==> s.isSearching
  {
    if !s.isSearching {
      assert Heading(s)[0] == 'M';
    }
  }

  /** Outside search mode the heading names the active tab unambiguously:
      two feed pages with the same heading are on the same tab. */
  lemma FeedHeadingNamesTab(s: ViewState, t: ViewState)
    requires !s.isSearching && !t.isSearching
    ensures Heading(s) == Heading(t) ==> s.activeCategory == t.activeCategory
  {
    if Heading(s) == Heading(t) {
      var n := |FeedHeadingPrefix|;
      assert Heading(s)[n..] == CategoryName(s.activeCategory);
      assert Heading(t)[n..] == CategoryName(t.activeCategory);
      CategoryNameInjective(s.activeCategory, t.activeCategory);
    }
  }

  /** Starting either handler hides whatever was shown before behind the skeleton. */
  lemma LoadingShowsSkeleton(s: ViewState)
    ensures Render(StartLoad(s)) == Skeleton && Render(StartSearch(s)) == Skeleton
  {
  }

  /** A finished category load replaces the articles wholesale: the view
      depends only on the tab and the fetched data, not on what was shown
      before, and it is a feed view, never a search view. */
  lemma LoadedFeedView(s: ViewState, data: seq<NewsArticle>)
    ensures var t := Settle(StartLoad(s), data);
            Cards(Render(t)) == data &&
            Render(t) == Render(ViewState(data, s.activeCategory, false, false))
  {
  }

  /** The same for a finished search. */
  lemma LoadedSearchView(s: ViewState, data: seq<NewsArticle>)
    ensures var t := Settle(StartSearch(s), data);
            Cards(Render(t)) == data &&
            Render(t) == Render(ViewState(data, s.activeCategory, false, true))
  {
  }

  /** A loaded category feed fills the hero and at most seven grid cards,
      all of the requested category. */
  lemma FeedWithinCap(s: ViewState, category: NewsCategory, reply: NS.Reply,
                      host: string -> Option<string>, newId: nat -> string, today: string)
    ensures var v := Render(Settle(StartLoad(s), NS.News(NS.ByCategory(category), reply, host, newId, today)));
            |Cards(v)| <= NS.CategoryCap &&
            (v.Results? ==> |v.grid| < NS.CategoryCap) &&
            forall k :: 0 <= k < |Cards(v)| ==> Cards(v)[k].category == category
  {
    NS.CategoryAtMostCap(category, reply, host, newId, today);
    NS.NewsCategoryField(NS.ByCategory(category), reply, host, newId, today);
  }

  /** Re-selecting the active tab changes nothing; selecting another tab
      shows that tab's freshly loaded feed. */
  lemma SelectStepEffect(s: ViewState, category: NewsCategory, data: seq<NewsArticle>)
    ensures category == s.activeCategory ==> SelectStep(s, category, data) == s
    ensures category != s.activeCategory ==>
      SelectStep(s, category, data) == ViewState(data, category, false, false)
  {
  }

  /** As written, "Back to Home" only sets the tab to Latest: after a
      search from the Latest tab that found nothing, pressing it leaves
      the empty search page in place, even when the Latest feed has news. */
  lemma BackToHomeIgnoredOnLatest(feed: seq<NewsArticle>, latest: seq<NewsArticle>)
    requires latest != []
    ensures var searched := Settle(StartSearch(Settle(StartLoad(InitialState), feed)), []);
            var after := SelectStep(searched, Latest, latest);
            after == searched && after.isSearching && Render(after) == EmptyState
  {
  }

  /** The corrected "Back to Home" always leaves search mode and shows the
      Latest feed that was loaded. */
  lemma HomeStepShowsLatestFeed(s: ViewState, data: seq<NewsArticle>)
    ensures var t := HomeStep(s, data);
            t.activeCategory == Latest && !t.isSearching && !t.loading && t.articles == data &&
            Cards(Render(t)) == data &&
            (data != [] ==> Render(t).hero == Some(data[0]) && Render(t).heading == "More in Latest")
  {
  }

  // ---------------------------------------------------------------------
  // The page as an object whose cells the handlers update

  class NewsApp {
    var articles: seq<NewsArticle>
    var activeCategory: NewsCategory
    var loading: bool
    var isSearching: bool

    function State(): ViewState
      reads this
    {
      ViewState(articles, activeCategory, loading, isSearching)
    }

    /** The cells on first render. */
    constructor()
      ensures State() == InitialState
    {
      articles := [];
      activeCategory := Latest;
      loading := true;
      isSearching := false;
    }

    /** `loadNews`, up to its `await`. */
    method LoadNewsStart()
      modifies this
      ensures State() == StartLoad(old(State()))
    {
      loading := true;
      isSearching := false;
    }

    /** `loadNews`, from its `await` on. */
    method LoadNewsFinish(category: NewsCategory, reply: NS.Reply,
                          host: string -> Option<string>, newId: nat -> string, today: string)
      modifies this
      ensures State() == Settle(old(State()), NS.News(NS.ByCategory(category), reply, host, newId, today))
      ensures |articles| <= NS.CategoryCap
    {
      var data := NS.FetchNewsByCategory(category, reply, host, newId, today);
      articles := data;
      loading := false;
    }

    /** `loadNews(category)` run to completion. */
    method LoadNews(category: NewsCategory, reply: NS.Reply,
                    host: string -> Option<string>, newId: nat -> string, today: string)
      modifies this
      ensures State() == Settle(StartLoad(old(State())), NS.News(NS.ByCategory(category), reply, host, newId, today))
    {
      LoadNewsStart();
      LoadNewsFinish(category, reply, host, newId, today);
    }

    /** `handleSearch`, up to its `await`. */
    method HandleSearchStart()
      modifies this
      ensures State() == StartSearch(old(State()))
    {
      loading := true;
      isSearching := true;
    }

    /** `handleSearch`, from its `await` on. */
    method HandleSearchFinish(query: string, reply: NS.Reply,
                              host: string -> Option<string>, newId: nat -> string, today: string)
      modifies this
      ensures State() == Settle(old(State()), NS.News(NS.BySearch(query), reply, host, newId, today))
    {
      var data := NS.SearchNews(query, reply, host, newId, today);
      articles := data;
      loading := false;
    }

    /** `handleSearch(query)` run to completion. */
    method HandleSearch(query: string, reply: NS.Reply,
                        host: string -> Option<string>, newId: nat -> string, today: string)
      modifies this
      ensures State() == Settle(StartSearch(old(State())), NS.News(NS.BySearch(query), reply, host, newId, today))
    {
      HandleSearchStart();
      HandleSearchFinish(query, reply, host, newId, today);
    }

    /** The effect's first run, after mounting: loads the active tab. */
    method Mount(reply: NS.Reply, host: string -> Option<string>, newId: nat -> string, today: string)
      modifies this
      ensures State() == Settle(StartLoad(old(State())),
                                NS.News(NS.ByCategory(old(activeCategory)), reply, host, newId, today))
    {
      LoadNews(activeCategory, reply, host, newId, today);
    }

    /** The tab bar's callback, followed by the effect when the tab changed. */
    method SelectCategory(category: NewsCategory, reply: NS.Reply,
                          host: string -> Option<string>, newId: nat -> string, today: string)
      modifies this
      ensures State() == SelectStep(old(State()), category, NS.News(NS.ByCategory(category), reply, host, newId, today))
    {
      var changed := category != activeCategory;
      activeCategory := category;
      if changed {
        LoadNews(activeCategory, reply, host, newId, today);
      }
    }

    /** "Back to Home" as written: selects the Latest tab, so the feed
        is reloaded only when another tab was active. */
    method BackToHome(reply: NS.Reply, host: string -> Option<string>, newId: nat -> string, today: string)
      modifies this
      ensures State() == SelectStep(old(State()), Latest, NS.News(NS.ByCategory(Latest), reply, host, newId, today))
    {
      SelectCategory(Latest, reply, host, newId, today);
    }

    /** "Back to Home", corrected: back on the Latest tab with the Latest
        feed reloaded, also when Latest was already active. */
    method BackToHomeFixed(reply: NS.Reply, host: string -> Option<string>, newId: nat -> string, today: string)
      modifies this
      ensures State() == HomeStep(old(State()), NS.News(NS.ByCategory(Latest), reply, host, newId, today))
    {
      activeCategory := Latest;
      LoadNews(activeCategory, reply, host, newId, today);
    }
  }
}
