# Nepal In Lens: article extraction and page state, in Dafny

Nepal In Lens is a browser news reader for Nepal. It asks a hosted
generative search service for news on a category (or for a free-text
query), takes the web citations ("grounding chunks") the service returns,
and turns each citation into an article card. The page keeps four state
cells (the articles, the active tab, a loading flag and a search flag)
and shows a loading skeleton, a hero card with a grid of further cards,
or an empty-state message.

This project models that core:

- `types.dfy` (module `Types`): the article record, the seven categories
  with their string values, and the grounding chunk.
- `text.dfy` (module `Text`): the string operations the extraction uses,
  namely `split(sep)[0]`, `replace` with a string pattern (first
  occurrence only) and the decimal form of a number in a template
  literal. `IndexOf` is the search for the first occurrence that `split`
  and `replace` perform.
- `news_service.dfy` (module `NewsService`): the `forEach` loop of
  `fetchNewsByCategory` and `searchNews`. The callback is `VisitChunk` and
  the loop is `ExtractArticles`. `FetchNewsByCategory` and `SearchNews` add
  the catch-all. The loop is proved against `Extraction`, a
  specification function. When no usable chunk's URI is rejected by
  `new URL`, `Extraction` is proved equal to a loop-free description: the
  web chunks at the usable positions, in order, each mapped by
  `MakeArticle`.
- `app.dfy` (module `App`): the page state as a value (`ViewState`) with
  its transitions and its rendering (`Render`), and the page as a class
  (`NewsApp`) whose handlers update the four cells.

The service reply is an input (`Reply`). So are the three library calls
the loop makes:

- `host` stands for `new URL(uri).hostname`; `None` means the constructor throws.
- `newId` stands for the random id, indexed by chunk position.
- `today` stands for the locale date string.

A category feed only looks at chunk positions 0 to 7. The cap counts
positions, not articles: a chunk without a web record still uses up a
position, and it still advances the thumbnail seed. A single usable
chunk's URI that `new URL` rejects turns the whole call into the empty
list; a URI that parses with an empty hostname is kept, with an empty
source. Selecting the tab
that is already active reloads nothing, because the reload is an effect
keyed on the active tab.

## Model

| member | source | states |
|---|---|---|
| Types.CategoryName | types.ts:13-21 | the string value of each category is non-empty and starts with a capital letter |
| Types.CategoryOfName | types.ts:13-21 | reading a category's string value back gives that category |
| Types.CategoryNameInjective | types.ts:13-21 | distinct categories have distinct string values |
| Text.IndexOf | services/newsService.ts:43 | finds a match exactly when the pattern occurs, and the match is the first occurrence |
| Text.SplitHead | services/newsService.ts:43 | `split(sep)[0]` is a prefix of the input without the separator; it ends right at the first separator, or is the whole input when there is none |
| Text.ReplaceFirst | services/newsService.ts:45 | `replace` changes nothing without an occurrence, else splices the replacement in at the first occurrence only |
| Text.DecimalString | services/newsService.ts:49 | the decimal form of a number is non-empty, all digits, with no leading zero except for 0 itself |
| Text.ParseDecimalString | services/newsService.ts:49 | reading the decimal form back gives the number |
| Text.DecimalStringInjective | services/newsService.ts:49 | distinct numbers have distinct decimal forms |
| NewsService.ChunksOf | services/newsService.ts:27 | the chunk list is the first candidate's grounding chunks, or empty when they are missing (the empty-list fallback, also line 73) |
| NewsService.ArticleTitle | services/newsService.ts:40-43 | defines the title: a category feed takes the chunk title, or "News from " plus the hostname when it is empty, and cuts it before the first " - "; a search takes the chunk title or the query (line 80); its properties are CategoryTitleRule, SearchTitleRule and CategoryTitlesClean |
| NewsService.StripWww | services/newsService.ts:45 | defines the source as the hostname with its first "www." removed (also line 82); its properties are SourceOfWwwHost and SourceOfPlainHost |
| NewsService.Thumbnail | services/newsService.ts:49 | defines the thumbnail URL from the decimal form of the position followed by the category's string value or the query (also line 86); its properties are ThumbnailInjective and ThumbnailOfOne |
| NewsService.MakeArticle | services/newsService.ts:41-50 | defines the object literal pushed for one chunk: the id and date inputs, the title, the excerpt of the producer, the source, the URI, the category (Latest for a search) and the thumbnail (also lines 78-87) |
| NewsService.SelectUpTo | services/newsService.ts:38-39 | defines the chunks used by the first n iterations: a chunk is used when it has a web record and, in a category feed, its position is below 8 (lines 76-77 for a search); None once `new URL` has thrown; tied to the loop by VisitChunk and to the kept positions by SelectUpToByPositions |
| NewsService.Kept | services/newsService.ts:38-39 | the positions a loop keeps are below the bound and each holds a web record |
| NewsService.KeptIncreasing | services/newsService.ts:38 | kept positions are strictly increasing, so chunk order is preserved |
| NewsService.KeptComplete | services/newsService.ts:39 | every web chunk below the bound is kept; only chunks without one are skipped |
| NewsService.KeptWebRefs | services/newsService.ts:38-39 | the kept positions, read off in order, are exactly the web records of the leading chunks |
| NewsService.FailureIsFinal | services/newsService.ts:38-52 | once `new URL` has thrown in the loop, no later chunk brings the loop back |
| NewsService.PicksOfSome | services/newsService.ts:45 | the picks of a list of positions exist exactly when every position holds a web chunk whose URI `new URL` accepts |
| NewsService.PicksOfIndex | services/newsService.ts:45-46 | each pick is made from the chunk at the position it stands for, one pick per position |
| NewsService.SelectUpToByPositions | services/newsService.ts:38-52 | after any number of iterations, the chunks used are the picks of the kept positions below the cap, or a failure |
| NewsService.SelectionByPositions | services/newsService.ts:38-52 | the chunks the whole loop uses are the picks of the kept positions below the cap, or a failure |
| NewsService.Articles | services/newsService.ts:41-50 | one article is pushed per used chunk |
| NewsService.ExtractionByPositions | services/newsService.ts:38-52 | the result is, in chunk order, one article per web chunk at a usable position, made from that chunk, its position and its hostname |
| NewsService.ArticlesFollowWebChunks | services/newsService.ts:38-52 | articles match the usable web chunks one to one in order; URL, source, title, category and date come from the matching chunk and the request |
| NewsService.SeedsUseChunkPositions | services/newsService.ts:49 | every thumbnail is seeded with its chunk's position plus the category or query, not with the article's place in the result; the id is the `newId` input taken at that position, an artefact of how the random id is supplied |
| NewsService.SearchKeepsEveryWebChunk | services/newsService.ts:76-77 | a search has no cap: when `new URL` accepts every URI, it yields one article per web chunk |
| NewsService.NewsCategoryField | services/newsService.ts:48 | every article carries the requested category, and Latest for a search |
| NewsService.CategoryAtMostCap | services/newsService.ts:39 | a category feed has at most eight articles, whatever the reply |
| NewsService.SelectUpToOfPrefix | services/newsService.ts:38 | the first n iterations look only at the first n chunks |
| NewsService.SelectUpToPastCap | services/newsService.ts:39 | in a category feed, iterations at position 8 or later change nothing |
| NewsService.CategoryIgnoresLaterChunks | services/newsService.ts:39 | chunks past position 7 cannot change a category feed, not even with a bad URI |
| NewsService.CapCountsPositionsNotArticles | services/newsService.ts:39 | eight chunks without web records push a ninth, valid one out of a category feed, while a search keeps it |
| NewsService.News | services/newsService.ts:54-58 | defines what each producer returns: the extracted articles, or the empty list when the service call fails or the loop throws (the catch at lines 55-58 and 92-95, with the empty-list fallback at lines 27 and 73); the headline lemmas NewsCategoryField, CategoryAtMostCap, CategoryTitlesClean, UnparsableUriEmptiesResult, ParsableUrisKeepEveryChunk and ServiceErrorLooksEmpty are stated about it, while the order and provenance lemmas are stated about `Extraction`, which it returns when nothing throws |
| NewsService.UnparsableUriEmptiesResult | services/newsService.ts:55-58 | one usable chunk whose URI `new URL` rejects makes the whole call return the empty list |
| NewsService.ParsableUrisKeepEveryChunk | services/newsService.ts:38-58 | when `new URL` accepts every usable URI, the loop does not throw and every usable web chunk gives an article; with UnparsableUriEmptiesResult, the result is never partial |
| NewsService.ServiceErrorLooksEmpty | services/newsService.ts:27 | a failed service call and a reply without chunks both give the empty list |
| NewsService.CategoryTitlesClean | services/newsService.ts:43 | no title in a category feed contains " - " |
| NewsService.CategoryTitleRule | services/newsService.ts:40-43 | a category title is the chunk title, or "News from " plus the hostname when empty, cut just before its first " - " |
| NewsService.SearchTitleRule | services/newsService.ts:80 | a search title is the chunk title uncut, or the query when the title is empty |
| NewsService.SourceOfWwwHost | services/newsService.ts:45 | a hostname starting with "www." gives the rest of the hostname as source |
| NewsService.SourceOfPlainHost | services/newsService.ts:82 | a hostname without "www." is the source unchanged |
| NewsService.ThumbnailInjective | services/newsService.ts:49 | distinct positions give distinct thumbnails for the same category or query |
| NewsService.ThumbnailsDistinct | services/newsService.ts:86 | the thumbnails within one result are pairwise distinct |
| NewsService.SkippedChunkShiftsSeed | services/newsService.ts:49 | after a chunk without a web record, the only article's thumbnail URL is seeded with "1" followed by the category or query |
| NewsService.SkippedChunkExtraction | services/newsService.ts:38-50 | a chunk without a web record followed by a valid one gives exactly one article, made at position 1 |
| NewsService.ThumbnailOfOne | services/newsService.ts:49 | the thumbnail for position 1 is the literal URL with seed "1" followed by the category or query |
| NewsService.VisitChunk | services/newsService.ts:38-51 | the callback pushes the article of a used chunk, skips other chunks, and fails exactly when the specification fails at that step |
| NewsService.ExtractArticles | services/newsService.ts:35-54 | the loop returns exactly the specified extraction, or a failure when `new URL` throws |
| NewsService.FetchNewsByCategory | services/newsService.ts:7-59 | returns the category feed, or the empty list on any exception; at most eight articles, all of the requested category |
| NewsService.SearchNews | services/newsService.ts:61-96 | returns the search result, or the empty list on any exception; every article has category Latest |
| App.StartLoad | App.tsx:16-17 | defines the setters `loadNews` runs before it awaits: loading on, search mode off, other cells unchanged |
| App.StartSearch | App.tsx:24-25 | defines the setters `handleSearch` runs before it awaits: loading on, search mode on, other cells unchanged |
| App.Settle | App.tsx:19-20 | defines the setters both handlers run after the await (also lines 27-28): the articles become the data, loading off |
| App.SelectStep | App.tsx:31-43 | defines a tab choice: the tab becomes the chosen one, and the effect keyed on it reloads the feed only when the value changed; its property is SelectStepEffect |
| App.HomeStep | App.tsx:96 | defines "Back to Home" as evidently intended: the Latest tab with a freshly loaded Latest feed, whatever tab was active; its property is HomeStepShowsLatestFeed |
| App.Heading | App.tsx:72 | defines the grid heading: "Search Results" in search mode, else "More in " plus the tab's string value; its properties are HeadingsDistinct and FeedHeadingNamesTab |
| App.Render | App.tsx:47-84 | skeleton exactly while loading; else the empty state exactly when there are no articles; results show every article once in order, with a hero exactly outside search mode |
| App.FeedLayout | App.tsx:63-65 | outside search mode, the hero is the first article, the grid is the rest, and the heading names the active tab |
| App.SearchLayout | App.tsx:78 | in search mode there is no hero, the grid is every article, and the heading is "Search Results" |
| App.HeadingsDistinct | App.tsx:72 | the heading reads "Search Results" exactly in search mode |
| App.FeedHeadingNamesTab | App.tsx:72 | outside search mode, two pages with the same heading are on the same tab |
| App.LoadingShowsSkeleton | App.tsx:16-17 | starting either handler shows the skeleton, whatever was shown before |
| App.LoadedFeedView | App.tsx:15-21 | a finished category load shows exactly the fetched articles as a feed, independent of earlier articles |
| App.LoadedSearchView | App.tsx:23-29 | a finished search shows exactly the found articles in search layout, independent of earlier articles |
| App.FeedWithinCap | App.tsx:18 | a loaded feed shows at most eight cards, at most seven in the grid, all of the requested category |
| App.SelectStepEffect | App.tsx:31-34 | re-selecting the active tab changes nothing; another tab shows its freshly loaded feed outside search mode |
| App.BackToHomeIgnoredOnLatest | App.tsx:96 | as written, after an empty search from the Latest tab, "Back to Home" leaves the empty search page in place |
| App.HomeStepShowsLatestFeed | App.tsx:96 | the corrected "Back to Home" always leaves search mode and shows the reloaded Latest feed |
| App.NewsApp.constructor | App.tsx:10-13 | no articles, the Latest tab, loading, not searching |
| App.NewsApp.LoadNewsStart | App.tsx:16-17 | sets loading and clears the search flag; articles and tab unchanged |
| App.NewsApp.LoadNewsFinish | App.tsx:18-20 | replaces the articles with the fetched feed and clears loading; at most eight articles |
| App.NewsApp.LoadNews | App.tsx:15-21 | the whole load: loading and feed mode, then the fetched articles with loading cleared |
| App.NewsApp.HandleSearchStart | App.tsx:24-25 | sets loading and the search flag; articles and tab unchanged |
| App.NewsApp.HandleSearchFinish | App.tsx:26-28 | replaces the articles with the search result and clears loading |
| App.NewsApp.HandleSearch | App.tsx:23-29 | the whole search: loading and search mode, then the found articles with loading cleared |
| App.NewsApp.Mount | App.tsx:31-34 | the first run of the effect loads the feed of the active tab |
| App.NewsApp.SelectCategory | App.tsx:31-43 | sets the active tab and reloads its feed only when the tab changed |
| App.NewsApp.BackToHome | App.tsx:96 | as written: selects the Latest tab, which reloads the feed only when another tab was active |
| App.NewsApp.BackToHomeFixed | App.tsx:96 | corrected: switches to the Latest tab and reloads its feed even when Latest was already active |

## Left out

- The call to the generative service and its prompt (services/newsService.ts:9-25, 63-71). The reply is an input. `ServiceError` stands for any rejection.
- `response.text` and the unused `lines` it feeds (services/newsService.ts:28, 34). They have no effect on the result.
- `console.error` logging in both catch blocks.
- `Math.random` ids and `toLocaleDateString` (services/newsService.ts:42, 47, 79, 84). They are the parameters `newId` (by chunk position) and `today`, so no claim is made that ids are unique.
- URL parsing is the parameter `host`. Line 40 parses the URI when the title is empty, and line 45 parses it again; both parses yield the same hostname, so one value per URI is used.
- Overlapping handlers that finish out of order. Each handler is a start step then a finish step, run back to back.
- React rendering, the markup and CSS, the six placeholder cards of the skeleton and the footer. NewsCard, Header (including its blank-query guard), CategoryBar, AdminPanel and GoogleLoginModal are not part of this model.
- The article's `thumbnail` is optional in the record type, but both producers always set it, so it is a plain string. A missing chunk title is the empty string, which the code treats the same way.
- components/AdminPanel.tsx displays a list of news sources with an enabled flag each, and components/GoogleLoginModal.tsx a list of mock accounts with interest maps. Neither feeds the extraction or the page state, so neither is modelled.
- The heading shows the active tab, while the articles come from the category that was loaded. The two agree whenever handlers run back to back, which is all the model covers.

## Findings

| source | as written | input that shows it | evidently intended | confidence | as-written member | corrected member |
|---|---|---|---|---|---|---|
| App.tsx:96 | "Back to Home" only sets the active tab to Latest. The reload happens in the effect keyed on that tab (App.tsx:31-34), which does not run again when Latest is already active. | On the Latest tab, search for a query that finds nothing, then press "Back to Home": the empty search page stays | leave search mode and show a freshly loaded Latest feed | medium, not executed | App.BackToHomeIgnoredOnLatest | App.HomeStepShowsLatestFeed |
