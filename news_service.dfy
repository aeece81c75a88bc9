/** The news service: turns the grounding chunks returned by the
    generative search service into articles, for a category feed
    (`fetchNewsByCategory`) or for a free-text search (`searchNews`).

    The service call itself is an input (`Reply`), and so are the three
    library calls the extraction loop makes: `new URL(uri).hostname` is the
    partial function `host` (None where the constructor throws), the random
    article id is `newId`, indexed by chunk position, and the locale date
    string is `today`. */
module NewsService {
  import opened Types
  import opened Text

  /** What the service call produced: it failed (the awaited promise
      rejected), or it answered, with or without grounding chunks on its
      first candidate. */
  datatype Reply = ServiceError | ServiceReply(groundingChunks: Option<seq<GroundingChunk>>)

  /** The two producers. */
  datatype Mode = ByCategory(category: NewsCategory) | BySearch(query: string)

  /** Only chunk positions below this bound can feed a category feed. */
  const CategoryCap: nat := 8
  const TitleSeparator: string := " - "
  const WwwPrefix: string := "www."
  const CategoryExcerpt: string := "Read the latest updates regarding this story on the official portal."
  const SearchExcerpt: string := "Search result from Nepal In Lens grounding engine."

  /** `...?.groundingChunks || []` */
  function ChunksOf(g: Option<seq<GroundingChunk>>): seq<GroundingChunk> {
    match g
    case None => []
    case Some(chunks) => chunks
  }

  // ---------------------------------------------------------------------
  // The article one chunk contributes

  /** The text appended to the chunk position in the thumbnail seed. */
  function SeedTag(mode: Mode): string {
    match mode
    case ByCategory(c) => CategoryName(c)
    case BySearch(q) => q
  }

  /** The category an article gets: the requested one, or Latest for a search. */
  function ModeCategory(mode: Mode): NewsCategory {
    match mode
    case ByCategory(c) => c
    case BySearch(_) => Latest
  }

  /** `https://picsum.photos/seed/${index + tag}/800/450`: a number plus a
      string is the number's decimal form followed by the string. */
  function Thumbnail(index: nat, tag: string): string {
    "https://picsum.photos/seed/" + DecimalString(index) + tag + "/800/450"
  }

  /** `hostname.replace('www.', '')` */
  function StripWww(hostname: string): string {
    ReplaceFirst(hostname, WwwPrefix, "")
  }

  /** The title: the chunk's title unless it is empty, else a fallback;
      a category feed then keeps only the text before the first " - ". */
  function ArticleTitle(mode: Mode, web: WebRef, hostname: string): string {
    match mode
    case ByCategory(_) =>
      SplitHead(if web.title != "" then web.title else "News from " + hostname, TitleSeparator)
    case BySearch(q) =>
      if web.title != "" then web.title else q
  }

  /** The object literal pushed for the chunk at position `index`, given
      the hostname of its URI, its random id and the date string. */
  function MakeArticle(mode: Mode, web: WebRef, index: nat, hostname: string, id: string, today: string): NewsArticle {
    NewsArticle(
      id,
      ArticleTitle(mode, web, hostname),
      if mode.ByCategory? then CategoryExcerpt else SearchExcerpt,
      StripWww(hostname),
      web.uri,
      today,
      ModeCategory(mode),
      Thumbnail(index, SeedTag(mode)))
  }

  // ---------------------------------------------------------------------
  // Which chunks the loop uses

  /** A chunk the loop used: its position, its web record and the hostname
      of its URI. */
  datatype Pick = Pick(index: nat, web: WebRef, hostname: string)

  /** The loop uses the chunk at position `i`: it has a `web` record and,
      in a category feed, its position is below the cap. */
  predicate Used(mode: Mode, chunks: seq<GroundingChunk>, i: nat)
    requires i < |chunks|
  {
    chunks[i].web.Some? && (mode.ByCategory? ==> i < CategoryCap)
  }

  /** The chunks the loop has used after its first `n` iterations, or
      None once `new URL` has thrown. */
  function SelectUpTo(mode: Mode, chunks: seq<GroundingChunk>, n: nat, host: string -> Option<string>): Option<seq<Pick>>
    requires n <= |chunks|
    decreases n
  {
    if n == 0 then Some([])
    else
      match SelectUpTo(mode, chunks, n - 1, host)
      case None => None
      case Some(prev) =>
        if !Used(mode, chunks, n - 1) then Some(prev)
        else
          var web := chunks[n - 1].web.value;
          match host(web.uri)
          case None => None
          case Some(h) => Some(prev + [Pick(n - 1, web, h)])
  }

  function Selection(mode: Mode, chunks: seq<GroundingChunk>, host: string -> Option<string>): Option<seq<Pick>> {
    SelectUpTo(mode, chunks, |chunks|, host)
  }

  /** Once the loop has thrown, later chunks cannot undo it. */
  lemma {:induction false} FailureIsFinal(mode: Mode, chunks: seq<GroundingChunk>, m: nat, n: nat,
                                          host: string -> Option<string>)
    requires m <= n <= |chunks|
    requires SelectUpTo(mode, chunks, m, host).None?
    ensures SelectUpTo(mode, chunks, n, host).None?
    decreases n
  {
    if m < n {
      FailureIsFinal(mode, chunks, m, n - 1, host);
    }
  }

  /** How many leading chunk positions the loop may use. */
  function Limit(mode: Mode, n: nat): nat {
    if mode.ByCategory? && n > CategoryCap then CategoryCap else n
  }

  /** The positions below `n` whose chunk has a `web` record, in increasing order. */
  function Kept(chunks: seq<GroundingChunk>, n: nat): (p: seq<nat>)
    requires n <= |chunks|
    ensures |p| <= n
    ensures forall k :: 0 <= k < |p| ==> p[k] < n && chunks[p[k]].web.Some?
    decreases n
  {
    if n == 0 then []
    else Kept(chunks, n - 1) + (if chunks[n - 1].web.Some? then [n - 1] else [])
  }

  /** The kept positions are strictly increasing: chunk order is preserved. */
  lemma {:induction false} KeptIncreasing(chunks: seq<GroundingChunk>, n: nat)
    requires n <= |chunks|
    ensures forall k, l :: 0 <= k < l < |Kept(chunks, n)| ==> Kept(chunks, n)[k] < Kept(chunks, n)[l]
  {
    if n > 0 {
      KeptIncreasing(chunks, n - 1);
    }
  }

  /** Every web chunk below `n` is kept: only chunks without one are skipped. */
  lemma {:induction false} KeptComplete(chunks: seq<GroundingChunk>, n: nat, i: nat)
    requires i < n <= |chunks| && chunks[i].web.Some?
    ensures i in Kept(chunks, n)
  {
    if i < n - 1 {
      KeptComplete(chunks, n - 1, i);
    }
  }

  /** One more loop step adds the current position to the kept ones
      exactly when the loop uses that chunk. */
  lemma KeptStep(mode: Mode, chunks: seq<GroundingChunk>, index: nat)
    requires index < |chunks|
    ensures Kept(chunks, Limit(mode, index + 1)) ==
      Kept(chunks, Limit(mode, index)) + (if Used(mode, chunks, index) then [index] else [])
  {
    if mode.ByCategory? && index >= CategoryCap {
      assert Limit(mode, index + 1) == Limit(mode, index) == CategoryCap;
    } else {
      assert Limit(mode, index + 1) == index + 1 && Limit(mode, index) == index;
    }
  }

  /** The picks of the positions in `p`, in order: None as soon as one
      position holds no web chunk or a URI that `new URL` rejects. */
  function PicksOf(chunks: seq<GroundingChunk>, p: seq<nat>, host: string -> Option<string>): Option<seq<Pick>> {
    if p == [] then Some([])
    else
      match PicksOf(chunks, p[..|p| - 1], host)
      case None => None
      case Some(prev) =>
        var i := p[|p| - 1];
        if i < |chunks| && chunks[i].web.Some? then
          var web := chunks[i].web.value;
          match host(web.uri)
          case None => None
          case Some(h) => Some(prev + [Pick(i, web, h)])
        else None
  }

  /** The picks exist exactly when every position holds a web chunk whose
      URI `new URL` accepts. */
  lemma {:induction false} PicksOfSome(chunks: seq<GroundingChunk>, p: seq<nat>, host: string -> Option<string>)
    ensures PicksOf(chunks, p, host).Some? <==>
      forall k :: 0 <= k < |p| ==>
        p[k] < |chunks| && chunks[p[k]].web.Some? && host(chunks[p[k]].web.value.uri).Some?
  {
    if p != [] {
      var init := p[..|p| - 1];
      PicksOfSome(chunks, init, host);
      assert forall k :: 0 <= k < |init| ==> init[k] == p[k];
    }
  }

  /** Each pick is made from the chunk at the position it stands for. */
  lemma {:induction false} PicksOfIndex(chunks: seq<GroundingChunk>, p: seq<nat>, host: string -> Option<string>)
    requires PicksOf(chunks, p, host).Some?
    ensures var r := PicksOf(chunks, p, host).value;
            |r| == |p| &&
            forall k :: 0 <= k < |p| ==>
              p[k] < |chunks| && chunks[p[k]].web.Some? && host(chunks[p[k]].web.value.uri).Some? &&
              r[k] == Pick(p[k], chunks[p[k]].web.value, host(chunks[p[k]].web.value.uri).value)
  {
    if p != [] {
      PicksOfIndex(chunks, p[..|p| - 1], host);
    }
  }

  /** Appending a position with a `web` record extends the picks by one. */
  lemma PicksOfSnoc(chunks: seq<GroundingChunk>, p: seq<nat>, i: nat, host: string -> Option<string>)
    requires i < |chunks| && chunks[i].web.Some?
    ensures PicksOf(chunks, p + [i], host) ==
      match PicksOf(chunks, p, host)
      case None => None
      case Some(prev) =>
        match host(chunks[i].web.value.uri)
        case None => None
        case Some(h) => Some(prev + [Pick(i, chunks[i].web.value, h)])
  {
    var q := p + [i];
    assert q[..|q| - 1] == p && q[|q| - 1] == i;
  }

  /** The loop's selection, described without the loop: the picks of the
      web chunks at the usable positions. */
  lemma {:induction false} SelectUpToByPositions(mode: Mode, chunks: seq<GroundingChunk>, n: nat,
                                                 host: string -> Option<string>)
    requires n <= |chunks|
    ensures SelectUpTo(mode, chunks, n, host) == PicksOf(chunks, Kept(chunks, Limit(mode, n)), host)
  {
    if n > 0 {
      var i := n - 1;
      var p := Kept(chunks, Limit(mode, i));
      SelectUpToByPositions(mode, chunks, i, host);
      KeptStep(mode, chunks, i);
      if Used(mode, chunks, i) {
        assert Kept(chunks, Limit(mode, n)) == p + [i];
        PicksOfSnoc(chunks, p, i, host);
      } else {
        assert Kept(chunks, Limit(mode, n)) == p;
        assert SelectUpTo(mode, chunks, n, host) == SelectUpTo(mode, chunks, i, host);
      }
    }
  }

  /** The same, for the whole chunk list. */
  lemma SelectionByPositions(mode: Mode, chunks: seq<GroundingChunk>, host: string -> Option<string>)
    ensures Selection(mode, chunks, host) == PicksOf(chunks, Kept(chunks, Limit(mode, |chunks|)), host)
  {
    SelectUpToByPositions(mode, chunks, |chunks|, host);
  }

  // ---------------------------------------------------------------------
  // The result

  function ArticleOf(mode: Mode, pick: Pick, newId: nat -> string, today: string): NewsArticle {
    MakeArticle(mode, pick.web, pick.index, pick.hostname, newId(pick.index), today)
  }

  /** The article-making function of one call. */
  function Maker(mode: Mode, newId: nat -> string, today: string): Pick -> NewsArticle {
    pick => ArticleOf(mode, pick, newId, today)
  }

  /** One article per pick, in the order of the picks. */
  function Articles(make: Pick -> NewsArticle, picks: seq<Pick>): seq<NewsArticle> {
    seq(|picks|, k requires 0 <= k < |picks| => make(picks[k]))
  }

  lemma ArticlesSnoc(make: Pick -> NewsArticle, picks: seq<Pick>, pick: Pick)
    ensures Articles(make, picks + [pick]) == Articles(make, picks) + [make(pick)]
  {
  }

  /** What the extraction loop yields after its first `n` iterations: the
      articles of the chunks selected so far, or None once it has thrown. */
  function ExtractedUpTo(mode: Mode, chunks: seq<GroundingChunk>, n: nat,
                         host: string -> Option<string>, newId: nat -> string, today: string): Option<seq<NewsArticle>>
    requires n <= |chunks|
  {
    match SelectUpTo(mode, chunks, n, host)
    case None => None
    case Some(picks) => Some(Articles(Maker(mode, newId, today), picks))
  }

  /** What the extraction loop yields: the articles of the selected
      chunks, or None when the loop throws. */
  function Extraction(mode: Mode, chunks: seq<GroundingChunk>,
                      host: string -> Option<string>, newId: nat -> string, today: string): Option<seq<NewsArticle>>
  {
    ExtractedUpTo(mode, chunks, |chunks|, host, newId, today)
  }

  /** What the whole call returns: any exception, from the service call
      or from the loop, is caught and turned into an empty list. */
  function News(mode: Mode, reply: Reply,
                host: string -> Option<string>, newId: nat -> string, today: string): seq<NewsArticle>
  {
    match reply
    case ServiceError => []
    case ServiceReply(g) =>
      match Extraction(mode, ChunksOf(g), host, newId, today)
      case None => []
      case Some(r) => r
  }

  // ---------------------------------------------------------------------
  // Properties of the extraction

  /** The web records of the chunks that have one, in chunk order. */
  function WebRefs(chunks: seq<GroundingChunk>): seq<WebRef> {
    if chunks == [] then []
    else
      var last := chunks[|chunks| - 1];
      WebRefs(chunks[..|chunks| - 1]) + (if last.web.Some? then [last.web.value] else [])
  }

  /** The kept positions, read off in order, are exactly the web records
      of the first `n` chunks. */
  lemma {:induction false} KeptWebRefs(chunks: seq<GroundingChunk>, n: nat)
    requires n <= |chunks|
    ensures |Kept(chunks, n)| == |WebRefs(chunks[..n])|
    ensures forall k :: 0 <= k < |Kept(chunks, n)| ==>
      chunks[Kept(chunks, n)[k]].web.value == WebRefs(chunks[..n])[k]
  {
    if n > 0 {
      KeptWebRefs(chunks, n - 1);
      assert chunks[..n][..n - 1] == chunks[..n - 1];
    }
  }

  /** The result, described without the loop: one article per web chunk
      among the usable positions, in chunk order, each made from its chunk,
      its position and the hostname of its URI. */
  lemma ExtractionByPositions(mode: Mode, chunks: seq<GroundingChunk>,
                              host: string -> Option<string>, newId: nat -> string, today: string)
    requires Extraction(mode, chunks, host, newId, today).Some?
    ensures var r := Extraction(mode, chunks, host, newId, today).value;
            var p := Kept(chunks, Limit(mode, |chunks|));
            var w := WebRefs(chunks[..Limit(mode, |chunks|)]);
            |r| == |p| == |w| &&
            forall k :: 0 <= k < |r| ==>
              host(w[k].uri).Some? &&
              r[k] == MakeArticle(mode, w[k], p[k], host(w[k].uri).value, newId(p[k]), today)
  {
    var p := Kept(chunks, Limit(mode, |chunks|));
    SelectionByPositions(mode, chunks, host);
    KeptWebRefs(chunks, Limit(mode, |chunks|));
    PicksOfIndex(chunks, p, host);
  }

  /** Skipping and ordering: the articles correspond one to one, in order,
      to the web chunks among the usable positions; each takes its URL from
      its chunk, its source from the chunk's hostname without the first
      "www.", its title from the chunk's title (or fallback), the requested
      category and the date. */
  lemma ArticlesFollowWebChunks(mode: Mode, chunks: seq<GroundingChunk>,
                                host: string -> Option<string>, newId: nat -> string, today: string)
    requires Extraction(mode, chunks, host, newId, today).Some?
    ensures var r := Extraction(mode, chunks, host, newId, today).value;
            var w := WebRefs(chunks[..Limit(mode, |chunks|)]);
            |r| == |w| &&
            forall k :: 0 <= k < |r| ==>
              host(w[k].uri).Some? &&
              r[k].url == w[k].uri &&
              r[k].source == StripWww(host(w[k].uri).value) &&
              r[k].title == ArticleTitle(mode, w[k], host(w[k].uri).value) &&
              r[k].category == ModeCategory(mode) &&
              r[k].publishedAt == today
  {
    ExtractionByPositions(mode, chunks, host, newId, today);
  }

  /** Thumbnails are seeded by the chunk position, not by the position in
      the result. The id is `newId` at the chunk position only because
      that is how the random id is supplied to the model. */
  lemma SeedsUseChunkPositions(mode: Mode, chunks: seq<GroundingChunk>,
                               host: string -> Option<string>, newId: nat -> string, today: string)
    requires Extraction(mode, chunks, host, newId, today).Some?
    ensures var r := Extraction(mode, chunks, host, newId, today).value;
            var p := Kept(chunks, Limit(mode, |chunks|));
            |r| == |p| &&
            forall k :: 0 <= k < |r| ==>
              r[k].thumbnail == Thumbnail(p[k], SeedTag(mode)) && r[k].id == newId(p[k])
  {
    ExtractionByPositions(mode, chunks, host, newId, today);
  }

  /** A search has no cap: every web chunk gives one article. */
  lemma SearchKeepsEveryWebChunk(query: string, chunks: seq<GroundingChunk>,
                                 host: string -> Option<string>, newId: nat -> string, today: string)
    requires Extraction(BySearch(query), chunks, host, newId, today).Some?
    ensures |Extraction(BySearch(query), chunks, host, newId, today).value| == |WebRefs(chunks)|
  {
    ArticlesFollowWebChunks(BySearch(query), chunks, host, newId, today);
    assert chunks[..|chunks|] == chunks;
  }

  /** Every article of a result carries the requested category (Latest for a search). */
  lemma NewsCategoryField(mode: Mode, reply: Reply,
                          host: string -> Option<string>, newId: nat -> string, today: string)
    ensures forall k :: 0 <= k < |News(mode, reply, host, newId, today)| ==>
      News(mode, reply, host, newId, today)[k].category == ModeCategory(mode)
  {
    var g := ChunksOf(if reply.ServiceReply? then reply.groundingChunks else None);
    var s := Selection(mode, g, host);
    if reply.ServiceReply? && s.Some? {
    }
  }

  /** A category feed has at most eight articles. */
  lemma CategoryAtMostCap(category: NewsCategory, reply: Reply,
                          host: string -> Option<string>, newId: nat -> string, today: string)
    ensures |News(ByCategory(category), reply, host, newId, today)| <= CategoryCap
  {
    if reply.ServiceReply? {
      var chunks := ChunksOf(reply.groundingChunks);
      var p := Kept(chunks, Limit(ByCategory(category), |chunks|));
      SelectionByPositions(ByCategory(category), chunks, host);
      if PicksOf(chunks, p, host).Some? {
        PicksOfIndex(chunks, p, host);
      }
    }
  }

  /** The first `n` iterations only look at the first `n` chunks. */
  lemma {:induction false} SelectUpToOfPrefix(mode: Mode, chunks: seq<GroundingChunk>, m: nat, n: nat,
                                              host: string -> Option<string>)
    requires n <= m <= |chunks|
    ensures SelectUpTo(mode, chunks[..m], n, host) == SelectUpTo(mode, chunks, n, host)
    decreases n
  {
    if n > 0 {
      SelectUpToOfPrefix(mode, chunks, m, n - 1, host);
      assert chunks[..m][n - 1] == chunks[n - 1];
    }
  }

  /** In a category feed, iterations at position 8 or later change nothing. */
  lemma {:induction false} SelectUpToPastCap(category: NewsCategory, chunks: seq<GroundingChunk>, n: nat,
                                             host: string -> Option<string>)
    requires CategoryCap <= n <= |chunks|
    ensures SelectUpTo(ByCategory(category), chunks, n, host)
         == SelectUpTo(ByCategory(category), chunks, CategoryCap, host)
    decreases n
  {
    if n > CategoryCap {
      SelectUpToPastCap(category, chunks, n - 1, host);
    }
  }

  /** The cap counts chunk positions: nothing at position 8 or later can
      change a category feed, not even a URI that `new URL` rejects. */
  lemma CategoryIgnoresLaterChunks(category: NewsCategory, chunks: seq<GroundingChunk>,
                                   host: string -> Option<string>, newId: nat -> string, today: string)
    requires |chunks| > CategoryCap
    ensures Extraction(ByCategory(category), chunks, host, newId, today)
         == Extraction(ByCategory(category), chunks[..CategoryCap], host, newId, today)
  {
    SelectUpToPastCap(category, chunks, |chunks|, host);
    SelectUpToOfPrefix(ByCategory(category), chunks, CategoryCap, CategoryCap, host);
  }

  /** Eight chunks without a web record push a ninth, valid one out of a
      category feed, while a search over the same chunks keeps it. */
  lemma CapCountsPositionsNotArticles(category: NewsCategory, query: string, chunks: seq<GroundingChunk>,
                                      host: string -> Option<string>, newId: nat -> string, today: string)
    requires |chunks| == CategoryCap + 1
    requires forall i :: 0 <= i < CategoryCap ==> chunks[i].web.None?
    requires chunks[CategoryCap].web.Some? && host(chunks[CategoryCap].web.value.uri).Some?
    ensures News(ByCategory(category), ServiceReply(Some(chunks)), host, newId, today) == []
    ensures |News(BySearch(query), ServiceReply(Some(chunks)), host, newId, today)| == 1
  {
    SelectionByPositions(ByCategory(category), chunks, host);
    SelectionByPositions(BySearch(query), chunks, host);
    KeptNone(chunks, CategoryCap);
    assert Kept(chunks, |chunks|) == [CategoryCap];
    assert [CategoryCap][..0] == [];
  }

  /** No position below `n` has a web record, so none is kept. */
  lemma {:induction false} KeptNone(chunks: seq<GroundingChunk>, n: nat)
    requires n <= |chunks|
    requires forall i :: 0 <= i < n ==> chunks[i].web.None?
    ensures Kept(chunks, n) == []
  {
    if n > 0 {
      KeptNone(chunks, n - 1);
    }
  }

  /** One usable chunk whose URI `new URL` rejects empties the whole result: there
      is never a partial list. */
  lemma UnparsableUriEmptiesResult(mode: Mode, g: Option<seq<GroundingChunk>>, i: nat,
                                   host: string -> Option<string>, newId: nat -> string, today: string)
    requires i < Limit(mode, |ChunksOf(g)|)
    requires ChunksOf(g)[i].web.Some? && host(ChunksOf(g)[i].web.value.uri).None?
    ensures News(mode, ServiceReply(g), host, newId, today) == []
  {
    var chunks := ChunksOf(g);
    SelectionByPositions(mode, chunks, host);
    KeptComplete(chunks, Limit(mode, |chunks|), i);
    PicksOfSome(chunks, Kept(chunks, Limit(mode, |chunks|)), host);
  }

  /** Conversely, when `new URL` accepts every usable web chunk's URI, the loop
      does not throw and each of them gives an article. */
  lemma ParsableUrisKeepEveryChunk(mode: Mode, g: Option<seq<GroundingChunk>>,
                                   host: string -> Option<string>, newId: nat -> string, today: string)
    requires forall i :: 0 <= i < Limit(mode, |ChunksOf(g)|) && ChunksOf(g)[i].web.Some? ==>
      host(ChunksOf(g)[i].web.value.uri).Some?
    ensures Extraction(mode, ChunksOf(g), host, newId, today).Some?
    ensures |News(mode, ServiceReply(g), host, newId, today)|
         == |WebRefs(ChunksOf(g)[..Limit(mode, |ChunksOf(g)|)])|
  {
    var chunks := ChunksOf(g);
    var p := Kept(chunks, Limit(mode, |chunks|));
    SelectionByPositions(mode, chunks, host);
    KeptWebRefs(chunks, Limit(mode, |chunks|));
    PicksOfSome(chunks, p, host);
    PicksOfIndex(chunks, p, host);
  }

  /** A failed service call yields the empty list, like an answer without chunks. */
  lemma ServiceErrorLooksEmpty(mode: Mode, host: string -> Option<string>, newId: nat -> string, today: string)
    ensures News(mode, ServiceError, host, newId, today) == News(mode, ServiceReply(None), host, newId, today) == []
  {
  }

  /** A category title never contains " - ". */
  lemma CategoryTitlesClean(category: NewsCategory, reply: Reply,
                            host: string -> Option<string>, newId: nat -> string, today: string)
    ensures forall k :: 0 <= k < |News(ByCategory(category), reply, host, newId, today)| ==>
      !Contains(News(ByCategory(category), reply, host, newId, today)[k].title, TitleSeparator)
  {
    var g := ChunksOf(if reply.ServiceReply? then reply.groundingChunks else None);
    var s := Selection(ByCategory(category), g, host);
    if reply.ServiceReply? && s.Some? {
    }
  }

  /** The title rule of a category feed, per chunk: the raw title (or the
      fallback) cut just before its first " - ". */
  lemma CategoryTitleRule(category: NewsCategory, web: WebRef, hostname: string)
    ensures var raw := if web.title != "" then web.title else "News from " + hostname;
            var t := ArticleTitle(ByCategory(category), web, hostname);
            t <= raw && !Contains(t, TitleSeparator) &&
            (Contains(raw, TitleSeparator) ==> FirstOccurrence(raw, TitleSeparator, |t|)) &&
            (!Contains(raw, TitleSeparator) ==> t == raw)
  {
  }

  /** A search title is the chunk's title, uncut, or the query when it is empty. */
  lemma SearchTitleRule(query: string, web: WebRef, hostname: string)
    ensures web.title != "" ==> ArticleTitle(BySearch(query), web, hostname) == web.title
    ensures web.title == "" ==> ArticleTitle(BySearch(query), web, hostname) == query
  {
  }

  /** A hostname starting with "www." loses exactly that prefix. */
  lemma SourceOfWwwHost(rest: string)
    ensures StripWww(WwwPrefix + rest) == rest
  {
    var h := WwwPrefix + rest;
    assert OccursAt(h, WwwPrefix, 0);
    var i := IndexOf(h, WwwPrefix).value;
    assert i == 0;
    assert h[4..] == rest;
  }

  /** A hostname without "www." is the source unchanged. */
  lemma SourceOfPlainHost(hostname: string)
    requires !Contains(hostname, WwwPrefix)
    ensures StripWww(hostname) == hostname
  {
  }

  /** Distinct chunk positions give distinct thumbnails for the same tag. */
  lemma ThumbnailInjective(i: nat, j: nat, tag: string)
    ensures Thumbnail(i, tag) == Thumbnail(j, tag) ==> i == j
  {
    var pre := "https://picsum.photos/seed/";
    if Thumbnail(i, tag) == Thumbnail(j, tag) {
      var s := Thumbnail(i, tag);
      var di, dj := DecimalString(i), DecimalString(j);
      assert |di| == |dj|;
      assert s[|pre|..|pre| + |di|] == di;
      assert s[|pre|..|pre| + |dj|] == dj;
      DecimalStringInjective(i, j);
    }
  }

  /** Within one result the thumbnails are pairwise distinct. */
  lemma ThumbnailsDistinct(mode: Mode, chunks: seq<GroundingChunk>,
                           host: string -> Option<string>, newId: nat -> string, today: string)
    requires Extraction(mode, chunks, host, newId, today).Some?
    ensures var r := Extraction(mode, chunks, host, newId, today).value;
            forall k, l :: 0 <= k < l < |r| ==> r[k].thumbnail != r[l].thumbnail
  {
    var r := Extraction(mode, chunks, host, newId, today).value;
    var p := Kept(chunks, Limit(mode, |chunks|));
    SeedsUseChunkPositions(mode, chunks, host, newId, today);
    KeptIncreasing(chunks, Limit(mode, |chunks|));
    forall k, l | 0 <= k < l < |r| ensures r[k].thumbnail != r[l].thumbnail {
      ThumbnailInjective(p[k], p[l], SeedTag(mode));
    }
  }

  /** The extraction of a chunk without a web record followed by one
      with: one article, made at position 1. */
  lemma SkippedChunkExtraction(mode: Mode, web: WebRef,
                               host: string -> Option<string>, newId: nat -> string, today: string)
    requires host(web.uri).Some?
    ensures var r := News(mode, ServiceReply(Some([GroundingChunk(None), GroundingChunk(Some(web))])), host, newId, today);
            r == [MakeArticle(mode, web, 1, host(web.uri).value, newId(1), today)]
  {
    var chunks := [GroundingChunk(None), GroundingChunk(Some(web))];
    var picks := [Pick(1, web, host(web.uri).value)];
    assert SelectUpTo(mode, chunks, 1, host) == Some([]);
    assert Used(mode, chunks, 1) && chunks[1].web.value == web;
    assert [] + picks == picks;
    assert SelectUpTo(mode, chunks, 2, host) == Some(picks);
    assert Articles(Maker(mode, newId, today), picks) == [ArticleOf(mode, picks[0], newId, today)];
  }

  /** A chunk without a web record still advances the seed: the second
      chunk's article is seeded with "1" even when it is the first (and
      only) article. */
  lemma SkippedChunkShiftsSeed(mode: Mode, web: WebRef,
                               host: string -> Option<string>, newId: nat -> string, today: string)
    requires host(web.uri).Some?
    ensures var r := News(mode, ServiceReply(Some([GroundingChunk(None), GroundingChunk(Some(web))])), host, newId, today);
            |r| == 1 && r[0].thumbnail == "https://picsum.photos/seed/1" + SeedTag(mode) + "/800/450" &&
            r[0].id == newId(1)
  {
    SkippedChunkExtraction(mode, web, host, newId, today);
    ThumbnailOfOne(SeedTag(mode));
  }

  /** The seed of position 1 is the text "1" followed by the tag. */
  lemma ThumbnailOfOne(tag: string)
    ensures Thumbnail(1, tag) == "https://picsum.photos/seed/1" + tag + "/800/450"
  {
    assert DecimalString(1) == "1";
  }

  // ---------------------------------------------------------------------
  // The two producers

  /** The `forEach` callback for the chunk at position `index`, given the
      articles pushed so far: skips a chunk without a `web` record (and, for
      a category feed, one at position 8 or later), and otherwise pushes its
      article. None stands for the exception `new URL` throws. */
  method VisitChunk(mode: Mode, chunks: seq<GroundingChunk>, index: nat,
                    host: string -> Option<string>, newId: nat -> string, today: string,
                    articles: seq<NewsArticle>)
    returns (r: Option<seq<NewsArticle>>)
    requires index < |chunks|
    requires ExtractedUpTo(mode, chunks, index, host, newId, today) == Some(articles)
    ensures r == ExtractedUpTo(mode, chunks, index + 1, host, newId, today)
  {
    ghost var picks := SelectUpTo(mode, chunks, index, host).value;
    var chunk := chunks[index];
    if chunk.web.Some? && (mode.ByCategory? ==> index < CategoryCap) {
      var web := chunk.web.value;
      match host(web.uri) {
        case None =>
          return None;
        case Some(hostname) =>
          ArticlesSnoc(Maker(mode, newId, today), picks, Pick(index, web, hostname));
          return Some(articles + [MakeArticle(mode, web, index, hostname, newId(index), today)]);
      }
    }
    return Some(articles);
  }

  /** The `forEach` loop shared by both producers: visits the chunks in
      order and stops at the first exception. */
  method ExtractArticles(mode: Mode, chunks: seq<GroundingChunk>,
                         host: string -> Option<string>, newId: nat -> string, today: string)
    returns (r: Option<seq<NewsArticle>>)
    ensures r == Extraction(mode, chunks, host, newId, today)
  {
    var articles: seq<NewsArticle> := [];
    assert Articles(Maker(mode, newId, today), []) == articles;
    var index := 0;
    while index < |chunks|
      invariant 0 <= index <= |chunks|
      invariant ExtractedUpTo(mode, chunks, index, host, newId, today) == Some(articles)
    {
      var next := VisitChunk(mode, chunks, index, host, newId, today, articles);
      if next.None? {
        FailureIsFinal(mode, chunks, index + 1, |chunks|, host);
        return None;
      }
      articles := next.value;
      index := index + 1;
    }
    return Some(articles);
  }

  /** `fetchNewsByCategory(category)` */
  method FetchNewsByCategory(category: NewsCategory, reply: Reply,
                             host: string -> Option<string>, newId: nat -> string, today: string)
    returns (articles: seq<NewsArticle>)
    ensures articles == News(ByCategory(category), reply, host, newId, today)
    ensures |articles| <= CategoryCap
    ensures forall k :: 0 <= k < |articles| ==> articles[k].category == category
  {
    NewsCategoryField(ByCategory(category), reply, host, newId, today);
    CategoryAtMostCap(category, reply, host, newId, today);
    articles := [];
    if reply.ServiceReply? {
      var r := ExtractArticles(ByCategory(category), ChunksOf(reply.groundingChunks), host, newId, today);
      if r.Some? {
        articles := r.value;
      }
    }
  }

  /** `searchNews(query)` */
  method SearchNews(query: string, reply: Reply,
                    host: string -> Option<string>, newId: nat -> string, today: string)
    returns (articles: seq<NewsArticle>)
    ensures articles == News(BySearch(query), reply, host, newId, today)
    ensures forall k :: 0 <= k < |articles| ==> articles[k].category == Latest
  {
    NewsCategoryField(BySearch(query), reply, host, newId, today);
    articles := [];
    if reply.ServiceReply? {
      var r := ExtractArticles(BySearch(query), ChunksOf(reply.groundingChunks), host, newId, today);
      if r.Some? {
        articles := r.value;
      }
    }
  }
}
