/** The records exchanged between the news service and the view: the
    seven news categories, the article shown on a card, and the grounding
    chunk (a web citation) returned by the generative search service. */
module Types {

  datatype Option<+T> = None | Some(value: T)

  /** The seven categories, in the order of their declaration. */
  datatype NewsCategory =
    | Latest | Politics | Economy | Sports | Entertainment | Technology | World

  /** The string value of each enum member; it is what ends up in headings
      and in thumbnail seeds. */
  function CategoryName(c: NewsCategory): (name: string)
    ensures name != [] && 'A' <= name[0] <= 'Z'
  {
    match c
    case Latest => "Latest"
    case Politics => "Politics"
    case Economy => "Economy"
    case Sports => "Sports"
    case Entertainment => "Entertainment"
    case Technology => "Technology"
    case World => "World"
  }

  /** The category whose string value is `name`, if any. */
  function CategoryOf(name: string): Option<NewsCategory> {
    if name == "Latest" then Some(Latest)
    else if name == "Politics" then Some(Politics)
    else if name == "Economy" then Some(Economy)
    else if name == "Sports" then Some(Sports)
    else if name == "Entertainment" then Some(Entertainment)
    else if name == "Technology" then Some(Technology)
    else if name == "World" then Some(World)
    else None
  }

  /** Each string value names its own category back. */
  lemma CategoryOfName(c: NewsCategory)
    ensures CategoryOf(CategoryName(c)) == Some(c)
  {
    match c
    case Latest =>
    case Politics =>
    case Economy =>
    case Sports =>
    case Entertainment =>
    case Technology =>
    case World =>
  }

  /** Distinct categories have distinct string values. */
  lemma CategoryNameInjective(c: NewsCategory, d: NewsCategory)
    ensures CategoryName(c) == CategoryName(d) ==> c == d
  {
    CategoryOfName(c);
    CategoryOfName(d);
  }

  /** A displayed article. `id` and `publishedAt` are produced by a random
      generator and the browser's clock; the model receives them as inputs.
      `thumbnail` is optional in the record type, but both producers always
      set it, so it is a plain string here. */
  datatype NewsArticle = NewsArticle(
    id: string,
    title: string,
    excerpt: string,
    source: string,
    url: string,
    publishedAt: string,
    category: NewsCategory,
    thumbnail: string)

  /** The `web` record of a citation. The title may be empty, and the
      producers treat an empty title like a missing one. */
  datatype WebRef = WebRef(uri: string, title: string)

  /** A citation; `web` is optional. */
  datatype GroundingChunk = GroundingChunk(web: Option<WebRef>)
}
