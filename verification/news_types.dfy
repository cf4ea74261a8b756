/** The shared record types of the application (src/types/index.ts). */
module NewsTypes {
  import opened Wrappers

  /** One article as the client store holds it. The optional flags of the
      TypeScript interface are plain booleans here: an absent flag behaves
      exactly like `false` wherever the code tests it. */
  datatype NewsItem = NewsItem(
    id: string,
    title: string,
    description: string,
    content: string,
    author: string,
    source: string,
    url: string,
    imageUrl: string,
    publishedAt: string,
    category: string,
    isBreaking: bool,
    isTrending: bool,
    isNew: bool)

  /** A page of results (`NewsResponse` when `T` is `NewsItem`). */
  datatype Page<T> = Page(items: seq<T>, totalItems: int, page: int, pageSize: int, hasMore: bool)

  type NewsResponse = Page<NewsItem>

  datatype Category = Category(id: string, name: string, slug: string, color: Option<string>, icon: Option<string>)

  datatype Theme = Light | Dark

  /** A user together with the preference lists stored on it. */
  datatype User = User(id: string, name: string, email: string, categories: seq<string>, sources: seq<string>)
}
