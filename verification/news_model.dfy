/** The stored article document (src/models/News.ts). */
module NewsModel {

  /** One document of the "News" collection. `publishedAt` is kept as the
      text it was built from; `article_id` is the unique key. */
  datatype NewsDocument = NewsDocument(
    article_id: string,
    title: string,
    description: string,
    content: string,
    author: string,
    source: string,
    url: string,
    imageUrl: string,
    publishedAt: string,
    category: string,
    isBreaking: bool,
    isTrending: bool)

  /** The schema's `required: true` fields are all present (a required
      string field rejects the empty string). */
  predicate HasRequiredFields(d: NewsDocument) {
    d.article_id != "" && d.title != "" && d.source != "" &&
    d.url != "" && d.publishedAt != "" && d.category != ""
  }
}
