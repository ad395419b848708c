/**
 * The record types of the store: DocumentManager.Document, .Author and .SearchRequest.
 * They are Lombok @Data classes, so equality is field by field and every field may be null;
 * a nullable field is an Option here.
 */
module Documents {
  import opened Wrappers

  /** java.time.Instant: a point on one time line; the model keeps only its order. */
  type Instant = int

  /** Instant.isBefore: strictly earlier. */
  predicate IsBefore(a: Instant, b: Instant) {
    a < b
  }

  /** Instant.isAfter: strictly later. */
  predicate IsAfter(a: Instant, b: Instant) {
    a > b
  }

  datatype Author = Author(id: Option<string>, name: Option<string>)

  datatype Document = Document(
    id: Option<string>,
    title: Option<string>,
    content: Option<string>,
    author: Option<Author>,
    created: Option<Instant>)

  /** A search request; each list and each bound may be null. */
  datatype SearchRequest = SearchRequest(
    titlePrefixes: Option<seq<string>>,
    containsContents: Option<seq<string>>,
    authorIds: Option<seq<string>>,
    createdFrom: Option<Instant>,
    createdTo: Option<Instant>)
}
