# DocumentManager — a verified model of an in-memory document store

The repository is one Java class, `DocumentManager`. It keeps documents in a map from id to
`Document` and offers three operations:

- `save` is an upsert:
  - a document without id gets the id `"doc_" + <random UUID>` and the current time as `created`;
  - a document whose id is already stored takes over the stored record's `created`;
  - any other document is stored as given.
- `findById` is a point lookup returning an `Optional`.
- `search` filters the stored documents. The title prefix, content substring, author id and creation-time filters must all pass.

The model has six modules:

- `Wrappers` (`wrappers.dfy`): `Option`, which stands for Java's nullable references and `Optional`.
- `JavaStrings` (`java_strings.dfy`): `String.startsWith` and `String.contains`. `contains` is proved equal to a reference definition of an occurrence.
- `Documents` (`documents.dfy`): the records `Document`, `Author` and `SearchRequest`. Every nullable field is an `Option`. `Instant` is an `int`.
- `Filters` (`filters.dfy`): `matchesTitle`, `matchesContent`, `matchesAuthor` and `matchesCreationTime` as functions. Their contracts state the vacuous cases and the null quirks.
- `Store` (`document_manager.dfy`): class `DocumentManager` with its field `storage: map<string, Document>`.
  - `Save` and `UpdateExistingDocument` are methods.
  - `FindById` is a function that reads `storage`.
  - `Search` is a method. It visits the keys in an unspecified order. Its result is specified as a multiset.
  - The store invariant `Valid()` says that every record is stored under its own id. The constructor establishes it and `Save` preserves it.
  - Lemmas about the upsert rule and the search specification sit beside the class.
- `Scenarios` (`scenarios.dfy`): the JUnit tests replayed on a fresh store. Each test's assertions are the method's postcondition, proved from the store's contracts alone.
  - `TestUpdateExistingDocument` generalises its test: the second save passes an arbitrary creation time, where the test passes the first one again.
  - It also ensures that the first creation time is kept, as the test's doc comment says, although the test itself asserts only the title and content.

`UUID.randomUUID()` and `Instant.now()` are parameters of `Save` (`token` and `now`).

Two behaviours of the code are easy to miss, and the model keeps both:

- `save` stores a document with a caller-chosen, not yet stored id exactly as given (DocumentManager.java lines 94-95), so a missing `created` stays missing. `Store.UndatedDocumentIsStored` shows this.
- The doc comment of `matchesCreationTime` (DocumentManager.java line 146) says the document matches when no range is given. The code rejects a document without `created` even then (line 155). So `search` with an all-null request returns only the dated documents, while `search(null)` returns all of them. `Store.UndatedNeverSelected`, `Store.EmptyRequestSelectsDated` and `Store.SearchNullSelectsAll` state this.

## Model

| member | source | states |
|---|---|---|
| JavaStrings.ContainsIffOccurs | src/main/java/org/test/task/DocumentManager.java:123-125 | `content.contains(sub)`, as a left-to-right scan, holds exactly when `sub` fills `content[i..i+|sub|]` for some `i` |
| JavaStrings.EmptyContains | src/main/java/org/test/task/DocumentManager.java:123-125 | the empty content contains only the empty string, and every content contains the empty string |
| Filters.AnyPrefixOf | src/main/java/org/test/task/DocumentManager.java:111 | `anyMatch(title::startsWith)` is true iff some listed prefix is a sequence prefix of the title |
| Filters.AnySubstringOf | src/main/java/org/test/task/DocumentManager.java:125 | `anyMatch(content::contains)` is true iff some listed string occurs at some index of the content |
| Filters.OnlyEmptyOccursInEmpty | src/main/java/org/test/task/DocumentManager.java:123-125 | of a list of strings, some member occurs in the empty content (a null content read as "") iff the empty string is listed; derived from `EmptyContains` and `ContainsIffOccurs` |
| Filters.MatchesTitle | src/main/java/org/test/task/DocumentManager.java:108-112 | a null or empty prefix list passes every document; otherwise a null title fails, and a title passes iff one of the prefixes begins it |
| Filters.MatchesContent | src/main/java/org/test/task/DocumentManager.java:122-126 | a null or empty list passes every document; otherwise the content (null read as "") passes iff one listed string occurs in it; a null content passes an active filter iff "" is listed |
| Filters.MatchesAuthor | src/main/java/org/test/task/DocumentManager.java:136-142 | a null or empty id list passes every document; otherwise a missing author or author id fails, and the author passes iff its id is listed |
| Filters.MatchesCreationTime | src/main/java/org/test/task/DocumentManager.java:153-157 | a null `created` always fails, even with no bounds; otherwise it passes iff `from <= created <= to`, both bounds inclusive and each optional |
| Store.GenerateNewDocument | src/main/java/org/test/task/DocumentManager.java:79-84 | the new id starts with "doc_" and the rest is the generated token; `created` is now; title, content and author are untouched |
| Store.Upserted | src/main/java/org/test/task/DocumentManager.java:30-40 | the saved record always has an id. No id: generated id and `created == now`. Stored id: the stored record's `created` whatever the caller passed. New id: the document exactly as given. Title, content and author always come from the argument |
| Store.DocumentManager.constructor | src/main/java/org/test/task/DocumentManager.java:20 | a new manager has an empty store, which satisfies the invariant |
| Store.DocumentManager.Save | src/main/java/org/test/task/DocumentManager.java:30-41 | returns the upserted record and stores it under its id. Every other key keeps its record. `FindById` of the returned id gives the returned record. The invariant is kept |
| Store.DocumentManager.UpdateExistingDocument | src/main/java/org/test/task/DocumentManager.java:93-98 | keeps id, title, content and author of the argument. `created` becomes the stored record's when the id is stored and otherwise stays the argument's |
| Store.DocumentManager.FindById | src/main/java/org/test/task/DocumentManager.java:68-70 | `Some` exactly when the id is stored, holding the stored record. Under the invariant that record carries the asked id |
| Store.DocumentManager.Search | src/main/java/org/test/task/DocumentManager.java:49-60 | the result, as a multiset, is exactly the stored documents the request selects, each once. With a null request it is exactly the multiset of stored values |
| Store.SearchNullSelectsAll | src/main/java/org/test/task/DocumentManager.java:50-52 | a null request selects every stored value |
| Store.UndatedNeverSelected | src/main/java/org/test/task/DocumentManager.java:153-157 | a document without creation time is never selected by a non-null request, whatever its other fields |
| Store.EmptyRequestSelectsDated | src/main/java/org/test/task/DocumentManager.java:54-59 | a request with every field null selects exactly the stored documents that have a creation time |
| Store.CreatedNeverOverwritten | src/main/java/org/test/task/DocumentManager.java:93-97 | a save keeps the creation time recorded under every stored key, unless a generated id collides with that key |
| Store.GeneratedIdCollisionOverwrites | src/main/java/org/test/task/DocumentManager.java:79-84 | a generated id equal to a stored key replaces that record, creation time included: uniqueness rests on the UUID alone |
| Store.ResaveIsIdempotent | src/main/java/org/test/task/DocumentManager.java:30-41 | saving the returned record again returns it unchanged and leaves the store as it was |
| Store.UndatedDocumentIsStored | src/main/java/org/test/task/DocumentManager.java:93-95 | a document saved under a new caller-chosen id without creation time is stored without one |
| Scenarios.TestSaveNewDocument | src/test/java/org/test/task/DocumentManagerTest.java:36-49 | a document saved without id comes back with an id, a creation time, and its title and content |
| Scenarios.TestUpdateExistingDocument | src/test/java/org/test/task/DocumentManagerTest.java:56-79 | the second save under "doc_1" applies the new title and content and keeps the first creation time |
| Scenarios.TestSearchByAuthor | src/test/java/org/test/task/DocumentManagerTest.java:86-114 | the author filter ["1"] over documents by authors "1" and "2" returns one document, "Document 1" |
| Scenarios.TestSearchByCreatedTime | src/test/java/org/test/task/DocumentManagerTest.java:121-150 | the lower bound of 1.5 hours ago, over documents 1 and 2 hours old, returns one document, "Document 1" |
| Scenarios.TestFindById | src/test/java/org/test/task/DocumentManagerTest.java:157-183 | a saved id is found with its title; an unknown id gives an empty result |

## Left out

- Concurrency: the `ConcurrentHashMap` and its per-entry atomicity are not modelled. The store is a plain map used by one caller at a time.
- `UUID.randomUUID()` and `Instant.now()` are not modelled. They are the parameters `token` and `now` of `Save`. The code does not check the generated id against the store, so neither does the model.
- `Instant` is an `int`. Its seconds-and-nanoseconds representation is not modelled; only its order matters to the code.
- Null elements inside a filter list are not modelled. A null prefix or substring makes `startsWith` or `contains` throw `NullPointerException`; the lists are `seq<string>`.
- Null arguments that throw `NullPointerException` are not modelled: `save(null)` (`requireNonNull`) and `findById(null)` (`ConcurrentHashMap.get`). `Document` and `string` values cannot be null.
- Object identity and aliasing are not modelled. `save` returns the same object it stores, and `search` returns a fresh `ArrayList`. Records are values here and are compared field by field, as Lombok's `@Data` equality does.
- The invariant `Valid()` and `Store.CreatedNeverOverwritten` assume that callers do not change a document after saving it. Lombok's `@Data` generates setters. On the new-id path `save` stores the caller's own object (line 95), and on every path it returns the stored object (line 40). So a later `setId` or `setCreated` by the caller changes a stored record in Java.
- Strings that are not well-formed UTF-16 are not modelled. A Java `String` is a sequence of UTF-16 code units, while a Dafny `string` is a sequence of Unicode scalar values. A lone surrogate cannot be represented, and neither can a prefix or substring that splits a surrogate pair. For example, Java's `"\uD83D\uDE00".startsWith("\uD83D")` is true. `JavaStrings.StartsWith` and `JavaStrings.Contains` agree with Java on well-formed strings only.
- Store.DocumentManager.Search: the order of the returned list is not specified, because `storage.values()` has no specified order. The contract states the result as a multiset.
- Lombok's `@Builder` and `toBuilder` are not modelled. They appear as datatype construction and update.
