/**
 * The scenarios of DocumentManagerTest, replayed on a fresh Store.DocumentManager. Each method
 * states the test's assertions as its postcondition, proved from the contracts of Save,
 * Search and FindById alone.
 */
module Scenarios {
  import opened Wrappers
  import opened Documents
  import opened Store

  function JohnDoe(): Author {
    Author(Some("1"), Some("John Doe"))
  }

  function JaneDoe(): Author {
    Author(Some("2"), Some("Jane Doe"))
  }

  /** testSaveNewDocument: a document saved without id gets an id and a creation time, and keeps its text. */
  method TestSaveNewDocument(token: string, now: Instant) returns (saved: Document)
    ensures saved.id.Some? && saved.created.Some?
    ensures saved.title == Some("Test Document") && saved.content == Some("This is a test document.")
  {
    var manager := new DocumentManager();
    var document := Document(None, Some("Test Document"), Some("This is a test document."), Some(JohnDoe()), None);
    saved := manager.Save(document, token, now);
  }

  /** testUpdateExistingDocument: saving again under the same id applies the new title and content, and keeps the first creation time. */
  method TestUpdateExistingDocument(token: string, now: Instant, later: Instant) returns (saved: Document)
    ensures saved.title == Some("Updated Test Document") && saved.content == Some("Updated content.")
    ensures saved.created == Some(now)
  {
    var manager := new DocumentManager();
    var document := Document(Some("doc_1"), Some("Test Document"), Some("This is a test document."), Some(JohnDoe()), Some(now));
    var _ := manager.Save(document, token, now);
    var updatedDocument := Document(Some("doc_1"), Some("Updated Test Document"), Some("Updated content."), Some(JohnDoe()), Some(later));
    saved := manager.Save(updatedDocument, token, later);
  }

  /** testSearchByAuthor: of two documents, the author filter ["1"] finds only the one by author "1". */
  method TestSearchByAuthor(token: string, now: Instant) returns (result: seq<Document>)
    ensures |result| == 1 && result[0].title == Some("Document 1")
  {
    var manager := new DocumentManager();
    var doc1 := Document(Some("doc_1"), Some("Document 1"), Some("Content 1"), Some(JohnDoe()), Some(now));
    var doc2 := Document(Some("doc_2"), Some("Document 2"), Some("Content 2"), Some(JaneDoe()), Some(now));
    var _ := manager.Save(doc1, token, now);
    var _ := manager.Save(doc2, token, now);
    var request := SearchRequest(None, None, Some(["1"]), None, None);
    result := manager.Search(Some(request));
    assert manager.storage == map["doc_1" := doc1, "doc_2" := doc2];
    assert "2" != "1";
    assert Selected(manager.storage, manager.storage.Keys, Some(request)) == {doc1};
    assert result[0] in multiset(result);
  }

  /** testSearchByCreatedTime: documents from one and two hours ago, lower bound an hour and a half ago: only the first is found. */
  method TestSearchByCreatedTime(token: string, now: Instant) returns (result: seq<Document>)
    ensures |result| == 1 && result[0].title == Some("Document 1")
  {
    var manager := new DocumentManager();
    var doc1 := Document(Some("doc_1"), Some("Document 1"), Some("Content 1"), Some(JohnDoe()), Some(now - 3600));
    var doc2 := Document(Some("doc_2"), Some("Document 2"), Some("Content 2"), Some(JaneDoe()), Some(now - 7200));
    var _ := manager.Save(doc1, token, now);
    var _ := manager.Save(doc2, token, now);
    var request := SearchRequest(None, None, None, Some(now - 5400), None);
    result := manager.Search(Some(request));
    assert manager.storage == map["doc_1" := doc1, "doc_2" := doc2];
    assert Selected(manager.storage, manager.storage.Keys, Some(request)) == {doc1};
    assert result[0] in multiset(result);
  }

  /** testFindByIdFound and testFindByIdNotFound: a saved id is found with its title, an unknown id is not. */
  method TestFindById(token: string, now: Instant) returns (found: Option<Document>, missing: Option<Document>)
    ensures found.Some? && found.value.title == Some("Test Document")
    ensures missing.None?
  {
    var manager := new DocumentManager();
    var document := Document(Some("doc_1"), Some("Test Document"), Some("Content of the test document"), Some(JohnDoe()), Some(now));
    var _ := manager.Save(document, token, now);
    found := manager.FindById("doc_1");
    var empty := new DocumentManager();
    missing := empty.FindById("non_existent_id");
  }
}
