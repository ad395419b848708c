/**
 * The in-memory document store: class DocumentManager with its id -> Document map, the
 * upsert rule of save, the point lookup findById and the filtering search.
 * UUID.randomUUID() and Instant.now() are passed to Save as the parameters token and now.
 */
module Store {
  import opened Wrappers
  import opened JavaStrings
  import opened Documents
  import opened Filters

  /** ID_PREFIX: every generated id starts with it. */
  const IdPrefix: string := "doc_"

  /** Each stored record sits under its own id; save keeps this true. */
  ghost predicate KeyedById(storage: map<string, Document>) {
    forall k :: k in storage ==> storage[k].id == Some(k)
  }

  /** generateNewDocument: the document with a generated id and creation time, its other fields untouched. */
  function GenerateNewDocument(document: Document, token: string, now: Instant): (r: Document)
    ensures r.id.Some? && StartsWith(r.id.value, IdPrefix) && r.id.value[|IdPrefix|..] == token
    ensures r.created == Some(now)
    ensures r.(id := document.id, created := document.created) == document
  {
    document.(id := Some(IdPrefix + token), created := Some(now))
  }

  /**
   * The record save stores and returns, given the store before the call:
   * a document without id gets a generated id and the current time, a document whose
   * id is stored takes over the stored creation time, any other document is kept as given.
   */
  function Upserted(storage: map<string, Document>, document: Document, token: string, now: Instant): (r: Document)
    ensures r.id.Some?
    ensures r.title == document.title && r.content == document.content && r.author == document.author
    ensures document.id.None? ==> r.id == Some(IdPrefix + token) && r.created == Some(now)
    ensures document.id.Some? && document.id.value in storage ==>
              r.id == document.id && r.created == storage[document.id.value].created
    ensures document.id.Some? && document.id.value !in storage ==> r == document
  {
    if document.id.None? then GenerateNewDocument(document, token, now)
    else
      var id := document.id.value;
      if id in storage then document.(created := storage[id].created) else document
  }

  /** The request selects the document: search(null) selects every document, a request needs all four filters to pass. */
  predicate Selects(request: Option<SearchRequest>, doc: Document) {
    match request
    case None => true
    case Some(r) => Matches(doc, r)
  }

  /** The documents stored under the given keys that the request selects. */
  ghost function Selected(storage: map<string, Document>, keys: set<string>, request: Option<SearchRequest>): set<Document> {
    set k | k in keys && k in storage && Selects(request, storage[k]) :: storage[k]
  }

  /** Visiting one more key adds its document if selected, and that document was not reached before. */
  lemma SelectedStep(storage: map<string, Document>, keys: set<string>, k: string, request: Option<SearchRequest>)
    requires KeyedById(storage)
    requires k in storage && k !in keys
    ensures storage[k] !in Selected(storage, keys, request)
    ensures Selected(storage, keys + {k}, request)
         == Selected(storage, keys, request) + (if Selects(request, storage[k]) then {storage[k]} else {})
  {
  }

  /** Adding a new element to a set adds one occurrence to its multiset. */
  lemma AddFresh(s: set<Document>, d: Document)
    requires d !in s
    ensures multiset(s + {d}) == multiset(s) + multiset{d}
  {
  }

  class DocumentManager {
    var storage: map<string, Document>

    ghost predicate Valid()
      reads this
    {
      KeyedById(storage)
    }

    constructor ()
      ensures Valid() && storage == map[]
    {
      storage := map[];
    }

    /** save: upsert the document and return the record now stored under its id. */
    method Save(document: Document, token: string, now: Instant) returns (saved: Document)
      requires Valid()
      modifies this
      ensures Valid()
      ensures saved == Upserted(old(storage), document, token, now)
      ensures storage == old(storage)[saved.id.value := saved]
      ensures FindById(saved.id.value) == Some(saved)
      ensures forall k :: k != saved.id.value ==> FindById(k) == old(FindById(k))
    {
      var d: Document;
      if document.id.None? {
        d := GenerateNewDocument(document, token, now);
      } else {
        d := UpdateExistingDocument(document);
      }
      storage := storage[d.id.value := d];
      saved := d;
    }

    /** search: the stored documents the request selects, in no particular order, each once. */
    method Search(request: Option<SearchRequest>) returns (result: seq<Document>)
      requires Valid()
      ensures multiset(result) == multiset(Selected(storage, storage.Keys, request))
      ensures request.None? ==> multiset(result) == multiset(storage.Values)
    {
      result := [];
      var remaining := storage.Keys;
      ghost var visited: set<string> := {};
      while remaining != {}
        invariant remaining + visited == storage.Keys && remaining !! visited
        invariant multiset(result) == multiset(Selected(storage, visited, request))
        decreases remaining
      {
        var k :| k in remaining;
        var doc := storage[k];
        var selected := Selects(request, doc);
        SelectedStep(storage, visited, k, request);
        if selected {
          AddFresh(Selected(storage, visited, request), doc);
          result := result + [doc];
        }
        remaining := remaining - {k};
        visited := visited + {k};
      }
      if request.None? {
        SearchNullSelectsAll(storage);
      }
    }

    /** findById: the record stored under id, or nothing. */
    function FindById(id: string): (r: Option<Document>)
      reads this
      ensures r.Some? <==> id in storage
      ensures r.Some? ==> r.value == storage[id]
      ensures Valid() && r.Some? ==> r.value.id == Some(id)
    {
      if id in storage then Some(storage[id]) else None
    }

    /** updateExistingDocument: the document with the creation time of the record stored under its id, if any. */
    method UpdateExistingDocument(document: Document) returns (updated: Document)
      requires document.id.Some?
      ensures updated.id == document.id && updated.title == document.title
      ensures updated.content == document.content && updated.author == document.author
      ensures updated.created == if document.id.value in storage then storage[document.id.value].created else document.created
    {
      if document.id.value !in storage {
        return document;
      }
      var existing := storage[document.id.value];
      updated := document.(created := existing.created);
    }
  }

  /** search(null) returns every stored document. */
  lemma SearchNullSelectsAll(storage: map<string, Document>)
    ensures Selected(storage, storage.Keys, None) == storage.Values
  {
    forall d | d in storage.Values
      ensures d in Selected(storage, storage.Keys, None)
    {
      var k :| k in storage && storage[k] == d;
    }
  }

  /** The creation time recorded under a key survives every save, unless a generated id collides with that key. */
  lemma CreatedNeverOverwritten(storage: map<string, Document>, document: Document, token: string, now: Instant, k: string)
    requires k in storage
    requires document.id.Some? || IdPrefix + token != k
    ensures var saved := Upserted(storage, document, token, now);
            storage[saved.id.value := saved][k].created == storage[k].created
  {
  }

  /** A generated id that collides with a stored key replaces that record, creation time included. */
  lemma GeneratedIdCollisionOverwrites(storage: map<string, Document>, document: Document, token: string, now: Instant)
    requires document.id.None? && IdPrefix + token in storage
    ensures var saved := Upserted(storage, document, token, now);
            storage[saved.id.value := saved][IdPrefix + token].created == Some(now)
  {
  }

  /** Saving the returned record again returns it unchanged and leaves the store as it is. */
  lemma ResaveIsIdempotent(storage: map<string, Document>, document: Document, token: string, now: Instant,
                           token': string, now': Instant)
    ensures var saved := Upserted(storage, document, token, now);
            var after := storage[saved.id.value := saved];
            Upserted(after, saved, token', now') == saved && after[saved.id.value := saved] == after
  {
  }

  /** A record saved under a new caller-chosen id keeps a null creation time. */
  lemma UndatedDocumentIsStored(storage: map<string, Document>, document: Document, token: string, now: Instant)
    requires document.id.Some? && document.id.value !in storage && document.created.None?
    ensures var saved := Upserted(storage, document, token, now);
            storage[saved.id.value := saved][document.id.value].created.None?
  {
  }

  /** A document without creation time is never returned by a search with a request, however empty the request. */
  lemma UndatedNeverSelected(storage: map<string, Document>, request: SearchRequest, doc: Document)
    requires doc.created.None?
    ensures doc !in Selected(storage, storage.Keys, Some(request))
  {
  }

  /** A request with every field null selects exactly the stored documents that have a creation time. */
  lemma EmptyRequestSelectsDated(storage: map<string, Document>)
    ensures Selected(storage, storage.Keys, Some(SearchRequest(None, None, None, None, None)))
         == set d | d in storage.Values && d.created.Some?
  {
    forall d | d in storage.Values && d.created.Some?
      ensures d in Selected(storage, storage.Keys, Some(SearchRequest(None, None, None, None, None)))
    {
      var k :| k in storage && storage[k] == d;
    }
  }
}
