/** The four filters search applies to each stored document (matchesTitle, matchesContent, matchesAuthor, matchesCreationTime). */
module Filters {
  import opened Wrappers
  import opened JavaStrings
  import opened Documents

  /** A filter list that is null or empty imposes no constraint. */
  predicate Inactive(list: Option<seq<string>>) {
    list.None? || list.value == []
  }

  /** Some listed prefix begins the title: the anyMatch over startsWith in matchesTitle. */
  function AnyPrefixOf(title: string, prefixes: seq<string>): (b: bool)
    ensures b <==> exists p :: p in prefixes && p <= title
  {
    if prefixes == [] then false
    else
      assert StartsWith(title, prefixes[0]) <==> prefixes[0] <= title;
      assert prefixes[0] in prefixes;
      assert forall p :: p in prefixes <==> p == prefixes[0] || p in prefixes[1..];
      StartsWith(title, prefixes[0]) || AnyPrefixOf(title, prefixes[1..])
  }

  /** Some listed string occurs in the content: the anyMatch over contains in matchesContent. */
  function AnySubstringOf(content: string, subs: seq<string>): (b: bool)
    ensures b <==> exists c, i :: c in subs && OccursAt(content, c, i)
  {
    if subs == [] then false
    else
      assert subs == [subs[0]] + subs[1..];
      ContainsIffOccurs(content, subs[0]);
      Contains(content, subs[0]) || AnySubstringOf(content, subs[1..])
  }

  /** Of a list of strings, only the empty string occurs in the empty content. */
  lemma OnlyEmptyOccursInEmpty(subs: seq<string>)
    ensures (exists c, i :: c in subs && OccursAt("", c, i)) <==> "" in subs
  {
    forall c | c in subs
      ensures (exists i :: OccursAt("", c, i)) <==> c == ""
    {
      ContainsIffOccurs("", c);
      EmptyContains("", c);
    }
  }

  /** Title filter: with prefixes given, the title must be present and start with one of them. */
  function MatchesTitle(doc: Document, prefixes: Option<seq<string>>): (b: bool)
    ensures Inactive(prefixes) ==> b
    ensures !Inactive(prefixes) && doc.title.None? ==> !b
    ensures !Inactive(prefixes) && doc.title.Some? ==>
              (b <==> exists p :: p in prefixes.value && p <= doc.title.value)
  {
    if Inactive(prefixes) then true
    else
      var title := doc.title;
      title.Some? && AnyPrefixOf(title.value, prefixes.value)
  }

  /** Content filter: a null content is searched as the empty string. */
  function MatchesContent(doc: Document, contents: Option<seq<string>>): (b: bool)
    ensures Inactive(contents) ==> b
    ensures !Inactive(contents) ==>
              (b <==> exists c, i :: c in contents.value && OccursAt(doc.content.GetOr(""), c, i))
    ensures doc.content.None? ==> (b <==> Inactive(contents) || "" in contents.value)
  {
    var content := doc.content.GetOr("");
    if Inactive(contents) then true
    else
      OnlyEmptyOccursInEmpty(contents.value);
      AnySubstringOf(content, contents.value)
  }

  /** Author filter: with ids given, the author and its id must be present and the id listed. */
  function MatchesAuthor(doc: Document, authorIds: Option<seq<string>>): (b: bool)
    ensures Inactive(authorIds) ==> b
    ensures !Inactive(authorIds) && (doc.author.None? || doc.author.value.id.None?) ==> !b
    ensures !Inactive(authorIds) && doc.author.Some? && doc.author.value.id.Some? ==>
              (b <==> doc.author.value.id.value in authorIds.value)
  {
    Inactive(authorIds) ||
    match doc.author
    case None => false
    case Some(author) =>
      match author.id
      case None => false
      case Some(id) => id in authorIds.value
  }

  /** Creation-time filter: created must be present, and both bounds are inclusive. */
  function MatchesCreationTime(doc: Document, from: Option<Instant>, to: Option<Instant>): (b: bool)
    ensures doc.created.None? ==> !b
    ensures doc.created.Some? ==>
              (b <==> (from.None? || from.value <= doc.created.value) && (to.None? || doc.created.value <= to.value))
  {
    match doc.created
    case None => false
    case Some(created) =>
      (from.None? || !IsBefore(created, from.value)) && (to.None? || !IsAfter(created, to.value))
  }

  /** A document passes a request when it passes all four filters. */
  predicate Matches(doc: Document, request: SearchRequest) {
    && MatchesTitle(doc, request.titlePrefixes)
    && MatchesContent(doc, request.containsContents)
    && MatchesAuthor(doc, request.authorIds)
    && MatchesCreationTime(doc, request.createdFrom, request.createdTo)
  }
}
