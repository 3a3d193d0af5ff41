/**
 * The document collection and filter engine of the `useDocuments` hook: the
 * filter predicate, the derived view, the pure updates behind each mutation,
 * and the store object that holds the three state cells.
 */
module Documents {
  import opened Wrappers
  import opened Seqs
  import opened Text
  import opened DocumentTypes

  // ---------------------------------------------------------------------------
  // Filter predicate (applyFilters)
  // ---------------------------------------------------------------------------

  /** `filter.level` is truthy: present (every level literal is non-empty). */
  predicate LevelActive(f: DocumentFilter) {
    f.level.Some?
  }

  /** `filter.subject` is truthy: present and not `''`. */
  predicate SubjectActive(f: DocumentFilter) {
    f.subject.Some? && f.subject.value != ""
  }

  /** `filter.type` is truthy: present (every type literal is non-empty). */
  predicate TypeActive(f: DocumentFilter) {
    f.docType.Some?
  }

  /** `filter.searchQuery && filter.searchQuery.trim() !== ''`. */
  predicate SearchActive(f: DocumentFilter) {
    f.searchQuery.Some? && f.searchQuery.value != "" && Trim(f.searchQuery.value) != ""
  }

  /**
   * The search test for an already lower-cased query: it occurs in the
   * lower-cased title, subject or description; a missing description
   * contributes nothing.
   */
  predicate MatchesQuery(d: Document, query: string) {
    || Includes(Lower(d.title), query)
    || Includes(Lower(d.subject), query)
    || (d.description.Some? && Includes(Lower(d.description.value), query))
  }

  predicate LevelOk(d: Document, f: DocumentFilter) {
    LevelActive(f) ==> d.level == f.level.value
  }

  predicate SubjectOk(d: Document, f: DocumentFilter) {
    SubjectActive(f) ==> d.subject == f.subject.value
  }

  predicate TypeOk(d: Document, f: DocumentFilter) {
    TypeActive(f) ==> d.docType == f.docType.value
  }

  /** The query is lower-cased but not trimmed before the search. */
  predicate SearchOk(d: Document, f: DocumentFilter) {
    SearchActive(f) ==> MatchesQuery(d, Lower(f.searchQuery.value))
  }

  /** A document passes a filter when it meets every active constraint. */
  predicate Matches(d: Document, f: DocumentFilter)
    ensures !LevelActive(f) && !SubjectActive(f) && !TypeActive(f) && !SearchActive(f) ==> Matches(d, f)
  {
    LevelOk(d, f) && SubjectOk(d, f) && TypeOk(d, f) && SearchOk(d, f)
  }

  function MatchesFilter(f: DocumentFilter): Document -> bool {
    (d: Document) => Matches(d, f)
  }

  /**
   * The derived view: the documents that pass the filter, in their order in
   * the collection.
   */
  function Filtered(docs: seq<Document>, f: DocumentFilter): (r: seq<Document>)
    ensures IsSubsequence(r, docs)
    ensures forall d :: d in r <==> d in docs && Matches(d, f)
  {
    KeepIsSubsequence(docs, MatchesFilter(f));
    Keep(docs, MatchesFilter(f))
  }

  /** No constraint is active. */
  predicate Unconstrained(f: DocumentFilter) {
    !LevelActive(f) && !SubjectActive(f) && !TypeActive(f) && !SearchActive(f)
  }

  /**
   * The view holds every copy of a matching document and no copy of any
   * other, so duplicates in the collection are duplicated in the view.
   */
  lemma FilteredMultiplicity(docs: seq<Document>, f: DocumentFilter)
    ensures forall d :: multiset(Filtered(docs, f))[d] == if Matches(d, f) then multiset(docs)[d] else 0
  {
    KeepMultiset(docs, MatchesFilter(f));
  }

  /** Refiltering the view with the same filter returns it unchanged. */
  lemma FilteredIdempotent(docs: seq<Document>, f: DocumentFilter)
    ensures Filtered(Filtered(docs, f), f) == Filtered(docs, f)
  {
    KeepIdempotent(docs, MatchesFilter(f));
  }

  /** With no active constraint the view is the whole collection. */
  lemma FilteredUnconstrained(docs: seq<Document>, f: DocumentFilter)
    requires Unconstrained(f)
    ensures Filtered(docs, f) == docs
  {
    KeepAll(docs, MatchesFilter(f));
  }

  /** The filter `{}` imposes nothing. */
  lemma EmptyFilterUnconstrained()
    ensures Unconstrained(EmptyFilter)
  {
  }

  /**
   * A filter lets every document through exactly when none of its
   * constraints is active: an active constraint always rejects some document.
   */
  lemma {:induction false} UnconstrainedIff(f: DocumentFilter)
    ensures Unconstrained(f) <==> forall d :: Matches(d, f)
  {
    if !Unconstrained(f) {
      var d := Rejected(f);
      assert !Matches(d, f);
    }
  }

  /** A document that fails the first active constraint of `f`. */
  lemma Rejected(f: DocumentFilter) returns (d: Document)
    requires !Unconstrained(f)
    ensures !Matches(d, f)
  {
    if LevelActive(f) {
      d := Document("", "", "", if f.level == Some(S1) then S2 else S1, Course, "", "", "", "", None);
      assert !LevelOk(d, f);
    } else if SubjectActive(f) {
      d := Document("", "", f.subject.value + "x", S1, Course, "", "", "", "", None);
      assert |d.subject| != |f.subject.value|;
      assert !SubjectOk(d, f);
    } else if TypeActive(f) {
      d := Document("", "", "", S1, if f.docType == Some(Course) then Exam else Course, "", "", "", "", None);
      assert !TypeOk(d, f);
    } else {
      d := Document("", "", "", S1, Course, "", "", "", "", None);
      var q := Lower(f.searchQuery.value);
      assert |q| > 0;
      assert Lower("") == "";
      assert !MatchesQuery(d, q);
      assert !SearchOk(d, f);
    }
  }

  /** A `searchQuery` made only of whitespace imposes nothing. */
  lemma BlankQueryImposesNothing(d: Document, f: DocumentFilter)
    requires f.searchQuery.Some?
    requires forall i :: 0 <= i < |f.searchQuery.value| ==> IsWhitespace(f.searchQuery.value[i])
    ensures Matches(d, f) == Matches(d, f.(searchQuery := None))
  {
    TrimEmptyIff(f.searchQuery.value);
  }

  /**
   * The search is a case-insensitive substring test: the lower-cased query
   * occurs at some position of the lower-cased title, subject or description.
   */
  lemma SearchIsSubstring(d: Document, f: DocumentFilter)
    requires SearchActive(f)
    ensures SearchOk(d, f) <==>
      var q := Lower(f.searchQuery.value);
      || (exists i :: 0 <= i <= |Lower(d.title)| && StartsWith(Lower(d.title)[i..], q))
      || (exists i :: 0 <= i <= |Lower(d.subject)| && StartsWith(Lower(d.subject)[i..], q))
      || (d.description.Some? &&
          exists i :: 0 <= i <= |Lower(d.description.value)| &&
            StartsWith(Lower(d.description.value)[i..], q))
  {
    var q := Lower(f.searchQuery.value);
    IncludesIff(Lower(d.title), q);
    IncludesIff(Lower(d.subject), q);
    if d.description.Some? {
      IncludesIff(Lower(d.description.value), q);
    }
  }

  /** Adding a document in front puts it in front of the view exactly when it passes the filter. */
  lemma FilteredPrepend(d: Document, docs: seq<Document>, f: DocumentFilter)
    ensures Filtered([d] + docs, f) == (if Matches(d, f) then [d] else []) + Filtered(docs, f)
  {
    KeepConcat([d], docs, MatchesFilter(f));
  }

  // ---------------------------------------------------------------------------
  // Pure updates behind the mutations
  // ---------------------------------------------------------------------------

  /** A required key of a `Partial<...>` spread over an object. */
  function Override<T>(given: Option<T>, current: T): T {
    if given.Some? then given.value else current
  }

  /** An optional key of a `Partial<...>` spread over an object. */
  function ApplyPatch<T>(p: Patch<T>, current: Option<T>): Option<T> {
    match p
    case Omitted => current
    case Given(v) => v
  }

  /** `{ ...doc, ...updates }`: supplied fields replace, the others are kept. */
  function MergeDocument(d: Document, u: DocumentUpdate): (r: Document)
    ensures u.id.Some? ==> r.id == u.id.value
    ensures u.id.None? ==> r.id == d.id
    ensures u.title.Some? ==> r.title == u.title.value
    ensures u.title.None? ==> r.title == d.title
    ensures u.subject.Some? ==> r.subject == u.subject.value
    ensures u.subject.None? ==> r.subject == d.subject
    ensures u.level.Some? ==> r.level == u.level.value
    ensures u.level.None? ==> r.level == d.level
    ensures u.docType.Some? ==> r.docType == u.docType.value
    ensures u.docType.None? ==> r.docType == d.docType
    ensures u.fileUri.Some? ==> r.fileUri == u.fileUri.value
    ensures u.fileUri.None? ==> r.fileUri == d.fileUri
    ensures u.fileName.Some? ==> r.fileName == u.fileName.value
    ensures u.fileName.None? ==> r.fileName == d.fileName
    ensures u.fileType.Some? ==> r.fileType == u.fileType.value
    ensures u.fileType.None? ==> r.fileType == d.fileType
    ensures u.uploadDate.Some? ==> r.uploadDate == u.uploadDate.value
    ensures u.uploadDate.None? ==> r.uploadDate == d.uploadDate
    ensures u.description.Given? ==> r.description == u.description.value
    ensures u.description.Omitted? ==> r.description == d.description
  {
    Document(
      Override(u.id, d.id),
      Override(u.title, d.title),
      Override(u.subject, d.subject),
      Override(u.level, d.level),
      Override(u.docType, d.docType),
      Override(u.fileUri, d.fileUri),
      Override(u.fileName, d.fileName),
      Override(u.fileType, d.fileType),
      Override(u.uploadDate, d.uploadDate),
      ApplyPatch(u.description, d.description))
  }

  /** Merging `{}` changes nothing. */
  lemma MergeNoChanges(d: Document)
    ensures MergeDocument(d, NoChanges) == d
  {
  }

  /** Merging the same update twice is merging it once. */
  lemma MergeIdempotent(d: Document, u: DocumentUpdate)
    ensures MergeDocument(MergeDocument(d, u), u) == MergeDocument(d, u)
  {
  }

  /** `{ title: x }` changes the title and nothing else. */
  lemma MergeTitleOnly(d: Document, x: string)
    ensures MergeDocument(d, NoChanges.(title := Some(x))) == d.(title := x)
  {
  }

  /** `prev.map(doc => doc.id === id ? { ...doc, ...updates } : doc)`. */
  function UpdateAll(s: seq<Document>, id: string, u: DocumentUpdate): (r: seq<Document>)
    ensures |r| == |s|
    ensures forall i :: 0 <= i < |s| && s[i].id != id ==> r[i] == s[i]
    ensures forall i :: 0 <= i < |s| && s[i].id == id ==> r[i] == MergeDocument(s[i], u)
    decreases |s|
  {
    if s == [] then []
    else [if s[0].id == id then MergeDocument(s[0], u) else s[0]] + UpdateAll(s[1..], id, u)
  }

  /** Updating an id no document has leaves the collection unchanged. */
  lemma UpdateMissingIsNoop(s: seq<Document>, id: string, u: DocumentUpdate)
    requires forall i :: 0 <= i < |s| ==> s[i].id != id
    ensures UpdateAll(s, id, u) == s
  {
  }

  /**
   * An update that keeps the id may be repeated without further effect; one
   * that changes it (the code lets `updates` carry an `id`) does not match
   * again.
   */
  lemma UpdateIdempotent(s: seq<Document>, id: string, u: DocumentUpdate)
    requires u.id.None? || u.id == Some(id)
    ensures UpdateAll(UpdateAll(s, id, u), id, u) == UpdateAll(s, id, u)
  {
    var r := UpdateAll(s, id, u);
    forall i | 0 <= i < |s| ensures UpdateAll(r, id, u)[i] == r[i] {
      MergeIdempotent(s[i], u);
    }
  }

  /** An update that supplies a different id renames every matching document. */
  lemma UpdateCanRename(s: seq<Document>, id: string, u: DocumentUpdate)
    requires u.id.Some? && u.id.value != id
    ensures forall i :: 0 <= i < |s| ==> UpdateAll(s, id, u)[i].id != id
  {
  }

  function HasId(id: string): Document -> bool {
    (d: Document) => d.id == id
  }

  function HasOtherId(id: string): Document -> bool {
    (d: Document) => d.id != id
  }

  /** `prev.filter(doc => doc.id !== id)`. */
  function RemoveId(s: seq<Document>, id: string): (r: seq<Document>)
    ensures IsSubsequence(r, s)
    ensures forall d :: d in r <==> d in s && d.id != id
  {
    KeepIsSubsequence(s, HasOtherId(id));
    Keep(s, HasOtherId(id))
  }

  /** Deleting removes every copy of the documents with the id and keeps every copy of the others. */
  lemma RemoveIdMultiplicity(s: seq<Document>, id: string)
    ensures forall d :: multiset(RemoveId(s, id))[d] == if d.id != id then multiset(s)[d] else 0
  {
    KeepMultiset(s, HasOtherId(id));
  }

  /** A second delete of the same id is a no-op. */
  lemma DeleteTwiceIsNoop(s: seq<Document>, id: string)
    ensures RemoveId(RemoveId(s, id), id) == RemoveId(s, id)
  {
    KeepIdempotent(s, HasOtherId(id));
  }

  /** Deleting an id no document has leaves the collection unchanged. */
  lemma DeleteMissingIsNoop(s: seq<Document>, id: string)
    requires forall d :: d in s ==> d.id != id
    ensures RemoveId(s, id) == s
  {
    KeepAll(s, HasOtherId(id));
  }

  /** Deleting shortens the collection exactly when some document has the id. */
  lemma DeleteShrinksIff(s: seq<Document>, id: string)
    ensures |RemoveId(s, id)| < |s| <==> exists d :: d in s && d.id == id
  {
    KeepLengthIff(s, HasOtherId(id));
  }

  /** `documents.find(doc => doc.id === id)`: the first document with the id, if any. */
  function FindById(s: seq<Document>, id: string): (r: Option<Document>)
    ensures r.None? <==> forall i :: 0 <= i < |s| ==> s[i].id != id
    ensures r.Some? ==>
      (exists k :: 0 <= k < |s| && s[k] == r.value && r.value.id == id &&
         forall j :: 0 <= j < k ==> s[j].id != id)
  {
    Find(s, HasId(id))
  }

  /** A document added in front is what a lookup of its id finds. */
  lemma FindAfterAdd(d: Document, s: seq<Document>)
    ensures FindById([d] + s, d.id) == Some(d)
  {
    var r := FindById([d] + s, d.id);
    var k :| 0 <= k < |[d] + s| && ([d] + s)[k] == r.value && r.value.id == d.id &&
      forall j :: 0 <= j < k ==> ([d] + s)[j].id != d.id;
    assert k == 0;
  }

  /** After a delete, a lookup of that id finds nothing. */
  lemma FindAfterDelete(s: seq<Document>, id: string)
    ensures FindById(RemoveId(s, id), id) == None
  {
    var r := RemoveId(s, id);
    forall i | 0 <= i < |r| ensures r[i].id != id {
      assert r[i] in r;
    }
  }

  /** `{ ...prev, ...newFilter }`: supplied keys overwrite (`undefined` clears), the others are kept. */
  function MergeFilter(f: DocumentFilter, p: FilterUpdate): (r: DocumentFilter)
    ensures p.level.Given? ==> r.level == p.level.value
    ensures p.level.Omitted? ==> r.level == f.level
    ensures p.subject.Given? ==> r.subject == p.subject.value
    ensures p.subject.Omitted? ==> r.subject == f.subject
    ensures p.docType.Given? ==> r.docType == p.docType.value
    ensures p.docType.Omitted? ==> r.docType == f.docType
    ensures p.searchQuery.Given? ==> r.searchQuery == p.searchQuery.value
    ensures p.searchQuery.Omitted? ==> r.searchQuery == f.searchQuery
  {
    DocumentFilter(
      ApplyPatch(p.level, f.level),
      ApplyPatch(p.subject, f.subject),
      ApplyPatch(p.docType, f.docType),
      ApplyPatch(p.searchQuery, f.searchQuery))
  }

  /** Merging `{}` leaves the filter unchanged. */
  lemma MergeFilterNothing(f: DocumentFilter)
    ensures MergeFilter(f, FilterUpdate(Omitted, Omitted, Omitted, Omitted)) == f
  {
  }

  /** Clearing is merging every key as `undefined`. */
  lemma ClearIsMergeOfUndefined(f: DocumentFilter)
    ensures MergeFilter(f, FilterUpdate(Given(None), Given(None), Given(None), Given(None))) == EmptyFilter
  {
  }

  // ---------------------------------------------------------------------------
  // The store: the hook's three state cells
  // ---------------------------------------------------------------------------

  class DocumentStore {
    /** The canonical collection (`allDocuments`). */
    var documents: seq<Document>
    /** The derived view (`documents` in the hook's result). */
    var filteredDocuments: seq<Document>
    var filter: DocumentFilter

    /** The view is the filtered collection. */
    ghost predicate Valid()
      reads this
    {
      filteredDocuments == Filtered(documents, filter)
    }

    /** The initial state: the seed, the empty filter, and the seed as view. */
    constructor (seed: seq<Document>)
      ensures documents == seed && filter == EmptyFilter && filteredDocuments == seed
      ensures Valid()
    {
      documents := seed;
      filteredDocuments := seed;
      filter := EmptyFilter;
      FilteredUnconstrained(seed, EmptyFilter);
    }

    /**
     * Recomputes the view in stages, as `applyFilters` does: level, then
     * subject, then type, then the search, each narrowing the previous stage.
     */
    method ApplyFilters()
      modifies this`filteredDocuments
      ensures filteredDocuments == Filtered(documents, filter)
    {
      var f := filter;
      ghost var upToLevel := (d: Document) => LevelOk(d, f);
      ghost var upToSubject := (d: Document) => LevelOk(d, f) && SubjectOk(d, f);
      ghost var upToType := (d: Document) => LevelOk(d, f) && SubjectOk(d, f) && TypeOk(d, f);

      var filtered := documents;
      if LevelActive(f) {
        var byLevel := (d: Document) => d.level == f.level.value;
        filtered := Keep(filtered, byLevel);
        KeepExt(documents, byLevel, upToLevel);
      } else {
        KeepAll(documents, upToLevel);
      }
      assert filtered == Keep(documents, upToLevel);

      if SubjectActive(f) {
        var bySubject := (d: Document) => d.subject == f.subject.value;
        filtered := Keep(filtered, bySubject);
        KeepKeep(documents, upToLevel, bySubject, upToSubject);
      } else {
        KeepExt(documents, upToLevel, upToSubject);
      }
      assert filtered == Keep(documents, upToSubject);

      if TypeActive(f) {
        var byType := (d: Document) => d.docType == f.docType.value;
        filtered := Keep(filtered, byType);
        KeepKeep(documents, upToSubject, byType, upToType);
      } else {
        KeepExt(documents, upToSubject, upToType);
      }
      assert filtered == Keep(documents, upToType);

      if SearchActive(f) {
        var query := Lower(f.searchQuery.value);
        var bySearch := (d: Document) => MatchesQuery(d, query);
        filtered := Keep(filtered, bySearch);
        KeepKeep(documents, upToType, bySearch, MatchesFilter(f));
      } else {
        KeepExt(documents, upToType, MatchesFilter(f));
      }

      filteredDocuments := filtered;
    }

    /** `documents.find(doc => doc.id === id)`. */
    function GetDocumentById(id: string): (r: Option<Document>)
      reads this
      ensures r.None? <==> forall i :: 0 <= i < |documents| ==> documents[i].id != id
      ensures r.Some? ==> r.value.id == id && r.value in documents
    {
      FindById(documents, id)
    }

    /** Prepends a document; no id check is made. */
    method AddDocument(d: Document)
      modifies this
      ensures documents == [d] + old(documents) && filter == old(filter)
      ensures |documents| == |old(documents)| + 1
      ensures GetDocumentById(d.id) == Some(d)
      ensures Valid()
      ensures old(Valid()) ==>
        filteredDocuments == (if Matches(d, filter) then [d] else []) + old(filteredDocuments)
    {
      documents := [d] + documents;
      ApplyFilters();
      FindAfterAdd(d, old(documents));
      FilteredPrepend(d, old(documents), filter);
    }

    /** Merges `u` into every document with the id; an unknown id changes nothing. */
    method UpdateDocument(id: string, u: DocumentUpdate)
      modifies this
      ensures documents == UpdateAll(old(documents), id, u) && filter == old(filter)
      ensures (forall i :: 0 <= i < |old(documents)| ==> old(documents)[i].id != id) ==>
        documents == old(documents)
      ensures Valid()
    {
      documents := UpdateAll(documents, id, u);
      ApplyFilters();
      if forall i :: 0 <= i < |old(documents)| ==> old(documents)[i].id != id {
        UpdateMissingIsNoop(old(documents), id, u);
      }
    }

    /** Removes every document with the id; an unknown id changes nothing. */
    method DeleteDocument(id: string)
      modifies this
      ensures documents == RemoveId(old(documents), id) && filter == old(filter)
      ensures GetDocumentById(id) == None
      ensures Valid()
    {
      documents := RemoveId(documents, id);
      ApplyFilters();
      FindAfterDelete(old(documents), id);
    }

    /** Merges the supplied keys into the filter. */
    method UpdateFilter(p: FilterUpdate)
      modifies this
      ensures filter == MergeFilter(old(filter), p) && documents == old(documents)
      ensures Valid()
    {
      filter := MergeFilter(filter, p);
      ApplyFilters();
    }

    /** Resets the filter to `{}`; the view is then the whole collection. */
    method ClearFilters()
      modifies this
      ensures filter == EmptyFilter && documents == old(documents)
      ensures filteredDocuments == documents
      ensures Valid()
    {
      filter := EmptyFilter;
      ApplyFilters();
      FilteredUnconstrained(documents, filter);
    }
  }
}
