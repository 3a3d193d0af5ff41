/**
 * The filter screen: chip handlers that toggle one constraint each, the
 * Clear All action, and the "has active filters" test that shows it.
 */
module FiltersScreen {
  import opened Wrappers
  import opened DocumentTypes
  import opened Documents
  import Seqs

  /**
   * The handlers' rule `x === current ? undefined : x`: choosing the active
   * value clears the constraint, choosing any other value sets it.
   */
  function Toggle<T(==)>(current: Option<T>, chosen: T): (r: Option<T>)
    ensures r.None? <==> current == Some(chosen)
    ensures r.Some? ==> r.value == chosen
  {
    if current == Some(chosen) then None else Some(chosen)
  }

  /** From "nothing chosen" or from `x` itself, choosing `x` twice restores the start. */
  lemma ToggleTwice<T>(current: Option<T>, x: T)
    requires current.None? || current == Some(x)
    ensures Toggle(Toggle(current, x), x) == current
  {
  }

  /** From another value `y`, choosing `x` twice ends with nothing chosen, not with `y`. */
  lemma ToggleTwiceFromOther<T>(y: T, x: T)
    requires y != x
    ensures Toggle(Toggle(Some(y), x), x) == None
  {
  }

  /** `filter.level || filter.subject || filter.type`; the search query plays no part. */
  predicate HasActiveFilters(f: DocumentFilter)
    ensures !HasActiveFilters(f) ==> forall d :: Matches(d, f) == SearchOk(d, f)
  {
    f.level.Some? || (f.subject.Some? && f.subject.value != "") || f.docType.Some?
  }

  /** The screen's test agrees with the filter engine's own notion of an active constraint. */
  lemma HasActiveFiltersIff(f: DocumentFilter)
    ensures HasActiveFilters(f) <==> LevelActive(f) || SubjectActive(f) || TypeActive(f)
  {
  }

  /**
   * Without an active level, subject or type, only the search query can
   * narrow the view.
   */
  lemma InactiveMeansSearchOnly(docs: seq<Document>, f: DocumentFilter)
    requires !HasActiveFilters(f)
    ensures Filtered(docs, f) == Filtered(docs, EmptyFilter.(searchQuery := f.searchQuery))
  {
    Seqs.KeepExt(docs, MatchesFilter(f), MatchesFilter(EmptyFilter.(searchQuery := f.searchQuery)));
  }

  /** After Clear All nothing is active. */
  lemma ClearedHasNoActiveFilters()
    ensures !HasActiveFilters(EmptyFilter)
  {
  }

  /** The single-key updates the chip handlers send. */
  function LevelUpdate(v: Option<AcademicLevel>): FilterUpdate {
    FilterUpdate(Given(v), Omitted, Omitted, Omitted)
  }

  function SubjectUpdate(v: Option<string>): FilterUpdate {
    FilterUpdate(Omitted, Given(v), Omitted, Omitted)
  }

  function TypeUpdate(v: Option<DocumentType>): FilterUpdate {
    FilterUpdate(Omitted, Omitted, Given(v), Omitted)
  }

  /** Each handler's update changes only its own key; the search query is kept. */
  lemma HandlersTouchOnlyTheirKey(f: DocumentFilter, l: Option<AcademicLevel>, s: Option<string>, t: Option<DocumentType>)
    ensures MergeFilter(f, LevelUpdate(l)) == f.(level := l)
    ensures MergeFilter(f, SubjectUpdate(s)) == f.(subject := s)
    ensures MergeFilter(f, TypeUpdate(t)) == f.(docType := t)
  {
  }

  /** `handleLevelSelect`. */
  method HandleLevelSelect(store: DocumentStore, level: AcademicLevel)
    modifies store
    ensures store.filter == old(store.filter).(level := Toggle(old(store.filter.level), level))
    ensures store.documents == old(store.documents)
    ensures store.Valid()
  {
    store.UpdateFilter(LevelUpdate(Toggle(store.filter.level, level)));
  }

  /** `handleSubjectSelect`. */
  method HandleSubjectSelect(store: DocumentStore, subject: string)
    modifies store
    ensures store.filter == old(store.filter).(subject := Toggle(old(store.filter.subject), subject))
    ensures store.documents == old(store.documents)
    ensures store.Valid()
  {
    store.UpdateFilter(SubjectUpdate(Toggle(store.filter.subject, subject)));
  }

  /** `handleTypeSelect`. */
  method HandleTypeSelect(store: DocumentStore, docType: DocumentType)
    modifies store
    ensures store.filter == old(store.filter).(docType := Toggle(old(store.filter.docType), docType))
    ensures store.documents == old(store.documents)
    ensures store.Valid()
  {
    store.UpdateFilter(TypeUpdate(Toggle(store.filter.docType, docType)));
  }

  /** `handleClearAll`: every key absent, nothing active, the whole collection shown. */
  method HandleClearAll(store: DocumentStore)
    modifies store
    ensures store.filter == EmptyFilter && !HasActiveFilters(store.filter)
    ensures store.documents == old(store.documents)
    ensures store.filteredDocuments == store.documents
    ensures store.Valid()
  {
    store.ClearFilters();
  }
}
