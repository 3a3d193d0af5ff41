# Document collection and filter engine

A Dafny model of the state hook behind a mobile catalogue of academic
documents (courses, practicals and exams for levels S1 to S9). The model covers
three parts:

- The hook holds the canonical list of documents, the active filter, and the
  filtered view derived from them.
- It offers add, update, delete and lookup on the list, plus merge and clear on
  the filter.
- On the filter screen, each chip toggles one constraint, Clear All resets the
  filter, and a "has active filters" test decides whether Clear All is shown.

Files and modules:

- `wrappers.dfy` (`Wrappers`): `Option`, standing for `T | undefined`.
- `seqs.dfy` (`Seqs`): `Array.prototype.filter` as `Keep`, `Array.prototype.find` as `Find`,
  and the order-preserving `IsSubsequence` relation.
- `text.dfy` (`Text`): `toLowerCase`, `includes` and `trim` on `string`.
- `document_types.dfy` (`DocumentTypes`): the two literal unions, `Document`, `DocumentFilter`,
  and the `Partial<...>` forms `DocumentUpdate` and `FilterUpdate`. A key of a
  `Partial` is `Omitted`, or `Given(v)` where `v` may be `None` (supplied as `undefined`).
- `documents.dfy` (`Documents`): the filter predicate `Matches`, the view `Filtered`, the
  pure updates (`MergeDocument`, `UpdateAll`, `RemoveId`, `FindById`, `MergeFilter`),
  and the class `DocumentStore`. Its fields `documents`, `filteredDocuments` and
  `filter` are the hook's three state cells.
- `filters_screen.dfy` (`FiltersScreen`): the toggle rule, `HasActiveFilters`, and the
  four handlers as methods on a store.
- `scenarios.dfy` (`Scenarios`): worked examples proved on concrete documents.

The TypeScript field `type` is called `docType`, because `type` is a Dafny keyword.

The view is recomputed synchronously: every method that changes the store ends
with `ApplyFilters`. So `Valid()` (view == `Filtered(documents, filter)`) holds
after each one. `ApplyFilters` narrows a local list in four stages, as the hook
does, and is proved equal to the one-pass conjunctive `Filtered`.

What the code does not do is not modelled either:

- The code raises no typed errors.
- `addDocument` does no duplicate-id check and generates no id or date.
- Updating or deleting an unknown id changes nothing.
- An update may overwrite `id`.
- A second delete is a no-op.

## Model

| member | source | states |
|---|---|---|
| `Seqs.Keep` | hooks/useDocuments.ts:19-27 | the kept elements are exactly the input elements satisfying the predicate; the result is no longer than the input |
| `Seqs.KeepConcat` | hooks/useDocuments.ts:19-27 | filtering distributes over concatenation (with `KeepSingleton`, this determines the result entirely) |
| `Seqs.KeepSingleton` | hooks/useDocuments.ts:19-27 | a one-element list keeps its element iff the predicate holds |
| `Seqs.KeepMultiset` | hooks/useDocuments.ts:19-27 | each element's multiplicity in the result is its multiplicity in the input if it satisfies the predicate, and zero otherwise |
| `Seqs.KeepIsSubsequence` | hooks/useDocuments.ts:16-36 | filtering never reorders: the result is a subsequence of the input |
| `Seqs.KeepExt` | hooks/useDocuments.ts:19-27 | predicates agreeing on the input's elements filter alike |
| `Seqs.KeepKeep` | hooks/useDocuments.ts:16-36 | filtering by p and then by q is filtering once by p and q |
| `Seqs.KeepIdempotent` | hooks/useDocuments.ts:16-36 | filtering twice by the same predicate is filtering once |
| `Seqs.KeepAll` | hooks/useDocuments.ts:16 | a predicate true of every element keeps the whole list |
| `Seqs.KeepLengthIff` | hooks/useDocuments.ts:56 | the length is kept iff every element satisfies the predicate |
| `Seqs.Find` | hooks/useDocuments.ts:60 | not-found iff no element satisfies the predicate; otherwise the first satisfying element |
| `Text.Lower` | hooks/useDocuments.ts:31 | `toLowerCase` on ASCII: the length is kept, each `A`-`Z` becomes the letter 32 code points higher (`a`-`z`), and every other character is kept; `LowerShape` and `LowerIdempotent` follow from it |
| `Text.LowerShape` | hooks/useDocuments.ts:31-35 | lower-casing keeps the length and leaves no upper-case ASCII letter |
| `Text.LowerIdempotent` | hooks/useDocuments.ts:31 | lower-casing twice is lower-casing once |
| `Text.Includes` | hooks/useDocuments.ts:33-35 | `s.includes(q)`, defined by its body; its contract says a match needs `q` no longer than `s`, and `IncludesIff` characterises it as substring occurrence |
| `Text.IncludesIff` | hooks/useDocuments.ts:33-35 | `includes` holds iff the query occurs as a contiguous slice at some position |
| `Text.IncludesEmpty` | hooks/useDocuments.ts:33-35 | the empty string occurs in every string |
| `Text.IncludesNeedsFirstChar` | hooks/useDocuments.ts:33-35 | a non-empty query cannot occur in a string lacking its first character |
| `Text.TrimStart` | hooks/useDocuments.ts:30 | the result is the suffix after dropping leading whitespace: what is dropped is all whitespace, and what is left starts with non-whitespace |
| `Text.TrimEnd` | hooks/useDocuments.ts:30 | the same at the end: the prefix after dropping trailing whitespace |
| `Text.Trim` | hooks/useDocuments.ts:30 | `trim()`, defined by its body as `TrimEnd(TrimStart(s))`; its contract says the result is no longer than `s` and neither starts nor ends with whitespace; `TrimEmptyIff` characterises the blank test |
| `Text.TrimEmptyIff` | hooks/useDocuments.ts:30 | `trim()` is `''` iff every character is whitespace |
| `DocumentTypes.DocumentTypesExactlyThree` | types/Document.ts:2 | exactly three document types, course, practical and exam, with distinct literals |
| `DocumentTypes.LevelsExactlyNine` | types/Document.ts:3 | exactly nine levels, S1 to S9, with distinct literals |
| `DocumentTypes.LiteralsAreTruthy` | types/Document.ts:2-3 | no literal is `''`, so a present level or type is truthy |
| `Documents.Matches` | hooks/useDocuments.ts:18-36 | the per-document filter test, defined by its body as the conjunction of the four stage tests; its contract says a filter with no active constraint passes the document; `UnconstrainedIff` and `SearchIsSubstring` characterise it |
| `Documents.Filtered` | hooks/useDocuments.ts:15-40 | the view is a subsequence of the collection; a document is in it iff it is in the collection and meets every active constraint |
| `Documents.FilteredMultiplicity` | hooks/useDocuments.ts:16-36 | each document occurs in the view as often as in the collection if it matches, and not at all otherwise, so identical copies are kept together |
| `Documents.FilteredIdempotent` | hooks/useDocuments.ts:16-36 | refiltering the view with the same filter returns it unchanged |
| `Documents.FilteredUnconstrained` | hooks/useDocuments.ts:18-30 | with no active constraint the view is the whole collection |
| `Documents.EmptyFilterUnconstrained` | hooks/useDocuments.ts:9 | the initial filter `{}` imposes nothing |
| `Documents.UnconstrainedIff` | hooks/useDocuments.ts:18-36 | a filter passes every document iff none of its four constraints is active (falsy level, subject or type; absent, empty or blank query) |
| `Documents.BlankQueryImposesNothing` | hooks/useDocuments.ts:30 | an all-whitespace `searchQuery` filters exactly as no query |
| `Documents.SearchIsSubstring` | hooks/useDocuments.ts:30-36 | with an active query, the search passes iff the lower-cased, untrimmed query occurs in lower(title), lower(subject) or a present lower(description) |
| `Documents.FilteredPrepend` | hooks/useDocuments.ts:44 | prepending a document puts it at the front of the view iff it passes the filter; the rest of the view is unchanged |
| `Documents.MergeDocument` | hooks/useDocuments.ts:50 | every supplied field (including `id`) is replaced; every other field is kept; a `description` supplied as `undefined` is cleared |
| `Documents.MergeNoChanges` | hooks/useDocuments.ts:50 | merging `{}` changes nothing |
| `Documents.MergeIdempotent` | hooks/useDocuments.ts:50 | merging the same update twice is merging it once |
| `Documents.MergeTitleOnly` | hooks/useDocuments.ts:50 | `{ title: x }` changes the title and nothing else |
| `Documents.UpdateAll` | hooks/useDocuments.ts:49-51 | same length and positions; other ids untouched; every document with the id is merged |
| `Documents.UpdateMissingIsNoop` | hooks/useDocuments.ts:49-51 | an unknown id leaves the collection unchanged |
| `Documents.UpdateIdempotent` | hooks/useDocuments.ts:49-51 | an update that keeps the id can be repeated without further effect |
| `Documents.UpdateCanRename` | hooks/useDocuments.ts:50 | an update supplying another id leaves no document with the old id |
| `Documents.RemoveId` | hooks/useDocuments.ts:56 | the result is a subsequence of the collection; a document is in it iff it is in the collection and has another id |
| `Documents.RemoveIdMultiplicity` | hooks/useDocuments.ts:56 | each document with another id keeps all its copies; every copy of a document with the id is removed |
| `Documents.DeleteTwiceIsNoop` | hooks/useDocuments.ts:56 | a second delete of the same id changes nothing |
| `Documents.DeleteMissingIsNoop` | hooks/useDocuments.ts:56 | deleting an unknown id changes nothing |
| `Documents.DeleteShrinksIff` | hooks/useDocuments.ts:56 | the collection shrinks iff some document has the id |
| `Documents.FindById` | hooks/useDocuments.ts:59-61 | not-found iff no document has the id; otherwise the first document with it |
| `Documents.FindAfterAdd` | hooks/useDocuments.ts:44-60 | after prepending `d`, looking up `d.id` finds `d` |
| `Documents.FindAfterDelete` | hooks/useDocuments.ts:56-60 | after deleting an id, looking it up finds nothing |
| `Documents.MergeFilter` | hooks/useDocuments.ts:63-65 | each supplied key is overwritten (`undefined` clears it); each omitted key is kept |
| `Documents.MergeFilterNothing` | hooks/useDocuments.ts:63-65 | merging `{}` leaves the filter unchanged |
| `Documents.ClearIsMergeOfUndefined` | hooks/useDocuments.ts:63-69 | clearing equals merging every key as `undefined` |
| `Documents.DocumentStore.constructor` | hooks/useDocuments.ts:7-9 | initial state: the seed, the filter `{}`, and the seed as view, which is consistent |
| `Documents.DocumentStore.ApplyFilters` | hooks/useDocuments.ts:15-40 | the four-stage narrowing (level, subject, type, search) yields `Filtered(documents, filter)` |
| `Documents.DocumentStore.GetDocumentById` | hooks/useDocuments.ts:59-61 | the store's lookup, defined by its body as `FindById(documents, id)`; not-found iff no document has the id, otherwise a document of the collection with that id (the first, by `FindById`) |
| `Documents.DocumentStore.AddDocument` | hooks/useDocuments.ts:42-45 | documents becomes `[d] + old`, so the length grows by 1; the filter is kept; a lookup of `d.id` finds `d`; the view gains `d` in front iff `d` matches |
| `Documents.DocumentStore.UpdateDocument` | hooks/useDocuments.ts:47-52 | documents becomes `UpdateAll(old, id, u)`; an unknown id changes nothing; the filter is kept; the view is consistent |
| `Documents.DocumentStore.DeleteDocument` | hooks/useDocuments.ts:54-57 | documents becomes `RemoveId(old, id)`; a lookup of the id then finds nothing; the filter is kept |
| `Documents.DocumentStore.UpdateFilter` | hooks/useDocuments.ts:63-65 | the filter becomes `MergeFilter(old, p)`; the documents are kept; the view is consistent |
| `Documents.DocumentStore.ClearFilters` | hooks/useDocuments.ts:67-69 | the filter becomes `{}` and the view is the whole collection |
| `FiltersScreen.Toggle` | app/filters.tsx:17-27 | the result is cleared iff the chosen value is the active one; otherwise it is the chosen value |
| `FiltersScreen.ToggleTwice` | app/filters.tsx:18 | from no value or from `x`, choosing `x` twice restores the start |
| `FiltersScreen.ToggleTwiceFromOther` | app/filters.tsx:18 | from another value `y`, choosing `x` twice ends with nothing chosen, not with `y` |
| `FiltersScreen.HasActiveFilters` | app/filters.tsx:33 | true when `filter.level`, `filter.subject` or `filter.type` is truthy, defined by its body; its contract says that when it is false only the search test decides a match; `HasActiveFiltersIff` characterises it |
| `FiltersScreen.HasActiveFiltersIff` | app/filters.tsx:33 | active filters iff level, subject or type is truthy, as the engine defines it; the search query is ignored |
| `FiltersScreen.InactiveMeansSearchOnly` | app/filters.tsx:33 | without an active level, subject or type, the view is what the search query alone selects |
| `FiltersScreen.ClearedHasNoActiveFilters` | app/filters.tsx:29-33 | after Clear All nothing is active |
| `FiltersScreen.HandlersTouchOnlyTheirKey` | app/filters.tsx:18-26 | each handler's single-key update changes only its own field; the other three, including `searchQuery`, are kept |
| `FiltersScreen.HandleLevelSelect` | app/filters.tsx:17-19 | the level is toggled; the other filter fields and the documents are kept; the view is consistent |
| `FiltersScreen.HandleSubjectSelect` | app/filters.tsx:21-23 | the same toggle for the subject |
| `FiltersScreen.HandleTypeSelect` | app/filters.tsx:25-27 | the same toggle for the type |
| `FiltersScreen.HandleClearAll` | app/filters.tsx:29-31 | every field is absent, nothing is active, and the view is the whole collection |
| `Scenarios.SubjectAndTypeScenario` | hooks/useDocuments.ts:22-28 | subject "Math" with type course keeps only the Math course of two Math documents |
| `Scenarios.SearchScenario` | hooks/useDocuments.ts:30-36 | the query "alg" keeps "Algebra Basics" and drops the Math exam "Geometry", whose lower-cased subject "math" contains an `a` but not "alg"; an empty query afterwards restores both |

## Left out

- Rendering is not modelled: the JSX, styles, theme, glass effects, icons and `router.back` navigation of the filter screen.
- app/admin.tsx is not part of this model. Its login is a fixed string comparison, its upload only shows an alert and never reaches the store, and its file picking is a stub.
- The `console.log` calls in add, update and delete are pure output and are dropped.
- React scheduling is not modelled. `useState` and `useEffect` are replaced by a synchronous `ApplyFilters` at the end of every method. The moment when the hook's view is stale, between a state update and the effect, does not exist in the model.
- Each `useDocuments()` call owns its own state. The filter handlers here take the store they act on; no sharing between screens is modelled.
- The `mockDocuments` seed is the constructor's parameter. The `levels`, `subjects` and `documentTypes` chip catalogues come from the same file, which is not part of this model.
- Text.Lower: the JavaScript runtime's full Unicode `toLowerCase` is reduced to mapping ASCII `A`-`Z` to `a`-`z`. Strings are sequences of Unicode scalar values, not UTF-16 code units.
- FiltersScreen.HandleLevelSelect: the handler receives a `string` and casts it with `as any`. The model takes an `AcademicLevel`, and `HandleTypeSelect` likewise takes a `DocumentType`.
- Documents.MergeDocument: `Partial<Document>` also admits supplying `undefined` for a required field, which would leave an ill-typed document. Only the optional `description` can be supplied as `undefined` here.
- The code has no duplicate-id, not-found, immutable-id or validation errors, and generates no ids or upload dates; the model has none either.
- The home screen's search box feeds `updateFilter({ searchQuery })`. It lives outside the core, so only `UpdateFilter` itself is modelled.
