/**
 * Worked examples of the filter engine and the store on concrete documents.
 */
module Scenarios {
  import opened Wrappers
  import opened Text
  import opened DocumentTypes
  import opened Documents

  const Algebra := Document("1", "Algebra Basics", "Math", S1, Course, "", "", "", "", None)
  const MathGeometryExam := Document("2", "Geometry", "Math", S2, Exam, "", "", "", "", None)

  /** Keeping the first of two documents and dropping the second. */
  lemma KeepsFirstOnly(d1: Document, d2: Document, f: DocumentFilter)
    requires Matches(d1, f) && !Matches(d2, f)
    ensures Filtered([d1, d2], f) == [d1]
  {
    FilteredPrepend(d1, [d2], f);
    FilteredPrepend(d2, [], f);
    assert [d1, d2] == [d1] + [d2];
  }

  /** `updateFilter({ subject: 'Math', type: 'course' })` keeps only the Math course. */
  lemma SubjectAndTypeScenario()
    ensures
      var f := MergeFilter(EmptyFilter, FilterUpdate(Omitted, Given(Some("Math")), Given(Some(Course)), Omitted));
      Filtered([Algebra, MathGeometryExam], f) == [Algebra]
  {
    var f := MergeFilter(EmptyFilter, FilterUpdate(Omitted, Given(Some("Math")), Given(Some(Course)), Omitted));
    KeepsFirstOnly(Algebra, MathGeometryExam, f);
  }

  /** A string with no upper-case ASCII letter is its own lower case. */
  lemma LowerOfLowercase(s: string)
    requires forall i :: 0 <= i < |s| ==> !IsUpperAscii(s[i])
    ensures Lower(s) == s
  {
  }

  /** A lower-case query that starts with a non-blank character is an active search for itself. */
  lemma QueryIsActive(f: DocumentFilter, q: string)
    requires f.searchQuery == Some(q) && |q| > 0 && !IsWhitespace(q[0])
    requires forall i :: 0 <= i < |q| ==> !IsUpperAscii(q[i])
    ensures SearchActive(f) && Lower(f.searchQuery.value) == q
  {
    TrimEmptyIff(q);
    LowerOfLowercase(q);
  }

  /** The lower-cased title "algebra basics" starts with "alg". */
  lemma AlgebraMatchesAlg()
    ensures MatchesQuery(Algebra, "alg")
  {
    assert Lower("Algebra Basics")[..3] == "alg";
  }

  /** "math" contains an 'a' but no "alg". */
  lemma MathMissesAlg()
    ensures !Includes(Lower("Math"), "alg")
  {
    var m := Lower("Math");
    assert m == "math";
    IncludesIff(m, "alg");
    forall i | 0 <= i <= |m| ensures !StartsWith(m[i..], "alg") {
      if i == 0 { assert m[0] != 'a'; }
      else if i == 1 { assert m[1..][1] != 'l'; }
    }
  }

  /** Neither "geometry" nor "math" contains "alg". */
  lemma GeometryExamMissesAlg()
    ensures !MatchesQuery(MathGeometryExam, "alg")
  {
    IncludesNeedsFirstChar(Lower("Geometry"), "alg");
    MathMissesAlg();
  }

  /**
   * `updateFilter({ searchQuery: 'alg' })` finds "Algebra Basics" despite the
   * capital letter and drops the Math exam "Geometry", whose lower-cased
   * subject "math" has an 'a' but no "alg"; `updateFilter({ searchQuery: '' })`
   * afterwards shows both again.
   */
  lemma SearchScenario()
    ensures
      var f := MergeFilter(EmptyFilter, FilterUpdate(Omitted, Omitted, Omitted, Given(Some("alg"))));
      && Filtered([Algebra, MathGeometryExam], f) == [Algebra]
      && Filtered([Algebra, MathGeometryExam], MergeFilter(f, FilterUpdate(Omitted, Omitted, Omitted, Given(Some(""))))) ==
         [Algebra, MathGeometryExam]
  {
    var f := MergeFilter(EmptyFilter, FilterUpdate(Omitted, Omitted, Omitted, Given(Some("alg"))));
    QueryIsActive(f, "alg");
    AlgebraMatchesAlg();
    GeometryExamMissesAlg();
    KeepsFirstOnly(Algebra, MathGeometryExam, f);
    FilteredUnconstrained([Algebra, MathGeometryExam], MergeFilter(f, FilterUpdate(Omitted, Omitted, Omitted, Given(Some("")))));
  }

  /** A client of the store: what its contracts let a caller conclude. */
  method StoreWalkthrough()
  {
    var store := new DocumentStore([MathGeometryExam]);
    assert store.filteredDocuments == [MathGeometryExam];
    store.AddDocument(Algebra);
    assert store.documents == [Algebra, MathGeometryExam];
    assert store.GetDocumentById("1") == Some(Algebra);
    store.UpdateFilter(FilterUpdate(Omitted, Given(Some("Math")), Given(Some(Course)), Omitted));
    SubjectAndTypeScenario();
    assert store.filteredDocuments == [Algebra];
    store.DeleteDocument("1");
    assert store.GetDocumentById("1") == None;
    store.ClearFilters();
    assert store.filteredDocuments == store.documents;
  }
}
