/**
 * The data model of the document catalogue: the two string-literal unions,
 * the `Document` record and the `DocumentFilter` record, and the
 * `Partial<...>` shapes the update operations take.
 */
module DocumentTypes {
  import opened Wrappers

  /** `'course' | 'practical' | 'exam'`. */
  datatype DocumentType = Course | Practical | Exam

  /** `'S1' | ... | 'S9'`. */
  datatype AcademicLevel = S1 | S2 | S3 | S4 | S5 | S6 | S7 | S8 | S9

  /** The string each document type stands for. */
  function DocumentTypeLiteral(t: DocumentType): string {
    match t
    case Course => "course"
    case Practical => "practical"
    case Exam => "exam"
  }

  /** The string each level stands for. */
  function LevelLiteral(l: AcademicLevel): string {
    match l
    case S1 => "S1" case S2 => "S2" case S3 => "S3"
    case S4 => "S4" case S5 => "S5" case S6 => "S6"
    case S7 => "S7" case S8 => "S8" case S9 => "S9"
  }

  const AllDocumentTypes: seq<DocumentType> := [Course, Practical, Exam]

  const AllLevels: seq<AcademicLevel> := [S1, S2, S3, S4, S5, S6, S7, S8, S9]

  /** There are exactly three document types, with three distinct literals. */
  lemma DocumentTypesExactlyThree()
    ensures |AllDocumentTypes| == 3
    ensures forall t: DocumentType :: t in AllDocumentTypes
    ensures forall i, j :: 0 <= i < j < |AllDocumentTypes| ==>
      DocumentTypeLiteral(AllDocumentTypes[i]) != DocumentTypeLiteral(AllDocumentTypes[j])
  {
    forall t: DocumentType ensures t in AllDocumentTypes {
      match t
      case Course => assert AllDocumentTypes[0] == t;
      case Practical => assert AllDocumentTypes[1] == t;
      case Exam => assert AllDocumentTypes[2] == t;
    }
  }

  /** There are exactly nine levels, S1 to S9, with nine distinct literals. */
  lemma LevelsExactlyNine()
    ensures |AllLevels| == 9
    ensures forall l: AcademicLevel :: l in AllLevels
    ensures forall i, j :: 0 <= i < j < |AllLevels| ==>
      LevelLiteral(AllLevels[i]) != LevelLiteral(AllLevels[j])
  {
    forall l: AcademicLevel ensures l in AllLevels {
      match l
      case S1 => assert AllLevels[0] == l;
      case S2 => assert AllLevels[1] == l;
      case S3 => assert AllLevels[2] == l;
      case S4 => assert AllLevels[3] == l;
      case S5 => assert AllLevels[4] == l;
      case S6 => assert AllLevels[5] == l;
      case S7 => assert AllLevels[6] == l;
      case S8 => assert AllLevels[7] == l;
      case S9 => assert AllLevels[8] == l;
    }
  }

  /**
   * No literal of either union is the empty string, so a present `level` or
   * `type` is always truthy in JavaScript.
   */
  lemma LiteralsAreTruthy(l: AcademicLevel, t: DocumentType)
    ensures LevelLiteral(l) != ""
    ensures DocumentTypeLiteral(t) != ""
  {
  }

  /**
   * One academic resource.  Every field is required except `description`;
   * `subject`, `uploadDate` and the file metadata are unconstrained strings.
   * (The TypeScript field `type` is `docType` here.)
   */
  datatype Document = Document(
    id: string,
    title: string,
    subject: string,
    level: AcademicLevel,
    docType: DocumentType,
    fileUri: string,
    fileName: string,
    fileType: string,
    uploadDate: string,
    description: Option<string>)

  /** The active filter criteria: four optional fields. */
  datatype DocumentFilter = DocumentFilter(
    level: Option<AcademicLevel>,
    subject: Option<string>,
    docType: Option<DocumentType>,
    searchQuery: Option<string>)

  /** The filter `{}`. */
  const EmptyFilter := DocumentFilter(None, None, None, None)

  /**
   * One key of a `Partial<...>` object: left out, or supplied with a value
   * that may itself be `undefined` (`Given(None)`).
   */
  datatype Patch<T> = Omitted | Given(value: Option<T>)

  /**
   * `Partial<Document>`: each required field may be supplied or not; the
   * optional `description` may also be supplied as `undefined`.
   */
  datatype DocumentUpdate = DocumentUpdate(
    id: Option<string>,
    title: Option<string>,
    subject: Option<string>,
    level: Option<AcademicLevel>,
    docType: Option<DocumentType>,
    fileUri: Option<string>,
    fileName: Option<string>,
    fileType: Option<string>,
    uploadDate: Option<string>,
    description: Patch<string>)

  /** The update `{}`. */
  const NoChanges := DocumentUpdate(None, None, None, None, None, None, None, None, None, Omitted)

  /** `Partial<DocumentFilter>`. */
  datatype FilterUpdate = FilterUpdate(
    level: Patch<AcademicLevel>,
    subject: Patch<string>,
    docType: Patch<DocumentType>,
    searchQuery: Patch<string>)
}
