/** Optional values and error results, used for the optional `notes` field
    and for operations that can refuse their input. */
module Wrappers {

  datatype Option<+T> = None | Some(value: T) {

    /** The carried value, or `default` when there is none (`x || default`). */
    function GetOr(default: T): T {
      match this
      case Some(v) => v
      case None => default
    }
  }

  datatype Result<+R, +E> = Success(value: R) | Failure(error: E)
}

/** The records of the application: the quality enum and the case record. */
module Types {
  import opened Wrappers

  /** The closed two-valued quality rating. */
  datatype CaseQuality = Good | Fair

  /** The string value each enum member stands for, which is also what the
      list and the export display. */
  function Label(q: CaseQuality): string {
    match q
    case Good => "Tốt"
    case Fair => "Khá"
  }

  /** Reads a label back into the enum; any other string is not a quality. */
  function FromLabel(s: string): (r: Option<CaseQuality>)
    ensures r.Some? ==> Label(r.value) == s
    ensures forall q :: Label(q) == s ==> r == Some(q)
  {
    if s == Label(Good) then Some(Good)
    else if s == Label(Fair) then Some(Fair)
    else None
  }

  /** The two labels differ, so a label identifies its enum member. */
  lemma LabelInjective(p: CaseQuality, q: CaseQuality)
    ensures Label(p) == Label(q) <==> p == q
  {
    if p != q {
      assert Label(p)[0] != Label(q)[0];
    }
  }

  /** A calendar date as the clock reports it: the full year, the 0-based
      month index (0 = January) and the day of the month. */
  datatype Date = Date(year: int, monthIndex: int, day: int)

  predicate ValidDate(d: Date) {
    0 <= d.monthIndex < 12 && 1 <= d.day <= 31
  }

  /** What the form hands over: a case without its `id` and `submissionDate`. */
  datatype Draft = Draft(
    caseName: string,
    fileCode: string,
    legalAidProvider: string,
    successCriterion: string,
    quality: CaseQuality,
    notes: Option<string>)

  /** A stored case. `notes` is the only optional field. */
  datatype Case = Case(
    id: string,
    caseName: string,
    fileCode: string,
    legalAidProvider: string,
    successCriterion: string,
    quality: CaseQuality,
    notes: Option<string>,
    submissionDate: Date)

  /** Forgets the two fields a draft does not have. */
  function DraftOf(c: Case): Draft {
    Draft(c.caseName, c.fileCode, c.legalAidProvider, c.successCriterion, c.quality, c.notes)
  }

  /** A case is exactly its draft part together with `id` and `submissionDate`:
      two cases with the same draft, id and date are the same case. */
  lemma CaseDeterminedByDraft(a: Case, b: Case)
    requires DraftOf(a) == DraftOf(b)
    requires a.id == b.id && a.submissionDate == b.submissionDate
    ensures a == b
  {
  }
}
