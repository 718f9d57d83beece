/** The case list view: which placeholder it shows, the expandable items, and
    the spreadsheet export (its guard, its rows and its file name). The
    spreadsheet library itself is outside the model: the export ends with the
    workbook that would be handed to it. */
module CaseList {
  import opened Wrappers
  import opened Types
  import opened Decimal

  /** What the list area shows. */
  datatype ListView =
    | NoReportsYet             // the "no reports yet" placeholder, instead of the whole list card
    | NoResults                // the card with the "no results" message
    | Items(shown: seq<Case>)  // the card with one item per case

  /** The view chosen for the (already filtered) cases and the search term. */
  function View(cases: seq<Case>, searchTerm: string): (v: ListView)
    ensures v == NoReportsYet <==> |cases| == 0 && searchTerm == ""
    ensures v == NoResults <==> |cases| == 0 && searchTerm != ""
    ensures v.Items? ==> |cases| > 0 && v.shown == cases
  {
    if |cases| == 0 && searchTerm == "" then NoReportsYet
    else if |cases| > 0 then Items(cases)
    else NoResults
  }

  /** The export button is enabled exactly when there is something to export. */
  function ExportEnabled(cases: seq<Case>): bool {
    |cases| != 0
  }

  /** `caseItem.notes && ...`: the expand control and the notes panel exist
      only for a case whose notes are present and non-empty. */
  predicate HasDetails(c: Case) {
    c.notes.Some? && c.notes.value != ""
  }

  /** One rendered case with its own expand/collapse flag. */
  class CaseItem {
    const caseItem: Case
    var isExpanded: bool

    constructor (c: Case)
      ensures caseItem == c && !isExpanded
      ensures !NotesVisible()
    {
      caseItem := c;
      isExpanded := false;
    }

    /** Clicking the expand control, which is only there when the case has notes. */
    method Toggle()
      requires HasDetails(caseItem)
      modifies this`isExpanded
      ensures isExpanded == !old(isExpanded)
      ensures NotesVisible() == !old(NotesVisible())
    {
      isExpanded := !isExpanded;
    }

    /** The notes panel is on screen: the case has notes and the item is expanded. */
    predicate NotesVisible()
      reads this
    {
      HasDetails(caseItem) && isExpanded
    }
  }

  /** One spreadsheet row: the seven columns, in the order of the export. */
  datatype Row = Row(
    caseName: string,
    fileCode: string,
    legalAidProvider: string,
    successCriterion: string,
    quality: string,
    notes: string,
    submissionDate: string)

  /** `formatDate` stands for the locale date formatting of the runtime. */
  function ToRow(c: Case, formatDate: Date -> string): Row {
    Row(c.caseName, c.fileCode, c.legalAidProvider, c.successCriterion,
        Label(c.quality), c.notes.GetOr(""), formatDate(c.submissionDate))
  }

  /** A row keeps everything the table shows: two cases give the same row
      exactly when they agree on the four text fields, on quality, on their
      notes with absent notes read as empty, and on their formatted date. */
  lemma RowDeterminesShownFields(a: Case, b: Case, formatDate: Date -> string)
    ensures ToRow(a, formatDate) == ToRow(b, formatDate) <==>
      && a.caseName == b.caseName && a.fileCode == b.fileCode
      && a.legalAidProvider == b.legalAidProvider && a.successCriterion == b.successCriterion
      && a.quality == b.quality && a.notes.GetOr("") == b.notes.GetOr("")
      && formatDate(a.submissionDate) == formatDate(b.submissionDate)
  {
    LabelInjective(a.quality, b.quality);
  }

  /** `cases.map(...)`: one row per case, in the same order. */
  function Rows(cases: seq<Case>, formatDate: Date -> string): (rows: seq<Row>)
    ensures |rows| == |cases|
    ensures forall i :: 0 <= i < |cases| ==> rows[i] == ToRow(cases[i], formatDate)
  {
    if cases == [] then [] else [ToRow(cases[0], formatDate)] + Rows(cases[1..], formatDate)
  }

  /** Every row shows its case's fields verbatim, with absent notes as `""`. */
  lemma RowsShowCases(cases: seq<Case>, formatDate: Date -> string, i: int)
    requires 0 <= i < |cases|
    ensures var r := Rows(cases, formatDate)[i]; var c := cases[i];
      && r.caseName == c.caseName && r.fileCode == c.fileCode
      && r.legalAidProvider == c.legalAidProvider && r.successCriterion == c.successCriterion
      && FromLabel(r.quality) == Some(c.quality)
      && (c.notes == None ==> r.notes == "")
      && (c.notes.Some? ==> r.notes == c.notes.value)
  {
  }

  const FilePrefix: string := "Bao_cao_vu_viec_TGPL_"
  const FileSuffix: string := ".xlsx"
  const SheetName: string := "Danh sách vụ việc"

  /** `year-MM-DD`: month and day zero-padded to two digits, the month
      counted from 1. */
  function DateStamp(today: Date): string {
    JoinStamp(IntToString(today.year), TwoDigitText(today.monthIndex + 1), TwoDigitText(today.day))
  }

  function JoinStamp(year: string, month: string, day: string): string {
    year + "-" + month + "-" + day
  }

  /** The export file name: the date stamp between a fixed prefix and suffix. */
  function FileName(today: Date): string {
    FilePrefix + DateStamp(today) + FileSuffix
  }

  /** Reads year, month (from 1) and day back out of a date stamp. */
  function ParseDateStamp(stamp: string): Option<(int, int, int)> {
    if |stamp| < 6 then None
    else
      var k := |stamp| - 6;
      var month := stamp[k + 1..k + 3];
      var day := stamp[k + 4..];
      if stamp[k] != '-' || stamp[k + 3] != '-' || !AllDigits(month) || !AllDigits(day) then None
      else match ParseInt(stamp[..k])
        case None => None
        case Some(year) => Some((year, DigitsValue(month), DigitsValue(day)))
  }

  /** Reads year, month (from 1) and day back out of an export file name. */
  function ParseFileName(name: string): Option<(int, int, int)> {
    var n := |FilePrefix|;
    var m := |FileSuffix|;
    if |name| < n + m || name[..n] != FilePrefix || name[|name| - m..] != FileSuffix then None
    else ParseDateStamp(name[n..|name| - m])
  }

  lemma StripAffixes(stamp: string)
    ensures ParseFileName(FilePrefix + stamp + FileSuffix) == ParseDateStamp(stamp)
  {
    var name := FilePrefix + stamp + FileSuffix;
    var n := |FilePrefix|;
    var m := |FileSuffix|;
    assert name[..n] == FilePrefix;
    assert name[|name| - m..] == FileSuffix;
    assert name[n..|name| - m] == stamp;
  }

  lemma ParseStampParts(y: string, mm: string, dd: string, year: int, month: int, day: int)
    requires ParseInt(y) == Some(year)
    requires |mm| == 2 && AllDigits(mm) && DigitsValue(mm) == month
    requires |dd| == 2 && AllDigits(dd) && DigitsValue(dd) == day
    ensures ParseDateStamp(JoinStamp(y, mm, dd)) == Some((year, month, day))
  {
    var stamp := y + "-" + mm + "-" + dd;
    var k := |y|;
    assert |stamp| == k + 6;
    assert stamp[..k] == y;
    assert stamp[k] == '-' && stamp[k + 3] == '-';
    assert stamp[k + 1..k + 3] == mm;
    assert stamp[k + 4..] == dd;
  }

  lemma DateStampRoundTrip(today: Date)
    requires ValidDate(today)
    ensures ParseDateStamp(DateStamp(today)) == Some((today.year, today.monthIndex + 1, today.day))
  {
    var y, mm, dd := IntToString(today.year), TwoDigitText(today.monthIndex + 1), TwoDigitText(today.day);
    assert DateStamp(today) == JoinStamp(y, mm, dd);
    IntToStringRoundTrip(today.year);
    TwoDigits(today.monthIndex + 1);
    TwoDigits(today.day);
    ParseStampParts(y, mm, dd, today.year, today.monthIndex + 1, today.day);
  }

  /** The file name carries the export date: parsing it gives back the year,
      the month counted from 1, and the day. */
  lemma FileNameRoundTrip(today: Date)
    requires ValidDate(today)
    ensures ParseFileName(FileName(today)) == Some((today.year, today.monthIndex + 1, today.day))
  {
    StripAffixes(DateStamp(today));
    DateStampRoundTrip(today);
  }

  /** Why an export produced no file. */
  datatype ExportError = NoDataOrLibrary

  /** The seven column titles of the exported sheet, in the order of `Row`'s
      fields: the keys of each exported object, which become the header row. */
  const Headers: seq<string> := [
    "Tên vụ việc", "Mã hồ sơ", "TGV thực hiện", "Tiêu chí thành công",
    "Chất lượng", "Ghi chú", "Ngày báo cáo"]

  /** What the export hands to the spreadsheet library: the sheet name, the
      header row, one row per case, and the file name. */
  datatype Workbook = Workbook(sheetName: string, headers: seq<string>, rows: seq<Row>, fileName: string)

  /** The export action on the cases currently listed. `libraryLoaded` is
      whether the spreadsheet library is present, `today` the clock's date. */
  function HandleExport(cases: seq<Case>, libraryLoaded: bool, today: Date, formatDate: Date -> string)
    : (r: Result<Workbook, ExportError>)
    ensures r.Failure? <==> !libraryLoaded || |cases| == 0
    ensures r.Success? ==> |r.value.rows| == |cases| && r.value.sheetName == SheetName
    ensures r.Success? ==> r.value.headers == Headers
    ensures r.Success? ==> forall i :: 0 <= i < |cases| ==> r.value.rows[i] == ToRow(cases[i], formatDate)
    ensures r.Success? ==> r.value.fileName == FileName(today)
  {
    if !libraryLoaded || |cases| == 0 then Failure(NoDataOrLibrary)
    else Success(Workbook(SheetName, Headers, Rows(cases, formatDate), FileName(today)))
  }

  /** The export button is disabled exactly when pressing it could only fail
      for lack of data. */
  lemma ExportButtonMatchesGuard(cases: seq<Case>, today: Date, formatDate: Date -> string)
    ensures !ExportEnabled(cases) <==> HandleExport(cases, true, today, formatDate).Failure?
  {
  }
}
