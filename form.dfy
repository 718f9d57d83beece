/** The case entry form: a draft edited one field at a time, a required-field
    guard on submit, and the submit lifecycle Editing -> Submitting -> Success
    -> Editing. The two timers of the form become explicit events: the submit
    timer firing (`CompleteSubmission`) and the success timer firing
    (`SuccessTimeout`). */
module Form {
  import opened Wrappers
  import opened Types

  /** The form's draft. Unlike `Draft`, its `notes` is always present. */
  datatype FormData = FormData(
    caseName: string,
    fileCode: string,
    legalAidProvider: string,
    successCriterion: string,
    quality: CaseQuality,
    notes: string)

  /** The `name` attributes of the text inputs wired to the change handler. */
  datatype Field = CaseName | FileCode | LegalAidProvider | SuccessCriterion | Notes

  /** The draft the form starts from and returns to after each submission. */
  function InitialFormData(): (f: FormData)
    ensures forall g :: Get(f, g) == ""
    ensures f.quality == Good
  {
    FormData("", "", "", "", Good, "")
  }

  function Get(f: FormData, field: Field): string {
    match field
    case CaseName => f.caseName
    case FileCode => f.fileCode
    case LegalAidProvider => f.legalAidProvider
    case SuccessCriterion => f.successCriterion
    case Notes => f.notes
  }

  /** Two drafts that agree on every text field and on quality are equal, so
      the contracts of `SetField` and `SetQuality` determine their results. */
  lemma FormDataExtensional(a: FormData, b: FormData)
    requires forall g :: Get(a, g) == Get(b, g)
    requires a.quality == b.quality
    ensures a == b
  {
    assert Get(a, CaseName) == Get(b, CaseName);
    assert Get(a, FileCode) == Get(b, FileCode);
    assert Get(a, LegalAidProvider) == Get(b, LegalAidProvider);
    assert Get(a, SuccessCriterion) == Get(b, SuccessCriterion);
    assert Get(a, Notes) == Get(b, Notes);
  }

  /** The change handler: `{ ...prev, [name]: value }`. */
  function SetField(f: FormData, field: Field, value: string): (r: FormData)
    ensures Get(r, field) == value
    ensures forall g :: g != field ==> Get(r, g) == Get(f, g)
    ensures r.quality == f.quality
  {
    match field
    case CaseName => f.(caseName := value)
    case FileCode => f.(fileCode := value)
    case LegalAidProvider => f.(legalAidProvider := value)
    case SuccessCriterion => f.(successCriterion := value)
    case Notes => f.(notes := value)
  }

  /** The radio handler: `{ ...prev, quality: value }`. */
  function SetQuality(f: FormData, q: CaseQuality): (r: FormData)
    ensures r.quality == q
    ensures forall g :: Get(r, g) == Get(f, g)
  {
    f.(quality := q)
  }

  /** The submit guard: each of the four required fields is not the empty
      string. Nothing is trimmed, and `notes` is not required. */
  predicate RequiredFilled(f: FormData) {
    f.caseName != "" && f.fileCode != "" && f.legalAidProvider != "" && f.successCriterion != ""
  }

  /** The guard rejects a draft exactly when a field other than `notes` is empty. */
  lemma RequiredFilledIff(f: FormData)
    ensures RequiredFilled(f) <==> forall g :: g != Notes ==> Get(f, g) != ""
  {
    if !RequiredFilled(f) {
      if f.caseName == "" { assert Get(f, CaseName) == ""; }
      else if f.fileCode == "" { assert Get(f, FileCode) == ""; }
      else if f.legalAidProvider == "" { assert Get(f, LegalAidProvider) == ""; }
      else { assert Get(f, SuccessCriterion) == ""; }
    }
  }

  /** Empty notes never block a submission, and whitespace counts as content. */
  lemma GuardIgnoresNotesAndWhitespace(f: FormData, notes: string, q: CaseQuality)
    ensures RequiredFilled(f.(notes := notes)) == RequiredFilled(f)
    ensures RequiredFilled(FormData(" ", " ", " ", " ", q, ""))
  {
  }

  /** The initial draft never passes the guard. */
  lemma InitialFormDataRejected()
    ensures !RequiredFilled(InitialFormData())
  {
  }

  /** What `onSubmit` receives: the form data, with `notes` present. */
  function ToDraft(f: FormData): Draft {
    Draft(f.caseName, f.fileCode, f.legalAidProvider, f.successCriterion, f.quality, Some(f.notes))
  }

  /** The status the submit button displays: a spinner while submitting,
      the success message while it is shown, the add label otherwise. */
  datatype Phase = Editing | Submitting | ShowingSuccess

  /** The result of pressing submit. `Disabled`: the button is disabled while a
      submission is outstanding, so the press has no effect; `MissingRequired`:
      the guard failed and an alert is shown. */
  datatype SubmitOutcome = Accepted | MissingRequired | Disabled

  class CaseForm {
    var formData: FormData
    var isSubmitting: bool
    var showSuccess: bool
    /** The draft captured by the pending submit timer, if one is pending. */
    var pending: Option<FormData>
    /** How many success timers are scheduled and have not fired yet. */
    var successTimers: nat

    ghost predicate Valid()
      reads this
    {
      && (isSubmitting <==> pending.Some?)
      && (pending.Some? ==> RequiredFilled(pending.value))
      && (showSuccess ==> successTimers > 0)
    }

    function CurrentPhase(): (p: Phase)
      reads this
      ensures p == Submitting <==> isSubmitting
      ensures p == ShowingSuccess <==> !isSubmitting && showSuccess
    {
      if isSubmitting then Submitting else if showSuccess then ShowingSuccess else Editing
    }

    constructor ()
      ensures Valid()
      ensures formData == InitialFormData()
      ensures !isSubmitting && !showSuccess && pending == None && successTimers == 0
    {
      formData := InitialFormData();
      isSubmitting := false;
      showSuccess := false;
      pending := None;
      successTimers := 0;
    }

    /** Typing into one of the text inputs. */
    method HandleChange(field: Field, value: string)
      requires Valid()
      modifies this`formData
      ensures Valid()
      ensures formData == SetField(old(formData), field, value)
    {
      formData := SetField(formData, field, value);
    }

    /** Choosing one of the two quality radio buttons. */
    method HandleRadioChange(q: CaseQuality)
      requires Valid()
      modifies this`formData
      ensures Valid()
      ensures formData == SetQuality(old(formData), q)
    {
      formData := SetQuality(formData, q);
    }

    /** Pressing submit. When accepted, the draft as it is now is captured by
        the submit timer; the form stays editable meanwhile. */
    method HandleSubmit() returns (outcome: SubmitOutcome)
      requires Valid()
      modifies this
      ensures Valid()
      ensures outcome == Disabled <==> old(isSubmitting)
      ensures outcome == MissingRequired <==> !old(isSubmitting) && !RequiredFilled(old(formData))
      ensures outcome != Accepted ==> unchanged(this)
      ensures outcome == Accepted ==>
        && isSubmitting && pending == Some(old(formData))
        && formData == old(formData) && showSuccess == old(showSuccess)
        && successTimers == old(successTimers)
    {
      if isSubmitting {
        return Disabled;
      }
      if !RequiredFilled(formData) {
        return MissingRequired;
      }
      isSubmitting := true;
      pending := Some(formData);
      outcome := Accepted;
    }

    /** The submit timer fires: the captured draft goes to `onSubmit`, the
        form resets, and the success message is shown and its timer started. */
    method CompleteSubmission() returns (submitted: Draft)
      requires Valid() && isSubmitting
      modifies this
      ensures Valid()
      ensures submitted == ToDraft(old(pending).value)
      ensures formData == InitialFormData()
      ensures !isSubmitting && showSuccess && pending == None
      ensures successTimers == old(successTimers) + 1
      ensures CurrentPhase() == ShowingSuccess
    {
      submitted := ToDraft(pending.value);
      formData := InitialFormData();
      isSubmitting := false;
      pending := None;
      showSuccess := true;
      successTimers := successTimers + 1;
    }

    /** A success timer fires: the success message is hidden, nothing else. */
    method SuccessTimeout()
      requires Valid() && successTimers > 0
      modifies this`showSuccess, this`successTimers
      ensures Valid()
      ensures !showSuccess && successTimers == old(successTimers) - 1
      ensures CurrentPhase() == if isSubmitting then Submitting else Editing
    {
      showSuccess := false;
      successTimers := successTimers - 1;
    }
  }

  /** A submission that passes the guard hands over exactly the guarded draft:
      every case the form emits has its four required fields non-empty. */
  lemma SubmittedDraftFilled(f: FormData)
    requires RequiredFilled(f)
    ensures var d := ToDraft(f);
      d.caseName != "" && d.fileCode != "" && d.legalAidProvider != "" && d.successCriterion != ""
  {
  }
}
