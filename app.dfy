/** The top-level application state: the case list (newest first) and the
    search term, the add handler the form submits to, and the filtered list
    the list view receives. */
module App {
  import opened Wrappers
  import opened Types
  import opened Search
  import Form
  import CaseList

  /** `{ ...newCase, id, submissionDate }`. */
  function WithIdentity(d: Draft, id: string, date: Date): (c: Case)
    ensures DraftOf(c) == d
    ensures c.id == id && c.submissionDate == date
  {
    Case(id, d.caseName, d.fileCode, d.legalAidProvider, d.successCriterion, d.quality, d.notes, date)
  }

  /** No two stored cases share an id. */
  predicate UniqueIds(cases: seq<Case>) {
    forall i, j :: 0 <= i < j < |cases| ==> cases[i].id != cases[j].id
  }

  /** `id` is not yet used by any stored case. */
  predicate IdFresh(cases: seq<Case>, id: string) {
    forall i :: 0 <= i < |cases| ==> cases[i].id != id
  }

  /** Prepending a case with a fresh id keeps the ids unique. */
  lemma PrependKeepsIdsUnique(c: Case, cases: seq<Case>)
    requires UniqueIds(cases) && IdFresh(cases, c.id)
    ensures UniqueIds([c] + cases)
  {
    var s := [c] + cases;
    forall i, j | 0 <= i < j < |s|
      ensures s[i].id != s[j].id
    {
      assert s[j] == cases[j - 1];
      if i > 0 {
        assert s[i] == cases[i - 1];
      }
    }
  }

  class CaseStore {
    var cases: seq<Case>
    var searchTerm: string

    ghost predicate Valid()
      reads this
    {
      UniqueIds(cases)
    }

    constructor ()
      ensures Valid()
      ensures cases == [] && searchTerm == ""
    {
      cases := [];
      searchTerm := "";
    }

    /** The add handler: `id` is the freshly generated identifier and `now`
        the clock's date. The new case goes in front; the others stay as
        they were. */
    method AddCase(d: Draft, id: string, now: Date) returns (c: Case)
      requires Valid() && IdFresh(cases, id)
      modifies this`cases
      ensures Valid()
      ensures c == WithIdentity(d, id, now)
      ensures cases == [c] + old(cases)
      ensures |cases| == |old(cases)| + 1 && cases[0] == c && cases[1..] == old(cases)
    {
      c := WithIdentity(d, id, now);
      PrependKeepsIdsUnique(c, cases);
      cases := [c] + cases;
      assert cases[1..] == old(cases);
    }

    /** Typing into the search box. */
    method SetSearchTerm(term: string)
      modifies this`searchTerm
      ensures searchTerm == term
    {
      searchTerm := term;
    }

    /** The list the list view receives: the stored cases that match the
        term, in stored order, or all of them for an empty term. */
    function FilteredCases(): (r: seq<Case>)
      reads this
      ensures IsSubsequence(r, cases) && |r| <= |cases|
      ensures searchTerm == "" ==> r == cases
      ensures forall c :: c in r <==> c in cases && (searchTerm == "" || Matches(c, searchTerm))
    {
      FilterIsSubsequence(cases, searchTerm);
      FilterMembershipAll(cases, searchTerm);
      Filter(cases, searchTerm)
    }
  }

  lemma FilterMembershipAll(cases: seq<Case>, term: string)
    ensures forall c :: c in Filter(cases, term) <==> c in cases && (term == "" || Matches(c, term))
  {
    forall c {
      FilterMembership(cases, term, c);
    }
  }

  /** After an add, the filtered list is the old filtered list with the new
      case in front exactly when the current term shows it. */
  lemma AddThenFilter(d: Draft, id: string, now: Date, cases: seq<Case>, term: string)
    ensures var c := WithIdentity(d, id, now);
      Filter([c] + cases, term)
        == (if term == "" || Matches(c, term) then [c] else []) + Filter(cases, term)
  {
    FilterPrepend(WithIdentity(d, id, now), cases, term);
  }

  /** The example case used by the two search scenarios below. */
  function ExampleCase(id: string, now: Date, q: CaseQuality): Case {
    WithIdentity(Draft("Vu an A", "HS-1", "Nguyen Van X", "Thanh cong", q, None), id, now)
  }

  /** A stored case is found by its file code, in either letter case. */
  lemma ScenarioFoundByFileCode(id: string, now: Date, q: CaseQuality)
    ensures var c := ExampleCase(id, now, q);
      Filter([c], "HS-1") == [c] && Filter([c], "hs-1") == [c]
  {
    var c := ExampleCase(id, now, q);
    assert MatchesLowered(c, "hs-1") by {
      assert Lower(c.fileCode) == "hs-1";
      assert Includes("hs-1", "hs-1");
    }
    assert KeepMatching([c], "hs-1") == [c] by {
      assert [c][1..] == [];
    }
    assert Lower("HS-1") == "hs-1" && Lower("hs-1") == "hs-1";
  }

  /** A field without any `z` or `Z` does not contain "zzz" once lower-cased. */
  lemma NotFoundIn(field: string)
    requires 'z' !in field && 'Z' !in field
    ensures !Includes(Lower(field), "zzz")
  {
    LowerKeepsLetterAbsent(field, 'z');
    MissingFirstChar(Lower(field), "zzz");
  }

  /** A term that occurs in none of the searched fields finds nothing. */
  lemma ScenarioNoMatch(id: string, now: Date, q: CaseQuality)
    ensures Filter([ExampleCase(id, now, q)], "zzz") == []
  {
    var c := ExampleCase(id, now, q);
    assert !MatchesLowered(c, "zzz") by {
      NotFoundIn(c.caseName);
      NotFoundIn(c.fileCode);
      NotFoundIn(c.legalAidProvider);
      NotFoundIn(c.successCriterion);
    }
    assert KeepMatching([c], "zzz") == [] by {
      assert [c][1..] == [];
    }
    assert Lower("zzz") == "zzz";
  }

  /** The list view shows the "no reports yet" placeholder exactly when no
      case is stored and the search box is empty, and "no results" exactly
      when the search term is not empty and no stored case matches it. */
  lemma EmptyStateChoice(cases: seq<Case>, term: string)
    ensures CaseList.View(Filter(cases, term), term) == CaseList.NoReportsYet
      <==> cases == [] && term == ""
    ensures CaseList.View(Filter(cases, term), term) == CaseList.NoResults
      <==> term != "" && forall c :: c in cases ==> !Matches(c, term)
  {
    FilterMembershipAll(cases, term);
    if term != "" && Filter(cases, term) != [] {
      assert Filter(cases, term)[0] in Filter(cases, term);
    }
  }

  /** The submit timer fires and the form's `onSubmit` runs the add handler:
      the draft captured when the submission was accepted becomes the new
      first case, and the form is reset. */
  method DeliverSubmission(form: Form.CaseForm, store: CaseStore, id: string, now: Date)
      returns (c: Case)
    requires form.Valid() && form.isSubmitting
    requires store.Valid() && IdFresh(store.cases, id)
    modifies form, store
    ensures form.Valid() && store.Valid()
    ensures c == WithIdentity(Form.ToDraft(old(form.pending).value), id, now)
    ensures Form.RequiredFilled(old(form.pending).value)
    ensures store.cases == [c] + old(store.cases)
    ensures store.searchTerm == old(store.searchTerm)
    ensures form.formData == Form.InitialFormData() && !form.isSubmitting && form.showSuccess
  {
    var d := form.CompleteSubmission();
    c := store.AddCase(d, id, now);
  }
}
