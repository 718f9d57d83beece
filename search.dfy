/** The search filter over the case list: a case is kept when the lower-cased
    search term occurs in the lower-cased name, file code, provider or success
    criterion. Lower-casing is ASCII-only here. */
module Search {
  import opened Wrappers
  import opened Types

  function LowerChar(c: char): char {
    if 'A' <= c <= 'Z' then (c as int + 32) as char else c
  }

  function UpperChar(c: char): char {
    if 'a' <= c <= 'z' then (c as int - 32) as char else c
  }

  /** `s.toLowerCase()`, restricted to ASCII letters. */
  function Lower(s: string): string {
    seq(|s|, i requires 0 <= i < |s| => LowerChar(s[i]))
  }

  /** `s.toUpperCase()`, restricted to ASCII letters. */
  function Upper(s: string): string {
    seq(|s|, i requires 0 <= i < |s| => UpperChar(s[i]))
  }

  /** Lower-casing forgets every difference of letter case, and lower-casing
      twice is lower-casing once. */
  lemma LowerForgetsCase(s: string)
    ensures Lower(Upper(s)) == Lower(s) && Lower(Lower(s)) == Lower(s)
  {
    assert forall i :: 0 <= i < |s| ==> LowerChar(UpperChar(s[i])) == LowerChar(s[i]);
  }

  /** `needle` occurs in `hay` starting at index `i`. */
  predicate OccursAt(hay: string, needle: string, i: int) {
    0 <= i && i + |needle| <= |hay| && hay[i..i + |needle|] == needle
  }

  /** `hay.includes(needle)`, computed by trying each start position in turn. */
  function Includes(hay: string, needle: string): bool
    decreases |hay|
  {
    if |hay| < |needle| then false
    else if needle <= hay then true
    else Includes(hay[1..], needle)
  }

  /** The scan finds an occurrence exactly when there is one. */
  lemma {:induction false} IncludesIff(hay: string, needle: string)
    ensures Includes(hay, needle) <==> exists i :: OccursAt(hay, needle, i)
    decreases |hay|
  {
    if |hay| >= |needle| && needle <= hay {
      assert OccursAt(hay, needle, 0);
    } else if |hay| >= |needle| {
      IncludesIff(hay[1..], needle);
      assert !OccursAt(hay, needle, 0) by {
        assert hay[0..|needle|] == hay[..|needle|];
      }
      if exists j :: OccursAt(hay[1..], needle, j) {
        var j :| OccursAt(hay[1..], needle, j);
        assert hay[j + 1..j + 1 + |needle|] == hay[1..][j..j + |needle|];
        assert OccursAt(hay, needle, j + 1);
      }
      if exists i :: OccursAt(hay, needle, i) {
        var i :| OccursAt(hay, needle, i);
        assert hay[1..][i - 1..i - 1 + |needle|] == hay[i..i + |needle|];
        assert OccursAt(hay[1..], needle, i - 1);
      }
    }
  }

  /** A non-empty needle whose first character never appears in `hay` does
      not occur in it. */
  lemma MissingFirstChar(hay: string, needle: string)
    requires needle != [] && needle[0] !in hay
    ensures !Includes(hay, needle)
  {
    IncludesIff(hay, needle);
    OccurrenceStartsWithFirstChar(hay, needle);
  }

  lemma OccurrenceStartsWithFirstChar(hay: string, needle: string)
    requires needle != []
    ensures forall i :: OccursAt(hay, needle, i) ==> hay[i] == needle[0]
  {
    forall i | OccursAt(hay, needle, i)
      ensures hay[i] == needle[0]
    {
      assert hay[i..i + |needle|][0] == hay[i];
    }
  }

  /** A letter absent from `s` in both cases is absent from `Lower(s)`. */
  lemma LowerKeepsLetterAbsent(s: string, ch: char)
    requires 'a' <= ch <= 'z' && ch !in s && UpperChar(ch) !in s
    ensures ch !in Lower(s)
  {
    forall i | 0 <= i < |s|
      ensures Lower(s)[i] != ch
    {
      assert s[i] != ch && s[i] != UpperChar(ch);
    }
  }

  /** The four searched fields, against an already lower-cased term. */
  predicate MatchesLowered(c: Case, q: string) {
    || Includes(Lower(c.caseName), q)
    || Includes(Lower(c.fileCode), q)
    || Includes(Lower(c.legalAidProvider), q)
    || Includes(Lower(c.successCriterion), q)
  }

  /** A case matches a search term: the lower-cased term occurs in one of its
      four searched fields (so every case matches the empty term). */
  predicate Matches(c: Case, term: string) {
    MatchesLowered(c, Lower(term))
  }

  /** `cases.filter(...)` with the lower-cased term. */
  function KeepMatching(cs: seq<Case>, q: string): seq<Case> {
    if cs == [] then []
    else (if MatchesLowered(cs[0], q) then [cs[0]] else []) + KeepMatching(cs[1..], q)
  }

  /** The filtered case list for a search term; an empty term filters nothing. */
  function Filter(cs: seq<Case>, term: string): seq<Case> {
    if term == "" then cs else KeepMatching(cs, Lower(term))
  }

  /** `a` is `b` with some elements removed, the rest kept in order. */
  predicate IsSubsequence<T(==)>(a: seq<T>, b: seq<T>) {
    || a == []
    || (b != [] && ((a[0] == b[0] && IsSubsequence(a[1..], b[1..])) || IsSubsequence(a, b[1..])))
  }

  lemma {:induction false} SubsequenceNotLonger<T>(a: seq<T>, b: seq<T>)
    requires IsSubsequence(a, b)
    ensures |a| <= |b|
    ensures forall x :: x in a ==> x in b
  {
    if a != [] {
      if a[0] == b[0] && IsSubsequence(a[1..], b[1..]) {
        SubsequenceNotLonger(a[1..], b[1..]);
        assert forall x :: x in a ==> x == a[0] || x in a[1..];
      } else {
        SubsequenceNotLonger(a, b[1..]);
      }
    }
  }

  /** An empty search term shows every case, in the same order. */
  lemma FilterEmptyTerm(cs: seq<Case>)
    ensures Filter(cs, "") == cs
  {
  }

  lemma {:induction false} KeepMatchingIsSubsequence(cs: seq<Case>, q: string)
    ensures IsSubsequence(KeepMatching(cs, q), cs)
  {
    if cs != [] {
      KeepMatchingIsSubsequence(cs[1..], q);
      var rest := KeepMatching(cs[1..], q);
      if MatchesLowered(cs[0], q) {
        assert KeepMatching(cs, q) == [cs[0]] + rest;
        assert ([cs[0]] + rest)[1..] == rest;
      } else {
        assert KeepMatching(cs, q) == rest;
      }
    }
  }

  /** Filtering only removes cases and keeps the order of the rest. */
  lemma FilterIsSubsequence(cs: seq<Case>, term: string)
    ensures IsSubsequence(Filter(cs, term), cs)
    ensures |Filter(cs, term)| <= |cs|
  {
    if term == "" {
      ReflexiveSubsequence(cs);
    } else {
      KeepMatchingIsSubsequence(cs, Lower(term));
    }
    SubsequenceNotLonger(Filter(cs, term), cs);
  }

  lemma {:induction false} ReflexiveSubsequence<T>(s: seq<T>)
    ensures IsSubsequence(s, s)
  {
    if s != [] {
      ReflexiveSubsequence(s[1..]);
    }
  }

  lemma {:induction false} KeepMatchingMembership(cs: seq<Case>, q: string, c: Case)
    ensures c in KeepMatching(cs, q) <==> c in cs && MatchesLowered(c, q)
  {
    if cs != [] {
      KeepMatchingMembership(cs[1..], q, c);
      assert c in cs <==> c == cs[0] || c in cs[1..];
    }
  }

  /** A case is shown exactly when it is stored and the term is empty or
      matches one of its four searched fields. */
  lemma FilterMembership(cs: seq<Case>, term: string, c: Case)
    ensures c in Filter(cs, term) <==> c in cs && (term == "" || Matches(c, term))
  {
    if term != "" {
      KeepMatchingMembership(cs, Lower(term), c);
    }
  }

  /** The same, spelled out field by field as substring occurrences. */
  lemma FilterMembershipByField(cs: seq<Case>, term: string, c: Case)
    requires term != ""
    ensures (c in Filter(cs, term)) <==> (c in cs && (
      || (exists i :: OccursAt(Lower(c.caseName), Lower(term), i))
      || (exists i :: OccursAt(Lower(c.fileCode), Lower(term), i))
      || (exists i :: OccursAt(Lower(c.legalAidProvider), Lower(term), i))
      || (exists i :: OccursAt(Lower(c.successCriterion), Lower(term), i))))
  {
    FilterMembership(cs, term, c);
    IncludesIff(Lower(c.caseName), Lower(term));
    IncludesIff(Lower(c.fileCode), Lower(term));
    IncludesIff(Lower(c.legalAidProvider), Lower(term));
    IncludesIff(Lower(c.successCriterion), Lower(term));
  }

  /** Notes, quality, id and date are never searched. */
  lemma MatchesIgnoresUnsearchedFields(c: Case, term: string, q: CaseQuality, notes: Option<string>, id: string, date: Date)
    ensures Matches(c.(quality := q, notes := notes, id := id, submissionDate := date), term) == Matches(c, term)
  {
  }

  lemma {:induction false} KeepMatchingIdempotent(cs: seq<Case>, q: string)
    ensures KeepMatching(KeepMatching(cs, q), q) == KeepMatching(cs, q)
  {
    if cs != [] {
      KeepMatchingIdempotent(cs[1..], q);
      var rest := KeepMatching(cs[1..], q);
      if MatchesLowered(cs[0], q) {
        assert KeepMatching(cs, q) == [cs[0]] + rest;
        assert ([cs[0]] + rest)[1..] == rest;
        assert KeepMatching([cs[0]] + rest, q) == [cs[0]] + KeepMatching(rest, q);
      } else {
        assert KeepMatching(cs, q) == rest;
      }
    }
  }

  /** Searching the search result again with the same term changes nothing. */
  lemma FilterIdempotent(cs: seq<Case>, term: string)
    ensures Filter(Filter(cs, term), term) == Filter(cs, term)
  {
    if term != "" {
      KeepMatchingIdempotent(cs, Lower(term));
    }
  }

  /** Terms that lower-case to the same string select the same cases. */
  lemma FilterCaseInsensitive(cs: seq<Case>, t1: string, t2: string)
    requires Lower(t1) == Lower(t2)
    ensures Filter(cs, t1) == Filter(cs, t2)
  {
    assert |t1| == |Lower(t1)| == |Lower(t2)| == |t2|;
  }

  /** In particular the upper-cased term finds the same cases. */
  lemma FilterIgnoresTermCase(cs: seq<Case>, term: string)
    ensures Filter(cs, Upper(term)) == Filter(cs, term)
    ensures Filter(cs, Lower(term)) == Filter(cs, term)
  {
    LowerForgetsCase(term);
    FilterCaseInsensitive(cs, Upper(term), term);
    FilterCaseInsensitive(cs, Lower(term), term);
  }

  /** Filtering a list with a case in front filters the rest and keeps the
      new case in front exactly when it is shown. */
  lemma FilterPrepend(c: Case, cs: seq<Case>, term: string)
    ensures Filter([c] + cs, term)
         == (if term == "" || Matches(c, term) then [c] else []) + Filter(cs, term)
  {
    assert ([c] + cs)[1..] == cs;
  }
}
