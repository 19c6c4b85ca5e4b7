/** The admin applications inbox: the search filter, the status counters,
    the status badge style and the applicant's initials. */
module ApplicationInbox {
  import opened Common
  import opened Text
  import opened Lists

  /** An application row as the inbox reads it; a field may be missing. */
  datatype Application = Application(
    firstName: Option<string>,
    lastName: Option<string>,
    email: Option<string>,
    sourceType: Option<string>,
    status: Option<string>)

  /** `field?.toLowerCase().includes(q)`: a missing field never matches. */
  predicate FieldMatches(field: Option<string>, q: string)
  {
    field.Some? && Contains(Lower(field.value), q)
  }

  /** The test of `filteredApplications` for the search term `term`. */
  predicate Matches(a: Application, term: string)
  {
    var q := Lower(term);
    FieldMatches(a.firstName, q) || FieldMatches(a.lastName, q)
    || FieldMatches(a.email, q) || FieldMatches(a.sourceType, q)
  }

  /** `filteredApplications`. */
  function Filtered(apps: seq<Application>, term: string): seq<Application>
  {
    Filter(apps, a => Matches(a, term))
  }

  predicate HasSearchField(a: Application)
  {
    a.firstName.Some? || a.lastName.Some? || a.email.Some? || a.sourceType.Some?
  }

  predicate IsPending(a: Application)
  {
    a.status == Some("new") || a.status == Some("reviewing")
  }

  predicate IsAccepted(a: Application)
  {
    a.status == Some("accepted")
  }

  function PendingCount(apps: seq<Application>): nat
  {
    |Filter(apps, IsPending)|
  }

  function AcceptedCount(apps: seq<Application>): nat
  {
    |Filter(apps, IsAccepted)|
  }

  const NEW_STYLE: string := "bg-primary/10 text-primary"
  const REVIEWING_STYLE: string := "bg-amber-50 dark:bg-amber-900/20 text-amber-600 dark:text-amber-400"
  const ACCEPTED_STYLE: string := "bg-emerald-50 dark:bg-emerald-900/20 text-emerald-600 dark:text-emerald-400"
  const REJECTED_STYLE: string := "bg-rose-50 dark:bg-rose-900/20 text-rose-600 dark:text-rose-400"
  const DEFAULT_STYLE: string := "bg-slate-100 dark:bg-slate-800 text-slate-600 dark:text-slate-400"

  /** `getStatusStyle`. */
  function StatusStyle(status: string): string
  {
    match status
    case "new" => NEW_STYLE
    case "reviewing" => REVIEWING_STYLE
    case "accepted" => ACCEPTED_STYLE
    case "rejected" => REJECTED_STYLE
    case _ => DEFAULT_STYLE
  }

  /** `name?.[0] || ''`. */
  function FirstChar(name: Option<string>): string
  {
    if name.Some? && name.value != "" then [name.value[0]] else ""
  }

  /** `getInitials`. */
  function Initials(first: Option<string>, last: Option<string>): string
  {
    OrElse(Upper(FirstChar(first) + FirstChar(last)), "??")
  }

  // ---- Properties ----

  /** The filtered list is an order-preserving sub-list of the applications
      and holds exactly the applications that match the term. */
  lemma FilteredSpec(apps: seq<Application>, term: string)
    ensures IsSubsequence(Filtered(apps, term), apps)
    ensures forall a :: a in Filtered(apps, term) <==> a in apps && Matches(a, term)
  {
    forall a
      ensures a in Filtered(apps, term) <==> a in apps && Matches(a, term)
    {
      FilterMembers(apps, b => Matches(b, term), a);
    }
  }

  /** The empty search term keeps exactly the applications that have at
      least one of the four searched fields. */
  lemma EmptyTermKeepsPresent(apps: seq<Application>)
    ensures Filtered(apps, "") == Filter(apps, HasSearchField)
  {
    forall k | 0 <= k < |apps|
      ensures Matches(apps[k], "") <==> HasSearchField(apps[k])
    {
      var a := apps[k];
      assert Lower("") == "";
      if a.firstName.Some? { ContainsEmpty(Lower(a.firstName.value)); }
      if a.lastName.Some? { ContainsEmpty(Lower(a.lastName.value)); }
      if a.email.Some? { ContainsEmpty(Lower(a.email.value)); }
      if a.sourceType.Some? { ContainsEmpty(Lower(a.sourceType.value)); }
    }
    FilterAgree(apps, a => Matches(a, ""), HasSearchField);
  }

  /** The search ignores the case of the term. */
  lemma SearchIgnoresCase(apps: seq<Application>, term: string)
    ensures Filtered(apps, Upper(term)) == Filtered(apps, term)
    ensures Filtered(apps, Lower(term)) == Filtered(apps, term)
  {
    LowerOfUpper(term);
    LowerIdempotent(term);
    FilterAgree(apps, a => Matches(a, Upper(term)), a => Matches(a, term));
    FilterAgree(apps, a => Matches(a, Lower(term)), a => Matches(a, term));
  }

  /** No application is both pending and accepted, so the two counters
      never exceed the number of applications. */
  lemma CountsBounded(apps: seq<Application>)
    ensures PendingCount(apps) + AcceptedCount(apps) <= |apps|
  {
    DisjointCounts(apps, IsPending, IsAccepted);
  }

  /** The four known statuses have four different styles, none of them the
      default, and every other status gets the default. */
  lemma StatusStylesDistinct(status: string)
    ensures status !in {"new", "reviewing", "accepted", "rejected"} ==> StatusStyle(status) == DEFAULT_STYLE
    ensures status in {"new", "reviewing", "accepted", "rejected"} ==> StatusStyle(status) != DEFAULT_STYLE
    ensures |{StatusStyle("new"), StatusStyle("reviewing"), StatusStyle("accepted"), StatusStyle("rejected")}| == 4
  {
    assert |NEW_STYLE| == 26 && |REVIEWING_STYLE| == 67 && |ACCEPTED_STYLE| == 75;
    assert |REJECTED_STYLE| == 63 && |DEFAULT_STYLE| == 65;
  }

  /** Initials: `'??'` when both names are missing or empty; otherwise the
      upper-cased first letter of the first name (when there is one)
      followed by that of the last name. */
  lemma InitialsSpec(first: Option<string>, last: Option<string>)
    ensures FirstChar(first) == "" && FirstChar(last) == "" ==> Initials(first, last) == "??"
    ensures first.Some? && first.value != "" && last.Some? && last.value != "" ==>
      Initials(first, last) == [UpperChar(first.value[0]), UpperChar(last.value[0])]
    ensures first.Some? && first.value != "" && FirstChar(last) == "" ==>
      Initials(first, last) == [UpperChar(first.value[0])]
    ensures FirstChar(first) == "" && last.Some? && last.value != "" ==>
      Initials(first, last) == [UpperChar(last.value[0])]
  {
  }
}
