/** The student programs screen: the search filter and the stat cards. */
module StudentManager {
  import opened Common
  import opened Text
  import opened Lists

  /** A program row as the screen reads it; department and location may be
      missing. */
  datatype Program = Program(id: string, title: string, department: Option<string>,
                             location: Option<string>, status: string)

  predicate FieldMatches(field: Option<string>, q: string)
  {
    field.Some? && Contains(Lower(field.value), q)
  }

  /** The test of `filteredJobs`: title, department or location contains
      the term, ignoring case. */
  predicate Matches(p: Program, term: string)
  {
    var q := Lower(term);
    Contains(Lower(p.title), q) || FieldMatches(p.department, q) || FieldMatches(p.location, q)
  }

  function Filtered(programs: seq<Program>, term: string): seq<Program>
  {
    Filter(programs, p => Matches(p, term))
  }

  predicate IsPublished(p: Program) { p.status == "published" }
  predicate IsUnpublished(p: Program) { p.status != "published" }

  const PENDING_OFFERS: nat := 3
  const TOTAL_APPLICANTS: nat := 45

  /** The four stat cards; the draft/closed card shows
      `programs.length - activeCount`. */
  datatype Stats = Stats(active: nat, totalApplicants: nat, draftClosed: int, pendingOffers: nat)

  function StatsOf(programs: seq<Program>): Stats
  {
    var active := |Filter(programs, IsPublished)|;
    Stats(active, TOTAL_APPLICANTS, |programs| - active, PENDING_OFFERS)
  }

  // ---- Properties ----

  /** The filtered list is an order-preserving sub-list holding exactly the
      programs that match; the empty term keeps them all. */
  lemma FilteredSpec(programs: seq<Program>, term: string)
    ensures IsSubsequence(Filtered(programs, term), programs)
    ensures forall p :: p in Filtered(programs, term) <==> p in programs && Matches(p, term)
    ensures Filtered(programs, "") == programs
  {
    forall p
      ensures p in Filtered(programs, term) <==> p in programs && Matches(p, term)
    {
      FilterMembers(programs, x => Matches(x, term), p);
    }
    forall k | 0 <= k < |programs|
      ensures Matches(programs[k], "")
    {
      assert Lower("") == "";
      ContainsEmpty(Lower(programs[k].title));
    }
    FilterAll(programs, p => Matches(p, ""));
  }

  /** The draft/closed card counts exactly the programs that are not
      published, so it is never negative; the other two cards are the
      constants 45 and 3 whatever the data. */
  lemma StatsSpec(programs: seq<Program>)
    ensures var st := StatsOf(programs);
      && st.draftClosed == |Filter(programs, IsUnpublished)|
      && 0 <= st.draftClosed <= |programs|
      && st.active + st.draftClosed == |programs|
      && st.pendingOffers == 3 && st.totalApplicants == 45
  {
    ComplementCount(programs, IsPublished, IsUnpublished);
  }
}
