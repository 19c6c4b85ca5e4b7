/** The services screen: the search filter and the status counters. */
module ServiceManager {
  import opened Common
  import opened Text
  import opened Lists

  /** A service row as the screen reads it; the category may be missing. */
  datatype Service = Service(id: string, title: string, category: Option<string>, status: string)

  /** The test of `filteredServices`: the title, or the category when there
      is one, contains the term, ignoring case. */
  predicate Matches(s: Service, term: string)
  {
    var q := Lower(term);
    Contains(Lower(s.title), q) || (s.category.Some? && Contains(Lower(s.category.value), q))
  }

  function Filtered(services: seq<Service>, term: string): seq<Service>
  {
    Filter(services, s => Matches(s, term))
  }

  predicate IsPublished(s: Service) { s.status == "published" }
  predicate IsDraft(s: Service) { s.status == "draft" }

  /** The four stat cards. */
  datatype Stats = Stats(total: nat, active: nat, maintenance: nat, uptime: string)

  function StatsOf(services: seq<Service>): Stats
  {
    Stats(|services|, |Filter(services, IsPublished)|, |Filter(services, IsDraft)|, "99.98%")
  }

  // ---- Properties ----

  /** The filtered list is an order-preserving sub-list holding exactly the
      services that match; the empty term keeps them all. */
  lemma FilteredSpec(services: seq<Service>, term: string)
    ensures IsSubsequence(Filtered(services, term), services)
    ensures forall s :: s in Filtered(services, term) <==> s in services && Matches(s, term)
    ensures Filtered(services, "") == services
  {
    forall s
      ensures s in Filtered(services, term) <==> s in services && Matches(s, term)
    {
      FilterMembers(services, x => Matches(x, term), s);
    }
    forall k | 0 <= k < |services|
      ensures Matches(services[k], "")
    {
      assert Lower("") == "";
      ContainsEmpty(Lower(services[k].title));
    }
    FilterAll(services, s => Matches(s, ""));
  }

  /** Active counts the published services and maintenance the drafts; the
      two never add up to more than the total, and a service with any other
      status is in neither. */
  lemma StatsSpec(services: seq<Service>)
    ensures var st := StatsOf(services);
      && st.active + st.maintenance <= st.total
      && (forall s :: s in services && s.status != "published" && s.status != "draft" ==>
            s !in Filter(services, IsPublished) && s !in Filter(services, IsDraft))
  {
    DisjointCounts(services, IsPublished, IsDraft);
    forall s | s in services && s.status != "published" && s.status != "draft"
      ensures s !in Filter(services, IsPublished) && s !in Filter(services, IsDraft)
    {
      FilterMembers(services, IsPublished, s);
      FilterMembers(services, IsDraft, s);
    }
  }
}
