/** The admin dashboard: the stats built from four fetches that each fall
    back to an empty list, the activity icons and the greeting name. */
module Dashboard {
  import opened Common
  import opened Text
  import opened Lists

  /** A service, job or application row, as far as the stats read it. */
  datatype Row = Row(status: string)

  /** An activity log row. */
  datatype Log = Log(action: string)

  /** `fetch().catch(() => [])`. */
  function OrEmpty<T>(fetched: Result<seq<T>>): seq<T>
  {
    if fetched.Ok? then fetched.value else []
  }

  predicate IsPublished(r: Row) { r.status == "published" }
  predicate IsNew(r: Row) { r.status == "new" }

  datatype Stats = Stats(
    services: nat, publishedServices: nat,
    jobs: nat, publishedJobs: nat,
    applications: nat, newApplications: nat,
    recentLogs: seq<Log>, systemStatus: string)

  /** The object `fetchStats` stores. */
  function StatsOf(services: Result<seq<Row>>, jobs: Result<seq<Row>>,
                   applications: Result<seq<Row>>, logs: Result<seq<Log>>): Stats
  {
    var sv, jb, ap := OrEmpty(services), OrEmpty(jobs), OrEmpty(applications);
    Stats(|sv|, |Filter(sv, IsPublished)|, |jb|, |Filter(jb, IsPublished)|,
          |ap|, |Filter(ap, IsNew)|, OrEmpty(logs), "operational")
  }

  /** The notification dot on the applications button. */
  predicate ShowsNotificationDot(st: Stats)
  {
    st.newApplications > 0
  }

  /** `recentLogs.slice(0, 4)`. */
  function VisibleLogs(logs: seq<Log>): seq<Log>
  {
    if |logs| <= 4 then logs else logs[..4]
  }

  /** The icon `getIconAndColors` picks for an action. */
  function IconFor(action: string): string
  {
    match Lower(action)
    case "create" => "add_circle"
    case "update" => "edit"
    case "delete" => "delete"
    case _ => "sync"
  }

  /** `profile?.full_name?.split(' ')[0] || 'Admin'`. */
  function UserName(fullName: Option<string>): string
  {
    if fullName.None? then "Admin" else OrElse(Split(fullName.value, ' ')[0], "Admin")
  }

  // ---- Properties ----

  /** Published counts never exceed their totals, nor new applications the
      applications; each failed fetch (services, jobs, applications) counts
      0 and leaves the other counts as they would have been, and failed
      logs show no activity. */
  lemma StatsSpec(services: Result<seq<Row>>, jobs: Result<seq<Row>>,
                  applications: Result<seq<Row>>, logs: Result<seq<Log>>, e: string)
    ensures var st := StatsOf(services, jobs, applications, logs);
      && st.publishedServices <= st.services
      && st.publishedJobs <= st.jobs
      && st.newApplications <= st.applications
    ensures var st := StatsOf(Err(e), jobs, applications, logs);
      && st.services == 0 && st.publishedServices == 0
      && st.jobs == StatsOf(services, jobs, applications, logs).jobs
      && st.applications == StatsOf(services, jobs, applications, logs).applications
    ensures var st := StatsOf(services, Err(e), applications, logs);
      && st.jobs == 0 && st.publishedJobs == 0
      && st.services == StatsOf(services, jobs, applications, logs).services
      && st.applications == StatsOf(services, jobs, applications, logs).applications
    ensures var st := StatsOf(services, jobs, Err(e), logs);
      && st.applications == 0 && st.newApplications == 0
      && st.services == StatsOf(services, jobs, applications, logs).services
      && st.jobs == StatsOf(services, jobs, applications, logs).jobs
    ensures StatsOf(services, jobs, applications, Err(e)).recentLogs == []
  {
  }

  /** The dot shows exactly when some fetched application is new. */
  lemma NotificationDotSpec(services: Result<seq<Row>>, jobs: Result<seq<Row>>,
                            applications: Result<seq<Row>>, logs: Result<seq<Log>>)
    ensures ShowsNotificationDot(StatsOf(services, jobs, applications, logs)) <==>
      exists k :: 0 <= k < |OrEmpty(applications)| && OrEmpty(applications)[k].status == "new"
  {
    var ap := OrEmpty(applications);
    var r := Filter(ap, IsNew);
    if |r| > 0 {
      FilterMembers(ap, IsNew, r[0]);
      var k :| 0 <= k < |ap| && ap[k] == r[0];
      assert ap[k].status == "new";
    }
    if exists k :: 0 <= k < |ap| && ap[k].status == "new" {
      var k :| 0 <= k < |ap| && ap[k].status == "new";
      FilterMembers(ap, IsNew, ap[k]);
    }
  }

  /** At most four logs are shown: the first ones, in order. */
  lemma VisibleLogsSpec(logs: seq<Log>)
    ensures |VisibleLogs(logs)| == (if |logs| < 4 then |logs| else 4)
    ensures VisibleLogs(logs) == logs[..|VisibleLogs(logs)|]
  {
  }

  /** The action's case does not matter; create, update and delete get their
      own icons and everything else, such as `UPDATE_STATUS`, the sync icon. */
  lemma IconSpec(action: string)
    ensures IconFor(Upper(action)) == IconFor(action)
    ensures IconFor("CREATE") == "add_circle" && IconFor("UPDATE") == "edit" && IconFor("DELETE") == "delete"
    ensures Lower(action) !in {"create", "update", "delete"} ==> IconFor(action) == "sync"
    ensures IconFor("UPDATE_STATUS") == "sync" && IconFor("UPDATE_SETTING") == "sync"
  {
    LowerOfUpper(action);
    assert Lower("CREATE") == "create";
    assert Lower("UPDATE") == "update";
    assert Lower("DELETE") == "delete";
    assert |Lower("UPDATE_STATUS")| == 13;
    assert |Lower("UPDATE_SETTING")| == 14;
  }

  /** The greeting shows the text before the first space of the full name,
      or `'Admin'` when that is empty or the name is missing. */
  lemma UserNameSpec(fullName: Option<string>)
    ensures fullName.None? ==> UserName(fullName) == "Admin"
    ensures fullName.Some? && ' ' in fullName.value ==>
      UserName(fullName) == OrElse(fullName.value[..IndexOf(fullName.value, ' ')], "Admin")
    ensures fullName.Some? && ' ' !in fullName.value ==> UserName(fullName) == OrElse(fullName.value, "Admin")
    ensures UserName(fullName) != "" && ' ' !in UserName(fullName)
  {
    if fullName.Some? {
      if ' ' in fullName.value {
        SplitHeadTail(fullName.value, ' ');
      } else {
        SplitNoSeparator(fullName.value, ' ');
      }
    }
  }
}
