/** The admin sidebar's highlighting of the current item. */
module AdminSidebar {
  import opened Text

  const OVERVIEW: string := "/admin"

  /** The item paths, in menu order (main items, then system items). */
  const NAV_PATHS: seq<string> := ["/admin", "/admin/services", "/admin/hiring", "/admin/students", "/admin/applications"]
  const SYSTEM_PATHS: seq<string> := ["/admin/audit-logs", "/admin/settings", "#"]

  /** `isActive`: the exact path, or — for every item but the overview — any
      path that starts with it. */
  predicate IsActive(pathname: string, path: string)
  {
    pathname == path || (path != OVERVIEW && StartsWith(pathname, path))
  }

  // ---- Properties ----

  /** An item is active on its own path; the overview only there. */
  lemma ActiveSpec(pathname: string, path: string)
    ensures IsActive(path, path)
    ensures IsActive(pathname, OVERVIEW) <==> pathname == OVERVIEW
    ensures path != OVERVIEW ==> (IsActive(pathname, path) <==> StartsWith(pathname, path))
  {
  }

  /** The prefix test has no segment boundary: the services item is active
      below its path and on any longer name that starts with it. */
  lemma PlainPrefix()
    ensures IsActive("/admin/services/7", "/admin/services")
    ensures IsActive("/admin/servicesX", "/admin/services")
    ensures !IsActive("/admin/services", "/admin/servicesX")
  {
    assert "/admin/services/7"[..|"/admin/services"|] == "/admin/services";
    assert "/admin/servicesX"[..|"/admin/services"|] == "/admin/services";
  }

  /** A path below another shares its characters 7 to 9. */
  lemma PrefixKey(a: string, b: string)
    requires |b| >= 10 && StartsWith(a, b)
    ensures a[7..10] == b[7..10]
  {
    assert a[..|b|][7..10] == a[7..10];
  }

  /** On each item's own route exactly that one item is highlighted. */
  lemma OneItemPerRoute(i: int, j: int)
    requires 0 <= i < |NAV_PATHS + SYSTEM_PATHS| - 1 && 0 <= j < |NAV_PATHS + SYSTEM_PATHS|
    ensures IsActive((NAV_PATHS + SYSTEM_PATHS)[i], (NAV_PATHS + SYSTEM_PATHS)[j]) <==> i == j
  {
    var all := NAV_PATHS + SYSTEM_PATHS;
    assert all == ["/admin", "/admin/services", "/admin/hiring", "/admin/students",
      "/admin/applications", "/admin/audit-logs", "/admin/settings", "#"];
    assert all[1][7..10] == "ser" && all[2][7..10] == "hir" && all[3][7..10] == "stu";
    assert all[4][7..10] == "app" && all[5][7..10] == "aud" && all[6][7..10] == "set";
    if i != j && j != 0 && j != 7 && StartsWith(all[i], all[j]) {
      PrefixKey(all[i], all[j]);
      assert false;
    }
    if i != j {
      assert all[i][0] == '/' && |all[i]| >= 6 && (i != 0 ==> |all[i]| >= 10);
      assert j != 0 && j != 7 ==> |all[j]| >= 10;
      if |all[i]| == |all[j]| {
        assert all[i][8] != all[j][8] || all[i][9] != all[j][9];
      }
    }
  }

  /** The help item (`#`) is never active on a real path. */
  lemma HelpNeverActive(pathname: string)
    requires pathname != [] && pathname[0] == '/'
    ensures !IsActive(pathname, "#")
  {
  }
}
