/** Whether the site's chrome (navigation bar, footer, chat assistant) is
    rendered around a page. */
module AppLayout {
  import opened Text

  /** A page that opens full screen, without the site's chrome. */
  predicate IsPremiumDetail(pathname: string)
  {
    StartsWith(pathname, "/careers/") || StartsWith(pathname, "/students/")
    || StartsWith(pathname, "/services/") || StartsWith(pathname, "/service-form")
  }

  /** `isLayoutHidden`. */
  predicate IsLayoutHidden(pathname: string)
  {
    pathname == "/login" || pathname == "/admin-login" || pathname == "/register"
    || StartsWith(pathname, "/admin") || IsPremiumDetail(pathname)
  }

  /** The chrome around a page: navigation bar, footer and assistant. */
  datatype Chrome = Chrome(navbar: bool, footer: bool, assistant: bool)

  function ChromeFor(pathname: string): Chrome
  {
    var shown := !IsLayoutHidden(pathname);
    Chrome(shown, shown, shown)
  }

  // ---- Properties ----

  /** The login and register pages hide the layout only as exact paths;
      the admin login page is also hidden under any extension, through the
      `/admin` prefix. */
  lemma ExactPages()
    ensures IsLayoutHidden("/login") && IsLayoutHidden("/admin-login") && IsLayoutHidden("/register")
    ensures !IsLayoutHidden("/login/") && !IsLayoutHidden("/register/x")
    ensures IsLayoutHidden("/admin-login/") && IsLayoutHidden("/admin-login/x")
  {
    assert "/admin-login/"[..6] == "/admin";
    assert "/admin-login/x"[..6] == "/admin";
    assert !StartsWith("/login/", "/admin") by { assert "/login/"[1] != "/admin"[1]; }
    assert !IsPremiumDetail("/login/") by {
      assert "/login/"[1] == 'l';
      assert "/careers/"[1] == 'c' && "/students/"[1] == 's' && "/services/"[1] == 's' && "/service-form"[1] == 's';
    }
    assert !StartsWith("/register/x", "/admin") by { assert "/register/x"[1] != "/admin"[1]; }
    assert !IsPremiumDetail("/register/x") by {
      assert "/register/x"[1] == 'r';
      assert "/careers/"[1] == 'c' && "/students/"[1] == 's' && "/services/"[1] == 's' && "/service-form"[1] == 's';
    }
  }

  /** Every path starting with `/admin` hides the layout, including
      `/admin-login` and `/administrator`. */
  lemma AdminPrefixHides(pathname: string)
    ensures StartsWith(pathname, "/admin") ==> IsLayoutHidden(pathname)
    ensures IsLayoutHidden("/administrator")
  {
    assert "/administrator"[..6] == "/admin";
  }

  /** The detail prefixes hide the layout; the bare list pages do not. */
  lemma DetailPrefixes(rest: string)
    ensures IsLayoutHidden("/careers/" + rest) && IsLayoutHidden("/students/" + rest)
    ensures IsLayoutHidden("/services/" + rest) && IsLayoutHidden("/service-form" + rest)
    ensures !IsLayoutHidden("/careers") && !IsLayoutHidden("/students")
  {
    assert ("/careers/" + rest)[..9] == "/careers/";
    assert ("/students/" + rest)[..10] == "/students/";
    assert ("/services/" + rest)[..10] == "/services/";
    assert ("/service-form" + rest)[..13] == "/service-form";
    assert "/careers"[1] == 'c' && "/students"[1] == 's';
    assert "/admin"[1] == 'a';
  }

  /** The whole chrome: navigation bar, footer and assistant. */
  const SHOWN: Chrome := Chrome(true, true, true)
  const HIDDEN: Chrome := Chrome(false, false, false)

  /** A path that differs from `p` at position `i` does not start with it. */
  lemma DiffersAt(s: string, p: string, i: int)
    requires 0 <= i < |s| && i < |p| && s[i] != p[i]
    ensures !StartsWith(s, p)
  {
  }

  /** Every page name that hides the chrome starts with `a`, `c`, `s`, `l`
      or `r`; a path whose first letter is none of them shows it. */
  lemma ShownByFirstLetter(p: string)
    requires |p| >= 2 && p[1] !in {'a', 'c', 's', 'l', 'r'}
    ensures ChromeFor(p) == SHOWN
  {
    DiffersAt(p, "/admin", 1);
    DiffersAt(p, "/careers/", 1);
    DiffersAt(p, "/students/", 1);
    DiffersAt(p, "/services/", 1);
    DiffersAt(p, "/service-form", 1);
    assert p != "/login" && p != "/admin-login" && p != "/register" by {
      assert "/login"[1] == 'l' && "/admin-login"[1] == 'a' && "/register"[1] == 'r';
    }
  }

  /** The public pages routed in the app (home, about, the three service
      areas, blog and blog posts, contact, profile and the careers and
      students lists) show the whole chrome. */
  lemma PublicRoutesShowChrome(slug: string)
    ensures ChromeFor("/") == SHOWN && ChromeFor("/about") == SHOWN
    ensures ChromeFor("/it-solutions") == SHOWN && ChromeFor("/wellness") == SHOWN
    ensures ChromeFor("/platform-enablement") == SHOWN
    ensures ChromeFor("/blog") == SHOWN && ChromeFor("/blog/" + slug) == SHOWN
    ensures ChromeFor("/contact") == SHOWN && ChromeFor("/profile") == SHOWN
    ensures ChromeFor("/careers") == SHOWN && ChromeFor("/students") == SHOWN
  {
    ShownByFirstLetter("/it-solutions");
    ShownByFirstLetter("/wellness");
    ShownByFirstLetter("/platform-enablement");
    ShownByFirstLetter("/blog");
    ShownByFirstLetter("/profile");
    var b := "/blog/" + slug;
    assert b[1] == 'b';
    ShownByFirstLetter(b);
    SecondLetterRoutes();
    DetailPrefixes("");
  }

  /** The two public pages whose first letter is shared with a hidden page. */
  lemma SecondLetterRoutes()
    ensures ChromeFor("/") == SHOWN && ChromeFor("/about") == SHOWN && ChromeFor("/contact") == SHOWN
  {
    DiffersAt("/about", "/admin", 2);
    DiffersAt("/about", "/careers/", 1);
    DiffersAt("/about", "/students/", 1);
    DiffersAt("/about", "/services/", 1);
    DiffersAt("/about", "/service-form", 1);
    DiffersAt("/contact", "/admin", 1);
    DiffersAt("/contact", "/careers/", 2);
    DiffersAt("/contact", "/students/", 1);
    DiffersAt("/contact", "/services/", 1);
    DiffersAt("/contact", "/service-form", 1);
  }

  /** Every admin route, the sign-in and registration pages, and the
      detail, apply and inquiry pages hide the whole chrome. */
  lemma HiddenRoutesHideChrome(rest: string)
    ensures ChromeFor("/admin" + rest) == HIDDEN
    ensures ChromeFor("/login") == HIDDEN && ChromeFor("/admin-login") == HIDDEN && ChromeFor("/register") == HIDDEN
    ensures ChromeFor("/careers/" + rest) == HIDDEN && ChromeFor("/students/" + rest) == HIDDEN
    ensures ChromeFor("/services/" + rest) == HIDDEN && ChromeFor("/service-form" + rest) == HIDDEN
  {
    assert ("/admin" + rest)[..6] == "/admin";
    ExactPages();
    DetailPrefixes(rest);
  }
}
