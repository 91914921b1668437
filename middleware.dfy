/**
 * The request middleware (src/middleware.ts): static files and API calls
 * pass untouched; a dashboard page without a session cookie is redirected
 * to the sign-in page of the request's locale; a sign-in or registration
 * page with a session cookie is redirected to the dashboard; everything else
 * gets the locale router's response. Only the presence of a cookie is
 * checked here: whether the session is valid is decided by the procedures.
 */
module Middleware {
  import opened Common
  import opened Text
  import opened I18n
  import AuthLib

  const PROTECTED_ROUTES: seq<string> := [
    "/dashboard", "/tableau-de-bord",
    "/dashboard/projects", "/tableau-de-bord/projets",
    "/dashboard/profile", "/tableau-de-bord/profil"
  ]

  const AUTH_ROUTES: seq<string> := ["/login", "/connexion", "/register", "/inscription"]

  /** The internal pages the two lists stand for. */
  const DASHBOARD_PAGES: seq<string> := ["/dashboard", "/dashboard/projects", "/dashboard/profile"]
  const AUTH_PAGES: seq<string> := ["/login", "/register"]

  /** What the middleware answers: pass through, redirect, or the locale router's own response. */
  datatype Response = Next | Redirect(location: string, callbackUrl: Option<string>) | Intl

  /**
   * The names `config.matcher` excludes right after the leading slash. They
   * are regular-expression text: `.` in them matches any character.
   */
  const MATCHER_EXCLUDED: seq<string> := ["api", "_next/static", "_next/image", "favicon.ico", "robots.txt", "sitemap.xml"]

  /** `s` begins with text that `pattern` matches, reading `.` in the pattern as any character. */
  predicate PatternPrefix(s: string, pattern: string) {
    |pattern| <= |s| && forall i | 0 <= i < |pattern| :: pattern[i] == '.' || s[i] == pattern[i]
  }

  /** `config.matcher`: "/" followed by text that none of the excluded names begins (the negative look-ahead). */
  predicate Matched(pathname: string) {
    && |pathname| >= 1 && pathname[0] == '/'
    && forall i | 0 <= i < |MATCHER_EXCLUDED| :: !PatternPrefix(pathname[1..], MATCHER_EXCLUDED[i])
  }

  /** API routes, Next.js assets and any path with a dot (a file) bypass the middleware. */
  predicate Bypassed(pathname: string) {
    StartsWith(pathname, "/api/") || StartsWith(pathname, "/_next/") || '.' in pathname
  }

  /**
   * The session cookie: the plain one when it is present at all (even
   * empty), the `__Secure-` one otherwise, as `??` chooses.
   */
  function SessionToken(plain: Option<string>, secure: Option<string>): (t: Option<string>)
    ensures plain.Some? ==> t == plain
    ensures plain.None? ==> t == secure
  {
    if plain.Some? then plain else secure
  }

  /** `!!sessionToken`: a cookie with a non-empty value. */
  predicate Authenticated(token: Option<string>) {
    token.Some? && token.value != ""
  }

  /** The regular expression `^\/(fr|en)` replaced by nothing, then `|| "/"`. */
  function StripLocale(pathname: string): (r: string)
    ensures (StartsWith(pathname, "/fr") || StartsWith(pathname, "/en")) ==> r == (if |pathname| == 3 then "/" else pathname[3..])
    ensures !(StartsWith(pathname, "/fr") || StartsWith(pathname, "/en")) ==> r == (if pathname == "" then "/" else pathname)
    ensures r != ""
  {
    var rest := if StartsWith(pathname, "/fr") || StartsWith(pathname, "/en") then pathname[3..] else pathname;
    if rest == "" then "/" else rest
  }

  /** `routes.some(route => path.startsWith(route))`. */
  predicate AnyPrefix(path: string, routes: seq<string>) {
    exists i | 0 <= i < |routes| :: StartsWith(path, routes[i])
  }

  /** The locale of a redirect: English when the path starts with "/en", French otherwise. */
  function RedirectLocale(pathname: string): Locale {
    if StartsWith(pathname, "/en") then EN else FR
  }

  function LoginPath(l: Locale): string {
    if l == FR then "/fr/connexion" else "/en/login"
  }

  function DashboardPath(l: Locale): string {
    if l == FR then "/fr/tableau-de-bord" else "/en/dashboard"
  }

  /** The middleware for a request path and its two possible session cookies. */
  function Handle(pathname: string, plain: Option<string>, secure: Option<string>): (r: Response)
    ensures Bypassed(pathname) <==> r == Next
    ensures r.Redirect? && r.callbackUrl.Some? <==>
              && !Bypassed(pathname)
              && AnyPrefix(StripLocale(pathname), PROTECTED_ROUTES)
              && !Authenticated(SessionToken(plain, secure))
    ensures r.Redirect? && r.callbackUrl.Some? ==> r == Redirect(LoginPath(RedirectLocale(pathname)), Some(pathname))
    ensures r.Redirect? && r.callbackUrl.None? <==>
              && !Bypassed(pathname)
              && AnyPrefix(StripLocale(pathname), AUTH_ROUTES)
              && Authenticated(SessionToken(plain, secure))
    ensures r.Redirect? && r.callbackUrl.None? ==> r.location == DashboardPath(RedirectLocale(pathname))
  {
    if Bypassed(pathname) then Next
    else
      var authenticated := Authenticated(SessionToken(plain, secure));
      var path := StripLocale(pathname);
      if AnyPrefix(path, PROTECTED_ROUTES) && !authenticated then
        Redirect(LoginPath(RedirectLocale(pathname)), Some(pathname))
      else if AnyPrefix(path, AUTH_ROUTES) && authenticated then
        Redirect(DashboardPath(RedirectLocale(pathname)), None)
      else Intl
  }

  /**
   * A request as Next.js serves it: the middleware runs only on a path the
   * matcher accepts (`Some` of its response); any other path reaches the
   * application without it (`None`).
   */
  function Run(pathname: string, plain: Option<string>, secure: Option<string>): (r: Option<Response>)
    ensures r.None? <==> !Matched(pathname)
    ensures r.Some? ==> r.value == Handle(pathname, plain, secure)
  {
    if Matched(pathname) then Some(Handle(pathname, plain, secure)) else None
  }

  /** The in-code bypass: API routes, Next.js assets and files go straight through. */
  lemma BypassExamples()
    ensures Bypassed("/api/trpc/leads.create") && Bypassed("/_next/static/app.js") && Bypassed("/logo.svg")
    ensures !Bypassed("/fr/dashboard") && !Bypassed("/api")
  {
    DiffersAt("/fr/dashboard", "/api/", 1);
    DiffersAt("/fr/dashboard", "/_next/", 1);
    DiffersAt("/api", "/_next/", 1);
  }

  /**
   * The matcher excludes more than the in-code bypass: "/api" and "/apidocs"
   * have no "/api/" prefix and no dot, yet the middleware never runs on them.
   */
  lemma MatcherSkipsApi()
    ensures !Matched("/api") && !Bypassed("/api")
    ensures !Matched("/apidocs") && !Bypassed("/apidocs")
  {
    assert "/api"[1..] == "api" && PatternPrefix("api", MATCHER_EXCLUDED[0]);
    assert "/apidocs"[1..] == "apidocs" && PatternPrefix("apidocs", MATCHER_EXCLUDED[0]);
    DiffersAt("/api", "/_next/", 1);
    DiffersAt("/apidocs", "/_next/", 1);
    DiffersAt("/apidocs", "/api/", 4);
    assert !StartsWith("/api", "/api/");
  }

  /** The dots of "favicon.ico" are regular-expression dots: "/favicon-ico" is excluded too, though it holds no dot. */
  lemma MatcherDotIsAny()
    ensures !Matched("/favicon-ico") && !Bypassed("/favicon-ico")
  {
    assert "/favicon-ico"[1..] == "favicon-ico" && PatternPrefix("favicon-ico", MATCHER_EXCLUDED[3]);
    DiffersAt("/favicon-ico", "/_next/", 1);
    DiffersAt("/favicon-ico", "/api/", 1);
    assert forall i | 0 <= i < |"/favicon-ico"| :: "/favicon-ico"[i] != '.';
  }

  /** Every path under a locale prefix passes the matcher, so the guards see every localized page. */
  lemma {:induction false} LocalizedIsMatched(p: string)
    requires StartsWith(p, "/fr") || StartsWith(p, "/en")
    ensures Matched(p)
  {
    assert p[..3][0] == p[0] && p[..3][1] == p[1] && p[..3][2] == p[2];
    var rest := p[1..];
    assert rest[0] == p[1] && rest[1] == p[2];
    forall i | 0 <= i < |MATCHER_EXCLUDED| ensures !PatternPrefix(rest, MATCHER_EXCLUDED[i]) {
      if i == 3 && p[1] == 'f' {
        assert MATCHER_EXCLUDED[i][1] == 'a';
      } else {
        assert MATCHER_EXCLUDED[i][0] != p[1];
      }
    }
  }

  /** A prefix of a prefix is a prefix. */
  lemma {:induction false} PrefixTrans(s: string, p: string, q: string)
    requires StartsWith(s, p) && StartsWith(p, q)
    ensures StartsWith(s, q)
  {
    assert s[..|q|] == s[..|p|][..|q|];
  }

  /** A path that differs from `q` at an index inside both does not start with `q`. */
  lemma {:induction false} DiffersAt(s: string, q: string, k: nat)
    requires k < |s| && k < |q| && s[k] != q[k]
    ensures !StartsWith(s, q)
  {
    if |q| <= |s| {
      assert s[..|q|][k] == s[k];
    }
  }

  /** A path starting with one of the six route roots has that root's second character. */
  lemma {:induction false} SecondChars(s: string)
    ensures StartsWith(s, "/dashboard") ==> |s| >= 10 && s[1] == 'd'
    ensures StartsWith(s, "/tableau-de-bord") ==> |s| >= 16 && s[1] == 't'
    ensures StartsWith(s, "/login") ==> |s| >= 6 && s[1] == 'l'
    ensures StartsWith(s, "/connexion") ==> |s| >= 10 && s[1] == 'c'
    ensures StartsWith(s, "/register") ==> |s| >= 9 && s[1] == 'r'
    ensures StartsWith(s, "/inscription") ==> |s| >= 12 && s[1] == 'i'
  {
    if StartsWith(s, "/dashboard") { assert s[..10][1] == s[1]; }
    if StartsWith(s, "/tableau-de-bord") { assert s[..16][1] == s[1]; }
    if StartsWith(s, "/login") { assert s[..6][1] == s[1]; }
    if StartsWith(s, "/connexion") { assert s[..10][1] == s[1]; }
    if StartsWith(s, "/register") { assert s[..9][1] == s[1]; }
    if StartsWith(s, "/inscription") { assert s[..12][1] == s[1]; }
  }

  /** Only the two dashboard roots matter: the other protected entries are covered by them. */
  lemma {:induction false} ProtectedIffDashboard(path: string)
    ensures AnyPrefix(path, PROTECTED_ROUTES) <==> StartsWith(path, "/dashboard") || StartsWith(path, "/tableau-de-bord")
  {
    if AnyPrefix(path, PROTECTED_ROUTES) {
      var i :| 0 <= i < |PROTECTED_ROUTES| && StartsWith(path, PROTECTED_ROUTES[i]);
      if i % 2 == 0 {
        PrefixTrans(path, PROTECTED_ROUTES[i], "/dashboard");
      } else {
        PrefixTrans(path, PROTECTED_ROUTES[i], "/tableau-de-bord");
      }
    }
    if StartsWith(path, "/dashboard") {
      assert StartsWith(path, PROTECTED_ROUTES[0]);
    }
    if StartsWith(path, "/tableau-de-bord") {
      assert StartsWith(path, PROTECTED_ROUTES[1]);
    }
  }

  /** The sign-in pages begin with "/login", "/connexion", "/register" or "/inscription" and nothing else matters. */
  lemma {:induction false} AuthIffSignIn(path: string)
    ensures AnyPrefix(path, AUTH_ROUTES) <==>
              StartsWith(path, "/login") || StartsWith(path, "/connexion") || StartsWith(path, "/register") || StartsWith(path, "/inscription")
  {
    if AnyPrefix(path, AUTH_ROUTES) {
      var i :| 0 <= i < |AUTH_ROUTES| && StartsWith(path, AUTH_ROUTES[i]);
    }
    if StartsWith(path, "/login") { assert StartsWith(path, AUTH_ROUTES[0]); }
    if StartsWith(path, "/connexion") { assert StartsWith(path, AUTH_ROUTES[1]); }
    if StartsWith(path, "/register") { assert StartsWith(path, AUTH_ROUTES[2]); }
    if StartsWith(path, "/inscription") { assert StartsWith(path, AUTH_ROUTES[3]); }
  }

  /** No path is both a dashboard page and a sign-in page, so the order of the two checks does not matter. */
  lemma {:induction false} ProtectedAndAuthDisjoint(path: string)
    ensures !(AnyPrefix(path, PROTECTED_ROUTES) && AnyPrefix(path, AUTH_ROUTES))
  {
    ProtectedIffDashboard(path);
    AuthIffSignIn(path);
    SecondChars(path);
  }

  /** Every localized URL loses exactly its locale prefix. */
  lemma StripLocalizedUrl(l: Locale, p: string)
    requires p != ""
    ensures StripLocale("/" + LocaleName(l) + p) == p
  {
    var s := "/" + LocaleName(l) + p;
    assert s[..3] == "/" + LocaleName(l);
    assert s[3..] == p;
  }

  /**
   * Both lists are exactly the paths of the routing table's dashboard
   * entries and sign-in entries, English then French for each.
   */
  lemma RoutesAreLocalized()
    ensures |PROTECTED_ROUTES| == 2 * |DASHBOARD_PAGES| && |AUTH_ROUTES| == 2 * |AUTH_PAGES|
    ensures forall k | 0 <= k < |DASHBOARD_PAGES| ::
              && DASHBOARD_PAGES[k] == PATHNAMES[6 + k].internal
              && PROTECTED_ROUTES[2 * k] == PATHNAMES[6 + k].en
              && PROTECTED_ROUTES[2 * k + 1] == PATHNAMES[6 + k].fr
    ensures forall k | 0 <= k < |AUTH_PAGES| ::
              && AUTH_PAGES[k] == PATHNAMES[4 + k].internal
              && AUTH_ROUTES[2 * k] == PATHNAMES[4 + k].en
              && AUTH_ROUTES[2 * k + 1] == PATHNAMES[4 + k].fr
  {
  }

  /** The table's sign-in entry and dashboard entry. */
  lemma SignInAndDashboardEntries()
    ensures PATHNAMES[4] == Route("/login", "/connexion", "/login")
    ensures PATHNAMES[6] == Route("/dashboard", "/tableau-de-bord", "/dashboard")
  {
  }

  /** The URLs of the sign-in and dashboard entries in French. */
  lemma FrenchTargets()
    ensures RouteUrl(Route("/login", "/connexion", "/login"), FR) == "/fr/connexion"
    ensures RouteUrl(Route("/dashboard", "/tableau-de-bord", "/dashboard"), FR) == "/fr/tableau-de-bord"
  {
    assert "/" + "fr" + "/connexion" == "/fr/connexion";
    assert "/" + "fr" + "/tableau-de-bord" == "/fr/tableau-de-bord";
  }

  /** The URLs of the sign-in and dashboard entries in English. */
  lemma EnglishTargets()
    ensures RouteUrl(Route("/login", "/connexion", "/login"), EN) == "/en/login"
    ensures RouteUrl(Route("/dashboard", "/tableau-de-bord", "/dashboard"), EN) == "/en/dashboard"
  {
    assert "/" + "en" + "/login" == "/en/login";
    assert "/" + "en" + "/dashboard" == "/en/dashboard";
  }

  /** The redirect targets are the routing table's sign-in and dashboard URLs, and Auth.js's sign-in page is the French one. */
  lemma RedirectTargetsAreLocalized(l: Locale)
    ensures PATHNAMES[4].internal == "/login" && LoginPath(l) == RouteUrl(PATHNAMES[4], l)
    ensures PATHNAMES[6].internal == "/dashboard" && DashboardPath(l) == RouteUrl(PATHNAMES[6], l)
    ensures AuthLib.SIGN_IN_PAGE == LoginPath(DEFAULT_LOCALE)
  {
    SignInAndDashboardEntries();
    if l == FR {
      FrenchTargets();
    } else {
      EnglishTargets();
    }
  }

  /** The French and English paths of the routing table, as written there. */
  const FRENCH_PATHS: seq<string> := [
    "/", "/services", "/a-propos", "/contact", "/connexion", "/inscription", "/tableau-de-bord",
    "/tableau-de-bord/projets", "/tableau-de-bord/profil", "/confidentialite", "/conditions-utilisation"]
  const ENGLISH_PATHS: seq<string> := [
    "/", "/services", "/about", "/contact", "/login", "/register", "/dashboard",
    "/dashboard/projects", "/dashboard/profile", "/privacy", "/terms"]

  lemma FrenchPathsHaveNoDot()
    ensures forall s | s in FRENCH_PATHS :: '.' !in s
  {
  }

  lemma EnglishPathsHaveNoDot()
    ensures forall s | s in ENGLISH_PATHS :: '.' !in s
  {
  }

  /** No path of the routing table, in either locale, contains a dot, so none is taken for a file. */
  lemma NoDotInTable(i: nat, l: Locale)
    requires i < |PATHNAMES|
    ensures '.' !in PathIn(PATHNAMES[i], l)
  {
    if l == FR {
      assert PATHNAMES[i].fr in FRENCH_PATHS;
      FrenchPathsHaveNoDot();
    } else {
      assert PATHNAMES[i].en in ENGLISH_PATHS;
      EnglishPathsHaveNoDot();
    }
  }

  lemma FrenchPathsAreTable()
    ensures |FRENCH_PATHS| == |PATHNAMES|
    ensures forall i | 0 <= i < |PATHNAMES| :: PATHNAMES[i].fr == FRENCH_PATHS[i]
  {
  }

  /** Among the French paths, the dashboard ones and only they are protected. */
  lemma FrenchProtected(i: nat)
    requires i < |FRENCH_PATHS|
    ensures AnyPrefix(FRENCH_PATHS[i], PROTECTED_ROUTES) <==> 6 <= i <= 8
  {
    var p := FRENCH_PATHS[i];
    ProtectedIffDashboard(p);
    SecondChars(p);
    if i == 6 {
      assert StartsWith(p, p);
    } else if i == 7 || i == 8 {
      assert p[..16] == "/tableau-de-bord";
    }
  }

  /** Among the French paths, the sign-in and registration ones and only they are sign-in pages. */
  lemma FrenchAuth(i: nat)
    requires i < |FRENCH_PATHS|
    ensures AnyPrefix(FRENCH_PATHS[i], AUTH_ROUTES) <==> 4 <= i <= 5
  {
    var p := FRENCH_PATHS[i];
    AuthIffSignIn(p);
    SecondChars(p);
    if i == 4 || i == 5 {
      assert StartsWith(p, p);
    } else if i == 9 || i == 10 {
      DiffersAt(p, "/connexion", 4);
    }
  }

  /** The checks classify a French path of the routing table by its entry. */
  lemma ClassifyFrench(i: nat)
    requires i < |PATHNAMES|
    ensures var p := PATHNAMES[i].fr;
            && (AnyPrefix(p, PROTECTED_ROUTES) <==> 6 <= i <= 8)
            && (AnyPrefix(p, AUTH_ROUTES) <==> 4 <= i <= 5)
  {
    FrenchPathsAreTable();
    FrenchProtected(i);
    FrenchAuth(i);
  }

  /** The checks classify an English path of the routing table by its entry. */
  lemma ClassifyEnglish(i: nat)
    requires i < |PATHNAMES|
    ensures var p := PATHNAMES[i].en;
            && (AnyPrefix(p, PROTECTED_ROUTES) <==> 6 <= i <= 8)
            && (AnyPrefix(p, AUTH_ROUTES) <==> 4 <= i <= 5)
  {
    var p := PATHNAMES[i].en;
    ProtectedIffDashboard(p);
    AuthIffSignIn(p);
    SecondChars(p);
    if i == 4 || i == 5 || i == 6 {
      assert StartsWith(p, p);
    } else if i == 7 || i == 8 {
      assert p[..10] == "/dashboard";
    }
  }

  /** The checks classify a path of the routing table by its entry. */
  lemma ClassifyPath(i: nat, l: Locale)
    requires i < |PATHNAMES|
    ensures var p := PathIn(PATHNAMES[i], l);
            && (AnyPrefix(p, PROTECTED_ROUTES) <==> 6 <= i <= 8)
            && (AnyPrefix(p, AUTH_ROUTES) <==> 4 <= i <= 5)
  {
    if l == FR { ClassifyFrench(i); } else { ClassifyEnglish(i); }
  }

  /** The URL of a table entry reaches the checks, which see the entry's own path. */
  lemma {:induction false} UrlReachesChecks(i: nat, l: Locale)
    requires i < |PATHNAMES|
    ensures !Bypassed(RouteUrl(PATHNAMES[i], l)) && Matched(RouteUrl(PATHNAMES[i], l))
    ensures StripLocale(RouteUrl(PATHNAMES[i], l)) == PathIn(PATHNAMES[i], l)
  {
    var p := PathIn(PATHNAMES[i], l);
    var url := RouteUrl(PATHNAMES[i], l);
    assert p != "";
    StripLocalizedUrl(l, p);
    DiffersAt(url, "/api/", 1);
    DiffersAt(url, "/_next/", 1);
    NoDotInTable(i, l);
    assert '.' !in p;
    assert url == ("/" + LocaleName(l)) + p;
    assert '.' !in "/" + LocaleName(l);
    assert StartsWith(url, "/" + LocaleName(l));
    LocalizedIsMatched(url);
  }

  /** A redirected request is not redirected again: the target page gets the locale router's response. */
  lemma {:induction false} NoRedirectLoop(pathname: string, plain: Option<string>, secure: Option<string>)
    requires Handle(pathname, plain, secure).Redirect?
    ensures Handle(Handle(pathname, plain, secure).location, plain, secure) == Intl
    ensures Run(Handle(pathname, plain, secure).location, plain, secure) == Some(Intl)
  {
    var l := RedirectLocale(pathname);
    RedirectTargetsAreLocalized(l);
    if Handle(pathname, plain, secure).callbackUrl.Some? {
      UrlReachesChecks(4, l);
      ClassifyPath(4, l);
    } else {
      UrlReachesChecks(6, l);
      ClassifyPath(6, l);
    }
  }

  /**
   * The middleware guards exactly the dashboard pages of the routing table:
   * the URL of a page is sent to sign-in without a session iff the page is
   * a dashboard page, and to the dashboard with a session iff it is a
   * sign-in page; every other page gets the locale router's response.
   */
  lemma {:induction false} GuardsMatchRouting(i: nat, l: Locale, plain: Option<string>, secure: Option<string>)
    requires i < |PATHNAMES|
    ensures var r := Handle(RouteUrl(PATHNAMES[i], l), plain, secure);
            && (r.Redirect? && r.callbackUrl.Some? <==> PATHNAMES[i].internal in DASHBOARD_PAGES && !Authenticated(SessionToken(plain, secure)))
            && (r.Redirect? && r.callbackUrl.None? <==> PATHNAMES[i].internal in AUTH_PAGES && Authenticated(SessionToken(plain, secure)))
            && (r == Intl <==> !(PATHNAMES[i].internal in DASHBOARD_PAGES || PATHNAMES[i].internal in AUTH_PAGES)
                               || (PATHNAMES[i].internal in DASHBOARD_PAGES && Authenticated(SessionToken(plain, secure)))
                               || (PATHNAMES[i].internal in AUTH_PAGES && !Authenticated(SessionToken(plain, secure))))
  {
    UrlReachesChecks(i, l);
    ClassifyPath(i, l);
    PathnamesUnambiguous();
    RoutesAreLocalized();
    assert PATHNAMES[i].internal in DASHBOARD_PAGES <==> 6 <= i <= 8;
    assert PATHNAMES[i].internal in AUTH_PAGES <==> 4 <= i <= 5;
  }

  /**
   * `??` keeps a plain cookie even when it is empty: with an empty plain
   * cookie a non-empty secure cookie is ignored and the request counts as
   * signed out.
   */
  lemma EmptyPlainCookieHidesSecure(pathname: string, secure: string)
    requires !Bypassed(pathname) && AnyPrefix(StripLocale(pathname), PROTECTED_ROUTES)
    ensures Handle(pathname, Some(""), Some(secure)) == Redirect(LoginPath(RedirectLocale(pathname)), Some(pathname))
  {
  }
}
