/**
 * Internationalised routing (src/i18n/routing.ts and src/i18n/request.ts):
 * the two locales, French by default, every URL prefixed with its locale,
 * and the table that gives each internal page its French and English path.
 */
module I18n {
  import opened Common

  datatype Locale = FR | EN

  /** The locale as it appears in a URL and in `routing.locales`. */
  function LocaleName(l: Locale): string {
    match l
    case FR => "fr"
    case EN => "en"
  }

  const LOCALES: seq<Locale> := [FR, EN]
  const DEFAULT_LOCALE: Locale := FR

  /** A locale name from the outside world, if it is a supported one. */
  function ParseLocale(s: string): (r: Option<Locale>)
    ensures r.Some? <==> exists l: Locale :: LocaleName(l) == s
    ensures r.Some? ==> LocaleName(r.value) == s && r.value in LOCALES
  {
    if s == "fr" then assert LocaleName(FR) == s; Some(FR)
    else if s == "en" then assert LocaleName(EN) == s; Some(EN)
    else assert s != LocaleName(FR) && s != LocaleName(EN); None
  }

  /** One entry of `pathnames`: an internal page and its path in each locale. */
  datatype Route = Route(internal: string, fr: string, en: string)

  function PathIn(r: Route, l: Locale): string {
    match l
    case FR => r.fr
    case EN => r.en
  }

  const PATHNAMES: seq<Route> := [
    Route("/", "/", "/"),
    Route("/services", "/services", "/services"),
    Route("/about", "/a-propos", "/about"),
    Route("/contact", "/contact", "/contact"),
    Route("/login", "/connexion", "/login"),
    Route("/register", "/inscription", "/register"),
    Route("/dashboard", "/tableau-de-bord", "/dashboard"),
    Route("/dashboard/projects", "/tableau-de-bord/projets", "/dashboard/projects"),
    Route("/dashboard/profile", "/tableau-de-bord/profil", "/dashboard/profile"),
    Route("/privacy", "/confidentialite", "/privacy"),
    Route("/terms", "/conditions-utilisation", "/terms")
  ]

  /** The path of an internal page in a locale (the first entry naming it). */
  function Find(routes: seq<Route>, internal: string, l: Locale): (r: Option<string>)
    ensures r.Some? <==> exists i | 0 <= i < |routes| :: routes[i].internal == internal
    ensures r.Some? ==> exists i | 0 <= i < |routes| :: routes[i].internal == internal && PathIn(routes[i], l) == r.value
  {
    if routes == [] then None
    else if routes[0].internal == internal then Some(PathIn(routes[0], l))
    else
      var r := Find(routes[1..], internal, l);
      assert forall i | 1 <= i < |routes| :: routes[i] == routes[1..][i - 1];
      assert r.Some? ==> exists i | 0 <= i < |routes| - 1 :: routes[1..][i].internal == internal && PathIn(routes[1..][i], l) == r.value;
      r
  }

  /** The internal page a localized path stands for (what the router does with an incoming URL). */
  function FindInternal(routes: seq<Route>, path: string, l: Locale): (r: Option<string>)
    ensures r.Some? <==> exists i | 0 <= i < |routes| :: PathIn(routes[i], l) == path
  {
    if routes == [] then None
    else if PathIn(routes[0], l) == path then Some(routes[0].internal)
    else
      assert forall i | 1 <= i < |routes| :: routes[i] == routes[1..][i - 1];
      FindInternal(routes[1..], path, l)
  }

  /** No internal page is listed twice and no two pages share a path in any locale. */
  predicate Unambiguous(routes: seq<Route>) {
    forall i, j | 0 <= i < j < |routes| ::
      && routes[i].internal != routes[j].internal
      && routes[i].fr != routes[j].fr
      && routes[i].en != routes[j].en
  }

  /** The path of an internal page in a locale; routing that path back gives the page. */
  function Localize(internal: string, l: Locale): (r: Option<string>)
    ensures r.Some? <==> exists i | 0 <= i < |PATHNAMES| :: PATHNAMES[i].internal == internal
    ensures r.Some? ==> FindInternal(PATHNAMES, r.value, l) == Some(internal)
  {
    var r := Find(PATHNAMES, internal, l);
    PathnamesUnambiguous();
    if r.Some? then FindRoundTrip(PATHNAMES, internal, r.value, l); r else r
  }

  /** The internal page a localized path stands for; localizing that page gives the path. */
  function Delocalize(path: string, l: Locale): (r: Option<string>)
    ensures r.Some? <==> exists i | 0 <= i < |PATHNAMES| :: PathIn(PATHNAMES[i], l) == path
    ensures r.Some? ==> Find(PATHNAMES, r.value, l) == Some(path)
  {
    var r := FindInternal(PATHNAMES, path, l);
    PathnamesUnambiguous();
    if r.Some? then FindRoundTrip(PATHNAMES, r.value, path, l); r else r
  }

  /** The URL path of a table entry in a locale (`localePrefix: "always"`). */
  function RouteUrl(r: Route, l: Locale): string {
    "/" + LocaleName(l) + PathIn(r, l)
  }

  lemma {:induction false} FindRoundTrip(routes: seq<Route>, internal: string, path: string, l: Locale)
    requires Unambiguous(routes)
    ensures Find(routes, internal, l) == Some(path) <==> FindInternal(routes, path, l) == Some(internal)
    decreases |routes|
  {
    if routes != [] && routes[0].internal != internal && PathIn(routes[0], l) != path {
      UnambiguousTail(routes);
      FindRoundTrip(routes[1..], internal, path, l);
    } else if routes != [] && routes[0].internal == internal && PathIn(routes[0], l) != path {
      // the path of `internal` is routes[0]'s; `path` can only be another entry's, with another name
      if FindInternal(routes, path, l).Some? {
        var i :| 0 < i < |routes| && PathIn(routes[i], l) == path;
        FindNames(routes[1..], path, l);
        assert routes[1..][i - 1] == routes[i];
      }
    } else if routes != [] && routes[0].internal != internal && PathIn(routes[0], l) == path {
      if Find(routes, internal, l).Some? {
        var j :| 0 <= j < |routes| && routes[j].internal == internal && PathIn(routes[j], l) == Find(routes, internal, l).value;
        assert j != 0;
        assert PathIn(routes[j], l) != PathIn(routes[0], l);
      }
    }
  }

  /** `FindInternal` names the internal page of an entry whose path it matched. */
  lemma {:induction false} FindNames(routes: seq<Route>, path: string, l: Locale)
    ensures FindInternal(routes, path, l).Some? ==>
      exists i | 0 <= i < |routes| :: PathIn(routes[i], l) == path && routes[i].internal == FindInternal(routes, path, l).value
    decreases |routes|
  {
    if routes != [] && PathIn(routes[0], l) != path {
      FindNames(routes[1..], path, l);
      if FindInternal(routes, path, l).Some? {
        var i :| 0 <= i < |routes[1..]| && PathIn(routes[1..][i], l) == path && routes[1..][i].internal == FindInternal(routes, path, l).value;
        assert routes[i + 1] == routes[1..][i];
      }
    }
  }

  lemma UnambiguousTail(routes: seq<Route>)
    requires routes != [] && Unambiguous(routes)
    ensures Unambiguous(routes[1..])
  {
    forall i, j | 0 <= i < j < |routes[1..]|
      ensures routes[1..][i].internal != routes[1..][j].internal
      ensures routes[1..][i].fr != routes[1..][j].fr && routes[1..][i].en != routes[1..][j].en
    {
      assert routes[1..][i] == routes[i + 1] && routes[1..][j] == routes[j + 1];
    }
  }

  /** In an unambiguous table, an entry's page is found at that entry. */
  lemma {:induction false} FindAt(routes: seq<Route>, i: nat, l: Locale)
    requires Unambiguous(routes) && i < |routes|
    ensures Find(routes, routes[i].internal, l) == Some(PathIn(routes[i], l))
    decreases i
  {
    if i > 0 {
      assert routes[0].internal != routes[i].internal;
      UnambiguousTail(routes);
      FindAt(routes[1..], i - 1, l);
      assert routes[1..][i - 1] == routes[i];
    }
  }

  /** The routing table is unambiguous, so each locale's paths name the internal pages one to one. */
  lemma PathnamesUnambiguous()
    ensures Unambiguous(PATHNAMES)
  {
    InternalsDistinct();
    FrenchDistinct();
    EnglishDistinct();
  }

  lemma InternalsDistinct()
    ensures forall i, j | 0 <= i < j < |PATHNAMES| :: PATHNAMES[i].internal != PATHNAMES[j].internal
  {
  }

  lemma FrenchDistinct()
    ensures forall i, j | 0 <= i < j < |PATHNAMES| :: PATHNAMES[i].fr != PATHNAMES[j].fr
  {
  }

  lemma EnglishDistinct()
    ensures forall i, j | 0 <= i < j < |PATHNAMES| :: PATHNAMES[i].en != PATHNAMES[j].en
  {
  }

  /** Each entry of the table gives its own page's path. */
  lemma LocalizeAt(i: nat, l: Locale)
    requires i < |PATHNAMES|
    ensures Localize(PATHNAMES[i].internal, l) == Some(PathIn(PATHNAMES[i], l))
  {
    PathnamesUnambiguous();
    FindAt(PATHNAMES, i, l);
  }

  /** Localizing a page and routing its path back give the page again, in both locales. */
  lemma LocalizeRoundTrip(internal: string, path: string, l: Locale)
    ensures Localize(internal, l) == Some(path) <==> Delocalize(path, l) == Some(internal)
  {
    PathnamesUnambiguous();
    FindRoundTrip(PATHNAMES, internal, path, l);
  }

  /**
   * The request configuration's locale: the requested one when it is
   * supported, the default otherwise (missing, empty or unknown).
   */
  function RequestLocale(requested: Option<string>): (l: Locale)
    ensures l in LOCALES
    ensures requested.Some? && ParseLocale(requested.value).Some? ==> LocaleName(l) == requested.value
    ensures (requested.None? || ParseLocale(requested.value).None?) ==> l == DEFAULT_LOCALE
  {
    if requested.None? || requested.value == "" then DEFAULT_LOCALE
    else match ParseLocale(requested.value)
      case None => DEFAULT_LOCALE
      case Some(l) => l
  }

  /** The message catalogue loaded for a locale: French for "fr", English otherwise. */
  function MessagesFile(l: Locale): (f: string)
    ensures f == "./" + LocaleName(l) + ".json"
  {
    if l == FR then "./fr.json" else "./en.json"
  }
}
