/**
 * The sitemap (src/app/sitemap.ts): for every public route, one entry for
 * its French URL followed by one for its English URL. The base URL is the
 * configured site URL when set, the local development server otherwise.
 */
module Sitemap {
  import opened Common
  import Middleware

  const DEFAULT_BASE_URL: string := "http://localhost:3000"

  /** `process.env.NEXTAUTH_URL ?? "http://localhost:3000"`. */
  function BaseUrl(env: Option<string>): (b: string)
    ensures env.Some? ==> b == env.value
    ensures env.None? ==> b == DEFAULT_BASE_URL
  {
    if env.Some? then env.value else DEFAULT_BASE_URL
  }

  datatype ChangeFrequency = Always | Hourly | Daily | Weekly | Monthly | Yearly | Never

  datatype PublicRoute = PublicRoute(fr: string, en: string, priority: real, changeFrequency: ChangeFrequency)

  /** The indexed pages: only the two home pages. */
  const PUBLIC_ROUTES: seq<PublicRoute> := [PublicRoute("/fr", "/en", 1.0, Weekly)]

  datatype Entry = Entry(url: string, lastModified: int, changeFrequency: ChangeFrequency, priority: real)

  /** The entry for one localized path of a route. */
  function EntryFor(base: string, path: string, route: PublicRoute, now: int): Entry {
    Entry(base + path, now, route.changeFrequency, route.priority)
  }

  /**
   * The loop of `sitemap()`: two pushes per route, French first. `now` is
   * the `new Date()` of the call.
   */
  method Build(routes: seq<PublicRoute>, base: string, now: int) returns (entries: seq<Entry>)
    ensures |entries| == 2 * |routes|
    ensures forall i | 0 <= i < |routes| ::
              && entries[2 * i] == EntryFor(base, routes[i].fr, routes[i], now)
              && entries[2 * i + 1] == EntryFor(base, routes[i].en, routes[i], now)
  {
    entries := [];
    for k := 0 to |routes|
      invariant |entries| == 2 * k
      invariant forall i | 0 <= i < k ::
                  && entries[2 * i] == EntryFor(base, routes[i].fr, routes[i], now)
                  && entries[2 * i + 1] == EntryFor(base, routes[i].en, routes[i], now)
    {
      var route := routes[k];
      entries := entries + [EntryFor(base, route.fr, route, now)];
      entries := entries + [EntryFor(base, route.en, route, now)];
    }
  }

  /** `sitemap()`. */
  method Generate(env: Option<string>, now: int) returns (entries: seq<Entry>)
    ensures |entries| == 2 * |PUBLIC_ROUTES|
    ensures forall i | 0 <= i < |PUBLIC_ROUTES| ::
              && entries[2 * i] == EntryFor(BaseUrl(env), PUBLIC_ROUTES[i].fr, PUBLIC_ROUTES[i], now)
              && entries[2 * i + 1] == EntryFor(BaseUrl(env), PUBLIC_ROUTES[i].en, PUBLIC_ROUTES[i], now)
    ensures forall e | e in entries :: e.lastModified == now && e.priority == 1.0 && e.changeFrequency == Weekly
  {
    entries := Build(PUBLIC_ROUTES, BaseUrl(env), now);
    var route := PUBLIC_ROUTES[0];
    assert route.priority == 1.0 && route.changeFrequency == Weekly;
    assert entries == [EntryFor(BaseUrl(env), route.fr, route, now), EntryFor(BaseUrl(env), route.en, route, now)];
  }

  /**
   * Every indexed path is public: whatever the cookies, the middleware
   * hands it to the locale router (no redirect, no bypass).
   */
  lemma PublicRoutesArePublic(i: nat, plain: Option<string>, secure: Option<string>)
    requires i < |PUBLIC_ROUTES|
    ensures Middleware.Handle(PUBLIC_ROUTES[i].fr, plain, secure) == Middleware.Intl
    ensures Middleware.Handle(PUBLIC_ROUTES[i].en, plain, secure) == Middleware.Intl
  {
    var fr, en := PUBLIC_ROUTES[i].fr, PUBLIC_ROUTES[i].en;
    assert fr == "/fr" && en == "/en";
    assert Middleware.StripLocale(fr) == "/" && Middleware.StripLocale(en) == "/";
    Middleware.ProtectedIffDashboard("/");
    Middleware.AuthIffSignIn("/");
    Middleware.DiffersAt(fr, "/api/", 1);
    Middleware.DiffersAt(fr, "/_next/", 1);
    Middleware.DiffersAt(en, "/api/", 1);
    Middleware.DiffersAt(en, "/_next/", 1);
  }
}
