/**
 * The dashboard's sidebar navigation (src/components/dashboard/SidebarNav.tsx):
 * three links and which of them is highlighted for the current path (the
 * internal, untranslated pathname the locale-aware `usePathname` returns:
 * "/dashboard/projects" also on the French projects page).
 */
module SidebarNav {
  import Text

  datatype NavItem = NavItem(href: string, labelKey: string, exact: bool)

  const OVERVIEW: NavItem := NavItem("/dashboard", "overview", true)
  const PROJECTS: NavItem := NavItem("/dashboard/projects", "projects", false)
  const PROFILE: NavItem := NavItem("/dashboard/profile", "profile", false)

  const NAV_ITEMS: seq<NavItem> := [OVERVIEW, PROJECTS, PROFILE]

  /** `isActive`: the exact item on its own path only, the others on any path they prefix. */
  predicate IsActive(item: NavItem, pathname: string) {
    if item.exact then pathname == item.href else Text.StartsWith(pathname, item.href)
  }

  /** The label keys of the highlighted links, in menu order. */
  function ActiveLabels(pathname: string): (r: seq<string>)
    ensures |r| <= |NAV_ITEMS|
    ensures forall i | 0 <= i < |NAV_ITEMS| :: IsActive(NAV_ITEMS[i], pathname) <==> NAV_ITEMS[i].labelKey in r
  {
    (if IsActive(OVERVIEW, pathname) then [OVERVIEW.labelKey] else [])
    + (if IsActive(PROJECTS, pathname) then [PROJECTS.labelKey] else [])
    + (if IsActive(PROFILE, pathname) then [PROFILE.labelKey] else [])
  }

  /** Every link is highlighted on its own page. */
  lemma OwnPageActive()
    ensures forall item | item in NAV_ITEMS :: IsActive(item, item.href)
  {
  }

  /** Never more than one link is highlighted. */
  lemma {:induction false} AtMostOneActive(pathname: string)
    ensures |ActiveLabels(pathname)| <= 1
  {
    if Text.StartsWith(pathname, PROJECTS.href) {
      assert pathname[14] == PROJECTS.href[14] == 'j' != PROFILE.href[14];
    }
  }

  /**
   * Under a section the section's link is highlighted and the overview's
   * is not: a project's page highlights "projects".
   */
  lemma {:induction false} NestedPageActive(rest: string)
    ensures ActiveLabels(PROJECTS.href + rest) == ["projects"]
    ensures ActiveLabels(PROFILE.href + rest) == ["profile"]
  {
    var p, q := PROJECTS.href + rest, PROFILE.href + rest;
    assert p[..|PROJECTS.href|] == PROJECTS.href;
    assert q[..|PROFILE.href|] == PROFILE.href;
    assert p != OVERVIEW.href && q != OVERVIEW.href by {
      assert |p| > |OVERVIEW.href| && |q| > |OVERVIEW.href|;
    }
    assert p[14] == 'j' && q[14] == 'f';
    assert !Text.StartsWith(p, PROFILE.href) && !Text.StartsWith(q, PROJECTS.href);
  }

  /**
   * The prefix test does not stop at a path segment: a path that merely
   * begins with the projects path, such as "/dashboard/projectsx",
   * highlights "projects" too.
   */
  lemma PrefixNotSegment()
    ensures IsActive(PROJECTS, "/dashboard/projectsx")
    ensures !IsActive(OVERVIEW, "/dashboard/projectsx")
  {
    NestedPageActive("x");
  }
}
