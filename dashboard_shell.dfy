/**
 * The dashboard frame (src/components/dashboard/DashboardShell.tsx): the
 * user's initials shown in the sidebar, and the mobile sidebar that the top
 * bar's button toggles and the overlay closes.
 */
module DashboardShell {
  import opened Common
  import Text

  /** `n[0]?.toUpperCase() ?? ""`. */
  function Initial(part: string): string {
    if part == [] then "" else [Text.UpperChar(part[0])]
  }

  /**
   * `initials`: "U" without a name (absent or empty); otherwise the first
   * characters, upper-cased, of the first two pieces of the name split at
   * single spaces.
   */
  function Initials(name: Option<string>): (r: string)
    ensures |r| <= 2
    ensures name.None? || name.value == "" ==> r == "U"
  {
    if name.None? || name.value == "" then "U"
    else
      var parts := Text.Split(name.value, ' ');
      Initial(parts[0]) + (if |parts| >= 2 then Initial(parts[1]) else "")
  }

  /**
   * A name of two or more words gives the initials of its first two, and
   * a single word its own initial.
   */
  lemma {:induction false} InitialsOfWords(first: string, second: string, rest: string)
    requires first != [] && second != [] && ' ' !in first && ' ' !in second
    ensures Initials(Some(first + " " + second + rest)) == [Text.UpperChar(first[0]), Text.UpperChar(second[0])]
    ensures Initials(Some(first)) == [Text.UpperChar(first[0])]
  {
    Text.SplitNoSep(first, ' ');
    Text.SplitFirst(first, second + rest, ' ');
    assert first + " " + second + rest == first + [' '] + (second + rest);
    Text.SplitHead(second + rest, ' ');
    assert (second + rest)[0] == second[0];
  }

  /** Only words are counted: a leading double space leaves two empty pieces and no initials. */
  lemma LeadingSpacesQuirk()
    ensures Initials(Some("  Ada")) == ""
    ensures Initials(Some("u")) == "U"
  {
    assert Text.Split("  Ada", ' ')[..2] == ["", ""];
  }

  /** The mobile sidebar, closed at first. */
  class Shell {
    var sidebarOpen: bool

    constructor ()
      ensures !sidebarOpen
    {
      sidebarOpen := false;
    }

    /** The top bar's menu button. */
    method Toggle()
      modifies this
      ensures sidebarOpen == !old(sidebarOpen)
    {
      sidebarOpen := !sidebarOpen;
    }

    /** A click on the overlay, which is shown only while the sidebar is open. */
    method CloseOverlay()
      requires sidebarOpen
      modifies this
      ensures !sidebarOpen
    {
      sidebarOpen := false;
    }
  }
}
