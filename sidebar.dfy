/** The navigation sidebar (`components/Sidebar.tsx`): the one-slot
    expanded-section state toggled by the Projects and Recent headers, which
    item is highlighted for the current path, and what the collapsed rail hides. */
module Sidebar {
  import opened Wrappers
  import App
  import Text

  /** The two collapsible sections, `"projects"` and `"tasks"`. */
  datatype Section = Projects | Tasks

  /** The main navigation's targets: New task, Search and Library. */
  const MainNavPaths: seq<string> := ["/", "/search", "/tasks"]
  const AllTasksPath := "/tasks"
  const SettingsPath := "/settings"
  const RecentTaskPath := "/task/1"

  /** A header click: the clicked section closes when it is the open one and
      otherwise opens, which closes the other. */
  function Toggled(current: Option<Section>, clicked: Section): (next: Option<Section>)
    ensures next == None <==> current == Some(clicked)
    ensures next != None ==> next == Some(clicked)
  {
    if current == Some(clicked) then None else Some(clicked)
  }

  /** Two clicks on the same header return to where it started when that section
      was open, and otherwise leave nothing open. */
  lemma ToggledTwice(current: Option<Section>, clicked: Section)
    ensures Toggled(Toggled(current, clicked), clicked) == (if current == Some(clicked) then current else None)
  {
  }

  /** Which buttons carry the active style: the main items, "All tasks" and Settings. */
  datatype Highlights = Highlights(main: seq<bool>, allTasks: bool, settings: bool)

  /** A button is highlighted exactly when the current path is its own target. */
  function HighlightsFor(pathname: string): (h: Highlights)
    ensures |h.main| == |MainNavPaths|
    ensures forall k | 0 <= k < |h.main| :: h.main[k] <==> pathname == MainNavPaths[k]
    ensures h.allTasks <==> pathname == AllTasksPath
    ensures h.settings <==> pathname == SettingsPath
  {
    Highlights(
      seq(|MainNavPaths|, k requires 0 <= k < |MainNavPaths| => pathname == MainNavPaths[k]),
      pathname == AllTasksPath,
      pathname == SettingsPath)
  }

  /** At most one main item is highlighted; "All tasks" is highlighted exactly
      together with Library, both on `/tasks`; and Settings is never highlighted
      together with any other button. */
  lemma HighlightsAgree(pathname: string)
    ensures forall j, k | 0 <= j < k < |MainNavPaths| :: !(HighlightsFor(pathname).main[j] && HighlightsFor(pathname).main[k])
    ensures HighlightsFor(pathname).allTasks <==> HighlightsFor(pathname).main[2]
    ensures HighlightsFor(pathname).allTasks <==> pathname == "/tasks"
    ensures HighlightsFor(pathname).settings ==>
              !HighlightsFor(pathname).allTasks && forall k | 0 <= k < |MainNavPaths| :: !HighlightsFor(pathname).main[k]
  {
    var h := HighlightsFor(pathname);
    assert MainNavPaths[1][1] == 's' && MainNavPaths[2][1] == 't' && SettingsPath[2] == 'e' && MainNavPaths[1][2] == 'e';
    assert |MainNavPaths[0]| == 1 && |MainNavPaths[2]| == 6 && |SettingsPath| == 9;
    forall j, k | 0 <= j < k < |MainNavPaths|
      ensures !(h.main[j] && h.main[k])
    {
      assert MainNavPaths[j] != MainNavPaths[k];
    }
    if h.settings {
      forall k | 0 <= k < |MainNavPaths|
        ensures !h.main[k]
      {
        assert MainNavPaths[k] != SettingsPath;
      }
    }
  }

  /** Every place the sidebar navigates to is a page behind the guard. */
  lemma TargetsArePrivatePages()
    ensures App.Match(MainNavPaths[0]).page == App.IndexPage
    ensures App.Match(MainNavPaths[1]).page == App.SearchPage
    ensures App.Match(MainNavPaths[2]).page == App.TasksPage
    ensures App.Match(SettingsPath).page == App.SettingsPage
    ensures App.Match(RecentTaskPath).page == App.TaskPage("1")
    ensures forall k | 0 <= k < |MainNavPaths| :: App.Match(MainNavPaths[k]).guarded
    ensures App.Match(SettingsPath).guarded && App.Match(RecentTaskPath).guarded
  {
    assert App.StripTrailingSlashes("/") == [];
    assert App.StripTrailingSlashes("/search") == "/search";
    assert App.StripTrailingSlashes("/tasks") == "/tasks";
    assert App.StripTrailingSlashes("/settings") == "/settings";
    assert App.StripTrailingSlashes("/task/1") == "/task/1";
    var key := Text.Lower("/task/1");
    assert key == "/task/1";
    assert "/task/1"[6..] == "1";
  }

  /** What the sidebar shows. */
  datatype Layout = Layout(
    width: string,
    logo: bool,
    labels: bool,
    projectsSection: bool,
    projectsList: bool,
    tasksSection: bool,
    recentList: bool,
    promo: bool)

  /** The rendering rules: the collapsed rail is narrow and shows icons only; an
      expanded list appears only inside its visible section. */
  function LayoutFor(collapsed: bool, expanded: Option<Section>): (l: Layout)
    ensures l.width == (if collapsed then "w-16" else "w-64")
    ensures l.logo == l.labels == l.projectsSection == l.tasksSection == l.promo == !collapsed
    ensures l.projectsList <==> l.projectsSection && expanded == Some(Projects)
    ensures l.recentList <==> l.tasksSection && expanded == Some(Tasks)
    ensures !(l.projectsList && l.recentList)
  {
    Layout(
      if collapsed then "w-16" else "w-64",
      !collapsed, !collapsed, !collapsed,
      !collapsed && expanded == Some(Projects),
      !collapsed,
      !collapsed && expanded == Some(Tasks),
      !collapsed)
  }

  /** The component's own state. */
  class SidebarState {
    var expanded: Option<Section>

    /** The Recent list starts open. */
    constructor()
      ensures expanded == Some(Tasks)
    {
      expanded := Some(Tasks);
    }

    /** The Projects header's click. */
    method ClickProjects()
      modifies this`expanded
      ensures expanded == Toggled(old(expanded), Projects)
    {
      expanded := if expanded == Some(Projects) then None else Some(Projects);
    }

    /** The Recent header's click. */
    method ClickRecent()
      modifies this`expanded
      ensures expanded == Toggled(old(expanded), Tasks)
    {
      expanded := if expanded == Some(Tasks) then None else Some(Tasks);
    }

    function View(collapsed: bool): (l: Layout)
      reads this
      ensures l == LayoutFor(collapsed, expanded)
    {
      LayoutFor(collapsed, expanded)
    }
  }

  /** On a fresh sidebar: opening Projects hides Recent, closing Projects leaves
      nothing open, and opening Recent shows only Recent. */
  method ProjectsThenRecent() returns (first: Layout, second: Layout, third: Layout)
    ensures first.projectsList && !first.recentList
    ensures !second.projectsList && !second.recentList
    ensures !third.projectsList && third.recentList
  {
    var bar := new SidebarState();
    bar.ClickProjects();
    first := bar.View(false);
    bar.ClickProjects();
    second := bar.View(false);
    bar.ClickRecent();
    third := bar.View(false);
  }
}
