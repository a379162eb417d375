/**
 * The laptop hit target (src/components/canvas/world/Laptop.tsx): the store
 * actions a click issues and the cursor it asks for.
 */
module Laptop {
  import opened ViewState

  /** A click on the laptop calls `setFocus` only while the view is the overview. */
  function ClickActions(mode: ViewMode): (acts: seq<Action>)
    ensures acts == [] || acts == [SetFocus]
    ensures acts != [] <==> mode == Overview
  {
    if mode == Overview then [SetFocus] else []
  }

  /** The page cursor: a pointer while the laptop is hovered in the overview, else the default. */
  function Cursor(hovered: bool, mode: ViewMode): (c: string)
    ensures c == "pointer" || c == "auto"
    ensures c == "pointer" <==> hovered && mode == Overview
  {
    if hovered && mode == Overview then "pointer" else "auto"
  }

  /** After any laptop click the view is focused and the carousel has not moved. */
  lemma ClickFocuses(s: State)
    ensures Run(s, ClickActions(s.viewMode)).viewMode == Focus
    ensures Run(s, ClickActions(s.viewMode)).currentProjectIndex == s.currentProjectIndex
    ensures s.viewMode == Focus ==> Run(s, ClickActions(s.viewMode)) == s
  {
    if s.viewMode == Overview {
      assert ClickActions(s.viewMode)[..0] == [];
    }
  }
}

/**
 * The heads-up overlay (src/components/dom/HUD.tsx): a prompt in the overview,
 * a full-screen backdrop with an "Exit Focus" button in focus.
 */
module Hud {
  import opened Wrappers
  import opened ViewState

  datatype View = Prompt | ExitOverlay

  /** Where on the overlay layer a click lands. */
  datatype Target = Backdrop | ExitButton

  function ViewFor(mode: ViewMode): (v: View)
    ensures v == Prompt <==> mode == Overview
    ensures v == ExitOverlay <==> mode == Focus
  {
    match mode
    case Overview => Prompt
    case Focus => ExitOverlay
  }

  /**
   * The elements a click on `target` passes as it bubbles up the overlay,
   * innermost first, each with the action of its `onClick` handler if it has
   * one. The prompt takes no pointer events, so a click goes through it.
   */
  function Path(v: View, target: Target): seq<Option<Action>> {
    match v
    case Prompt => []
    case ExitOverlay =>
      match target
      case Backdrop => [Some(SetOverview)]
      case ExitButton => [None, None, Some(SetOverview)]
  }

  /** The actions that the handlers along a bubbling path call, in order. */
  function Fired(path: seq<Option<Action>>): (acts: seq<Action>)
    ensures |acts| <= |path|
    ensures forall a | a in acts :: Some(a) in path
    decreases |path|
  {
    if path == [] then []
    else (if path[0].Some? then [path[0].value] else []) + Fired(path[1..])
  }

  /** A click on the overlay calls `setOverview` once in focus, wherever it lands, and does nothing in the overview. */
  function ClickActions(v: View, target: Target): (acts: seq<Action>)
    ensures acts == if v == ExitOverlay then [SetOverview] else []
  {
    FiredExitPath();
    Fired(Path(v, target))
  }

  /** The exit button and its wrapper have no handler: the click bubbles past them to the backdrop. */
  lemma FiredExitPath()
    ensures Fired([None, None, Some(SetOverview)]) == [SetOverview]
  {
    var last: seq<Option<Action>> := [Some(SetOverview)];
    assert last[1..] == [];
    var wrapped: seq<Option<Action>> := [None] + last;
    assert wrapped[1..] == last;
    assert [None] + wrapped == [None, None, Some(SetOverview)] && ([None] + wrapped)[1..] == wrapped;
  }

  /** An overlay click leaves the view in the overview and the carousel where it was. */
  lemma ClickReturnsToOverview(s: State, target: Target)
    ensures Run(s, ClickActions(ViewFor(s.viewMode), target)).viewMode == Overview
    ensures Run(s, ClickActions(ViewFor(s.viewMode), target)).currentProjectIndex == s.currentProjectIndex
  {
    if s.viewMode == Focus {
      assert [SetOverview][..0] == [];
    }
  }
}

/**
 * The laptop screen (src/components/dom/Screen.tsx): the displayed catalog
 * entry and the carousel arrows.
 */
module Screen {
  import opened Catalog
  import opened ViewState

  /** What the screen shows for one catalog entry. */
  datatype View = View(title: string, description: string, tags: seq<string>, image: string, link: string)

  /** The screen for the entry at `index`; the "View Code" link goes to that entry's repository. */
  function ViewAt(index: int): (v: View)
    requires 0 <= index < N
    ensures v.link == Projects[index].repoUrl
    ensures v.title == Projects[index].title && v.tags == Projects[index].tech
  {
    var project := Projects[index];
    View(project.title, project.description, project.tech, project.screenshot, project.repoUrl)
  }

  /** The arrows: left calls `prevProject` once, right calls `nextProject` once. */
  datatype Arrow = Left | Right

  function ArrowActions(arrow: Arrow): (acts: seq<Action>)
    ensures |acts| == 1
    ensures acts[0] == if arrow == Left then PrevProject else NextProject
  {
    match arrow
    case Left => [PrevProject]
    case Right => [NextProject]
  }

  /** An arrow click moves the carousel by one, keeps it on the catalog and leaves the mode alone. */
  lemma ArrowMovesByOne(s: State, arrow: Arrow)
    requires WellFormed(s)
    ensures WellFormed(Run(s, ArrowActions(arrow)))
    ensures Run(s, ArrowActions(arrow)).viewMode == s.viewMode
    ensures Run(s, ArrowActions(arrow)).currentProjectIndex
              == (s.currentProjectIndex + (if arrow == Left then -1 else 1)) % N
  {
    var acts := ArrowActions(arrow);
    assert acts[..0] == [];
    RunIndex(s, acts);
  }
}
