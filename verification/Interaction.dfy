/**
 * The page as one controller: the store, the camera rig, the laptop's
 * `hovered` state and the page cursor, with one method per pointer event the
 * laptop, the overlay and the carousel handle. After every handler the page
 * re-renders: the rig sees the new mode and the cursor effect runs.
 */
module Interaction {
  import opened Wrappers
  import opened Catalog
  import opened ViewState
  import opened CameraRig
  import Laptop
  import Hud
  import Screen

  class App {
    const store: Store
    const rig: Rig
    /** The laptop's local `hovered` state. */
    var hovered: bool
    /** `document.body.style.cursor`. */
    var cursor: string
    /** Whether the orbit controls have registered themselves yet. */
    var controlsReady: bool

    ghost predicate Valid()
      reads this, store, rig
    {
      && store.Valid()
      && rig.Valid()
      && rig.deps == Some(Deps(store.viewMode, controlsReady))
      && cursor == Laptop.Cursor(hovered, store.viewMode)
      && ReenablePending(rig.Snapshot())
      && (rig.overwrite ==> Superseded(rig.Snapshot()))
    }

    /** What the hook's focus branch sets out to do: in focus, once the controls exist, free input is off. */
    ghost predicate InputLocked()
      reads this, store, rig
    {
      store.viewMode == Focus && controlsReady ==> !rig.enabled
    }

    /** The first render: a fresh store, the effect run once in the overview, no controls yet. */
    constructor (overwrite: bool)
      ensures Valid() && fresh(store) && fresh(rig)
      ensures store.Snapshot() == Initial && !hovered && !controlsReady && cursor == "auto"
      ensures rig.overwrite == overwrite && rig.Snapshot() == Rendered(Mounted, overwrite, Overview, false)
    {
      store := new Store();
      rig := new Rig(overwrite);
      hovered := false;
      controlsReady := false;
      new;
      SupersedingRenderKeepsLock(rig.Snapshot(), Overview, false);
      rig.Render(Overview, false);
      cursor := Laptop.Cursor(hovered, store.viewMode);
    }

    /** The re-render after a state change. */
    method Commit()
      requires store.Valid() && rig.Valid()
      modifies this`cursor, rig
      requires ReenablePending(rig.Snapshot())
      requires rig.overwrite ==> Superseded(rig.Snapshot())
      ensures Valid()
      ensures rig.Snapshot() == Rendered(old(rig.Snapshot()), rig.overwrite, store.viewMode, controlsReady)
    {
      if rig.overwrite {
        SupersedingRenderKeepsLock(rig.Snapshot(), store.viewMode, controlsReady);
      }
      RenderKeepsReenable(rig.Snapshot(), rig.overwrite, store.viewMode, controlsReady);
      rig.Render(store.viewMode, controlsReady);
      cursor := Laptop.Cursor(hovered, store.viewMode);
    }

    /** The orbit controls register themselves as the default controls. */
    method MountControls()
      requires Valid()
      modifies this, rig
      ensures Valid() && controlsReady
      ensures store.Snapshot() == old(store.Snapshot()) && hovered == old(hovered)
      ensures rig.Snapshot() == Rendered(old(rig.Snapshot()), rig.overwrite, store.viewMode, true)
    {
      controlsReady := true;
      Commit();
    }

    /** A click on the laptop: it never propagates, and focuses the view only from the overview. */
    method LaptopClick() returns (stopped: bool)
      requires Valid()
      modifies this, store, rig
      ensures Valid() && stopped
      ensures store.Snapshot() == Run(old(store.Snapshot()), Laptop.ClickActions(old(store.viewMode)))
      ensures store.viewMode == Focus
      ensures store.currentProjectIndex == old(store.currentProjectIndex)
      ensures old(store.viewMode) == Focus ==> store.Snapshot() == old(store.Snapshot()) && rig.Snapshot() == old(rig.Snapshot())
      ensures hovered == old(hovered) && controlsReady == old(controlsReady)
      ensures rig.Snapshot() == Rendered(old(rig.Snapshot()), rig.overwrite, Focus, controlsReady)
    {
      stopped := true;
      if store.viewMode == Overview {
        store.SetFocus();
      }
      Laptop.ClickFocuses(old(store.Snapshot()));
      Commit();
    }

    method PointerOver()
      requires Valid()
      modifies this, rig
      ensures Valid() && hovered
      ensures cursor == (if store.viewMode == Overview then "pointer" else "auto")
      ensures store.Snapshot() == old(store.Snapshot()) && rig.Snapshot() == old(rig.Snapshot())
    {
      hovered := true;
      Commit();
    }

    method PointerOut()
      requires Valid()
      modifies this, rig
      ensures Valid() && !hovered && cursor == "auto"
      ensures store.Snapshot() == old(store.Snapshot()) && rig.Snapshot() == old(rig.Snapshot())
    {
      hovered := false;
      Commit();
    }

    /**
     * A click on the overlay layer. In focus the backdrop (reached directly
     * or by bubbling from the exit button) returns to the overview; in the
     * overview the prompt takes no clicks and `handled` is false.
     */
    method OverlayClick(target: Hud.Target) returns (handled: bool)
      requires Valid()
      modifies this, store, rig
      ensures Valid()
      ensures handled <==> old(store.viewMode) == Focus
      ensures hovered == old(hovered) && controlsReady == old(controlsReady)
      ensures store.Snapshot() == Run(old(store.Snapshot()), Hud.ClickActions(Hud.ViewFor(old(store.viewMode)), target))
      ensures store.viewMode == Overview
      ensures store.currentProjectIndex == old(store.currentProjectIndex)
      ensures !handled ==> rig.Snapshot() == old(rig.Snapshot())
      ensures rig.Snapshot() == Rendered(old(rig.Snapshot()), rig.overwrite, Overview, controlsReady)
    {
      handled := Hud.ViewFor(store.viewMode) == Hud.ExitOverlay;
      if handled {
        store.SetOverview();
      }
      Hud.ClickReturnsToOverview(old(store.Snapshot()), target);
      Commit();
    }

    /** The left arrow: stops propagation and calls `prevProject` once. */
    method PrevClick() returns (stopped: bool)
      requires Valid()
      modifies this, store, rig
      ensures Valid() && stopped
      ensures store.Snapshot() == Run(old(store.Snapshot()), Screen.ArrowActions(Screen.Left))
      ensures store.viewMode == old(store.viewMode)
      ensures hovered == old(hovered) && controlsReady == old(controlsReady)
      ensures rig.Snapshot() == old(rig.Snapshot())
    {
      stopped := true;
      store.PrevProject();
      assert Screen.ArrowActions(Screen.Left)[..0] == [];
      Commit();
    }

    /** The right arrow: stops propagation and calls `nextProject` once. */
    method NextClick() returns (stopped: bool)
      requires Valid()
      modifies this, store, rig
      ensures Valid() && stopped
      ensures store.Snapshot() == Run(old(store.Snapshot()), Screen.ArrowActions(Screen.Right))
      ensures store.viewMode == old(store.viewMode)
      ensures hovered == old(hovered) && controlsReady == old(controlsReady)
      ensures rig.Snapshot() == old(rig.Snapshot())
    {
      stopped := true;
      store.NextProject();
      assert Screen.ArrowActions(Screen.Right)[..0] == [];
      Commit();
    }

    /** The tween engine finishes running tween `k`. */
    method TweenComplete(k: nat)
      requires Valid() && k in rig.running
      modifies rig
      ensures Valid()
      ensures rig.Snapshot() == Finished(old(rig.Snapshot()), k)
      ensures rig.overwrite ==> InputLocked()
      ensures store.viewMode == Overview && controlsReady && rig.running == {} ==> rig.enabled
    {
      if rig.overwrite {
        SupersedingFinishKeepsLock(rig.Snapshot(), k);
      }
      FinishKeepsReenable(rig.Snapshot(), k);
      rig.Finish(k);
      if store.viewMode == Overview && controlsReady && rig.running == {} {
        SettledOverviewEnabled(rig.Snapshot());
      }
    }

    /** What the laptop screen shows: always a catalog entry, linking to its repository. */
    function Shown(): (v: Screen.View)
      reads this, store, rig
      requires Valid()
      ensures v.link == Projects[store.currentProjectIndex].repoUrl
      ensures v.title == Projects[store.currentProjectIndex].title
    {
      Screen.ViewAt(store.currentProjectIndex)
    }
  }

  /**
   * The page as written (no tween overwriting): the controls mount, the
   * laptop is clicked before the mount-time overview tween ends, and that
   * tween's completion enables free input in focus.
   */
  method StaleUnlock() returns (app: App)
    ensures app.Valid() && app.store.viewMode == Focus && app.controlsReady
    ensures !app.InputLocked()
  {
    app := new App(false);
    RenderedSteps(Mounted, false, Overview, false);
    ghost var mounted := app.rig.Snapshot();
    app.MountControls();
    RenderedSteps(mounted, false, Overview, true);
    ghost var overview := app.rig.Snapshot();
    assert overview.started[1] == PositionTween(Overview, true) && 1 in overview.running;
    var stopped := app.LaptopClick();
    RenderedSteps(overview, false, Focus, true);
    assert app.rig.started[1] == PositionTween(Overview, true) && 1 in app.rig.running;
    app.TweenComplete(1);
  }

  /** The same events with tweens that supersede earlier ones: input stays locked. */
  method NoStaleUnlock() returns (app: App)
    ensures app.Valid() && app.store.viewMode == Focus && app.controlsReady
    ensures app.InputLocked()
  {
    app := new App(true);
    app.MountControls();
    var stopped := app.LaptopClick();
    if 1 in app.rig.running {
      app.TweenComplete(1);
    }
  }

  /** A session: focus, a second laptop click, exit through the button, and a wrap-around of the carousel. */
  method Session() returns (app: App)
    ensures app.Valid() && app.store.viewMode == Overview && app.store.currentProjectIndex == 0
  {
    app := new App(false);
    var stopped := app.LaptopClick();
    assert app.store.viewMode == Focus;
    ghost var rigBefore := app.rig.Snapshot();
    stopped := app.LaptopClick();
    assert app.rig.Snapshot() == rigBefore;
    var handled := app.OverlayClick(Hud.ExitButton);
    assert handled && app.store.viewMode == Overview;
    stopped := app.PrevClick();
    assert app.store.currentProjectIndex == 5;
    stopped := app.NextClick();
    assert app.store.currentProjectIndex == 0;
  }
}
