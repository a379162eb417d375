/**
 * The camera-rig coordinator (src/hooks/useCameraRig.ts), discrete part only.
 *
 * Whenever its dependencies (the view mode and whether the orbit controls
 * exist) change, the rig's effect runs: it may write the controls' `enabled`
 * flag and it starts tweens of the camera position and of the controls'
 * look-at target. A tween is only "started" and, later, "completed"; on
 * completion its `onComplete` callback runs. The tween engine is configured
 * by one flag, `overwrite`: when false (the library's default, which the hook
 * relies on) a new tween leaves earlier tweens of the same object running;
 * when true it kills them first.
 */
module CameraRig {
  import opened Wrappers
  import opened ViewState

  datatype Vec3 = Vec3(x: real, y: real, z: real)

  const OverviewPosition: Vec3 := Vec3(3.0, 2.0, 4.0)
  const OverviewTarget: Vec3 := Vec3(0.0, 0.0, 0.0)
  const FocusPosition: Vec3 := Vec3(0.0, 0.6, 1.2)
  const FocusTarget: Vec3 := Vec3(0.0, 0.4, 0.0)
  /** Every tween lasts 1.5 seconds. */
  const Duration: real := 1.5

  /** The object a tween animates: the camera's position or the controls' target. */
  datatype Channel = CameraPosition | ControlsTarget

  /**
   * A tween's `onComplete` callback. The overview position tween's callback
   * enables the controls handle it closed over; `captured` says whether that
   * handle existed when the effect ran.
   */
  datatype Callback = NoCallback | EnableControls(captured: bool)

  datatype Tween = Tween(channel: Channel, to: Vec3, duration: real, onComplete: Callback)

  /** One side effect of the rig's effect body, in program order. */
  datatype SideEffect = WriteEnabled(value: bool) | Launch(tween: Tween)

  /** The effect's dependency values (the camera never changes and is left out). */
  datatype Deps = Deps(mode: ViewMode, hasControls: bool)

  /**
   * What the rig and the tween engine hold: the dependencies the effect last
   * ran with, the controls' `enabled` flag, every tween ever started (by
   * start order) and the indices of those still running.
   */
  datatype RigState = RigState(deps: Option<Deps>, enabled: bool, started: seq<Tween>, running: set<nat>)

  /** Before the first effect: no tween, and the controls enabled as the library creates them. */
  const Mounted: RigState := RigState(None, true, [], {})

  function PositionFor(mode: ViewMode): Vec3 {
    if mode == Focus then FocusPosition else OverviewPosition
  }

  function TargetFor(mode: ViewMode): Vec3 {
    if mode == Focus then FocusTarget else OverviewTarget
  }

  /** The number of tweens of `ch` that `es` starts. */
  function Launches(es: seq<SideEffect>, ch: Channel): nat
    decreases |es|
  {
    if es == [] then 0
    else Launches(es[..|es| - 1], ch) + (if es[|es| - 1].Launch? && es[|es| - 1].tween.channel == ch then 1 else 0)
  }

  /** The side effects of one run of the effect body, in the order it performs them. */
  function EffectBody(mode: ViewMode, hasControls: bool): (r: seq<SideEffect>)
    // With controls, entering focus disables them before anything else happens.
    ensures |r| > 0 && (r[0] == WriteEnabled(false) <==> mode == Focus && hasControls)
    // The only flag write is that one: focus never enables, overview never writes.
    ensures forall e | e in r && e.WriteEnabled? :: e == WriteEnabled(false) && mode == Focus && hasControls
    // Every tween aims at the pose of the new mode and lasts `Duration`.
    ensures forall e | e in r && e.Launch? ::
      e.tween.duration == Duration &&
      e.tween.to == (if e.tween.channel == CameraPosition then PositionFor(mode) else TargetFor(mode))
    // Only the overview position tween has a callback, closing over the controls if present.
    ensures forall e | e in r && e.Launch? && e.tween.onComplete != NoCallback ::
      mode == Overview && e.tween.channel == CameraPosition && e.tween.onComplete == EnableControls(hasControls)
    ensures mode == Overview ==> Launch(Tween(CameraPosition, OverviewPosition, Duration, EnableControls(hasControls))) in r
  {
    if mode == Focus then
      (if hasControls then [WriteEnabled(false)] else [])
      + [Launch(PositionTween(Focus, hasControls))]
      + (if hasControls then [Launch(TargetTween(Focus))] else [])
    else
      [Launch(PositionTween(Overview, hasControls))]
      + (if hasControls then [Launch(TargetTween(Overview))] else [])
  }

  /** The position tween the effect starts for `mode`; only the overview one re-enables the controls. */
  function PositionTween(mode: ViewMode, hasControls: bool): Tween {
    Tween(CameraPosition, PositionFor(mode), Duration,
          if mode == Focus then NoCallback else EnableControls(hasControls))
  }

  /** The target tween the effect starts for `mode` when the controls exist. */
  function TargetTween(mode: ViewMode): Tween {
    Tween(ControlsTarget, TargetFor(mode), Duration, NoCallback)
  }

  lemma {:induction false} LaunchesAppend(a: seq<SideEffect>, b: seq<SideEffect>, ch: Channel)
    ensures Launches(a + b, ch) == Launches(a, ch) + Launches(b, ch)
    decreases |b|
  {
    if b == [] {
      assert a + b == a;
    } else {
      assert (a + b)[..|a + b| - 1] == a + b[..|b| - 1];
      LaunchesAppend(a, b[..|b| - 1], ch);
    }
  }

  /** One position tween always; one target tween exactly when the controls exist. */
  lemma EffectBodyLaunches(mode: ViewMode, hasControls: bool)
    ensures Launches(EffectBody(mode, hasControls), CameraPosition) == 1
    ensures Launches(EffectBody(mode, hasControls), ControlsTarget) == if hasControls then 1 else 0
  {
    var disable: seq<SideEffect> := if mode == Focus && hasControls then [WriteEnabled(false)] else [];
    var position := [Launch(PositionTween(mode, hasControls))];
    var target: seq<SideEffect> := if hasControls then [Launch(TargetTween(mode))] else [];
    assert EffectBody(mode, hasControls) == disable + position + target;
    forall ch: Channel
      ensures Launches(EffectBody(mode, hasControls), ch) == Launches(disable, ch) + Launches(position, ch) + Launches(target, ch)
    {
      LaunchesAppend(disable + position, target, ch);
      LaunchesAppend(disable, position, ch);
    }
    assert Launches(disable, CameraPosition) == 0 && Launches(disable, ControlsTarget) == 0 by {
      if disable != [] { assert disable[..0] == []; }
    }
    assert position[..0] == [];
    if hasControls { assert target[..0] == []; }
  }

  /** Running tweens name started ones. */
  ghost predicate Indexed(s: RigState) {
    forall k | k in s.running :: k < |s.started|
  }

  /** The running tweens that survive the start of a tween of `ch`. */
  function Survivors(s: RigState, overwrite: bool, ch: Channel): (alive: set<nat>)
    ensures alive <= s.running
    ensures !overwrite ==> alive == s.running
    ensures overwrite ==> forall k | k in alive :: k < |s.started| && s.started[k].channel != ch
    ensures overwrite ==> forall k | k in s.running && k < |s.started| && s.started[k].channel != ch :: k in alive
  {
    if overwrite then set k | k in s.running && k < |s.started| && s.started[k].channel != ch
    else s.running
  }

  /** One side effect performed on the rig. */
  function Perform(s: RigState, overwrite: bool, e: SideEffect): (r: RigState)
    ensures r.deps == s.deps
    ensures Indexed(s) ==> Indexed(r)
  {
    match e
    case WriteEnabled(v) => s.(enabled := v)
    case Launch(t) =>
      s.(started := s.started + [t], running := Survivors(s, overwrite, t.channel) + {|s.started|})
  }

  /** Side effects performed in order. */
  function PerformAll(s: RigState, overwrite: bool, es: seq<SideEffect>): (r: RigState)
    ensures r.deps == s.deps
    ensures Indexed(s) ==> Indexed(r)
    decreases |es|
  {
    if es == [] then s else PerformAll(Perform(s, overwrite, es[0]), overwrite, es[1..])
  }

  /**
   * A render of the component that owns the hook: the effect reruns only when
   * its dependencies differ from those it last ran with.
   */
  function Rendered(s: RigState, overwrite: bool, mode: ViewMode, hasControls: bool): (r: RigState)
    ensures r.deps == Some(Deps(mode, hasControls))
    ensures Indexed(s) ==> Indexed(r)
  {
    if s.deps == Some(Deps(mode, hasControls)) then s
    else PerformAll(s.(deps := Some(Deps(mode, hasControls))), overwrite, EffectBody(mode, hasControls))
  }

  /** The tween engine completes running tween `k` and runs its callback. */
  function Finished(s: RigState, k: nat): (r: RigState)
    requires k in s.running && k < |s.started|
    ensures r.deps == s.deps && r.started == s.started
    ensures r.running == s.running - {k}
    // Only a callback that closed over existing controls writes the flag, and it enables them.
    ensures s.started[k].onComplete == EnableControls(true) ==> r.enabled
    ensures s.started[k].onComplete != EnableControls(true) ==> r.enabled == s.enabled
  {
    s.(running := s.running - {k},
       enabled := if s.started[k].onComplete == EnableControls(true) then true else s.enabled)
  }

  lemma {:induction false} PerformAllAppend(s: RigState, overwrite: bool, a: seq<SideEffect>, b: seq<SideEffect>)
    ensures PerformAll(s, overwrite, a + b) == PerformAll(PerformAll(s, overwrite, a), overwrite, b)
    decreases |a|
  {
    if a == [] {
      assert a + b == b;
    } else {
      assert (a + b)[0] == a[0];
      assert (a + b)[1..] == a[1..] + b;
      PerformAllAppend(Perform(s, overwrite, a[0]), overwrite, a[1..], b);
    }
  }

  /** A rerun of the effect, step by step: disable (focus with controls), position tween, target tween (with controls). */
  lemma RenderedSteps(s: RigState, overwrite: bool, mode: ViewMode, hasControls: bool)
    requires s.deps != Some(Deps(mode, hasControls))
    ensures var s1 := s.(deps := Some(Deps(mode, hasControls)));
            var s2 := if mode == Focus && hasControls then s1.(enabled := false) else s1;
            var s3 := Perform(s2, overwrite, Launch(PositionTween(mode, hasControls)));
            Rendered(s, overwrite, mode, hasControls)
              == if hasControls then Perform(s3, overwrite, Launch(TargetTween(mode))) else s3
  {
    var s1 := s.(deps := Some(Deps(mode, hasControls)));
    var disable: seq<SideEffect> := if mode == Focus && hasControls then [WriteEnabled(false)] else [];
    var position := [Launch(PositionTween(mode, hasControls))];
    var target: seq<SideEffect> := if hasControls then [Launch(TargetTween(mode))] else [];
    assert EffectBody(mode, hasControls) == disable + position + target;
    PerformAllAppend(s1, overwrite, disable + position, target);
    PerformAllAppend(s1, overwrite, disable, position);
    if disable != [] { assert disable[1..] == []; }
    assert position[1..] == [];
    if hasControls { assert target[1..] == []; }
  }

  /**
   * What the effect guarantees about the controls flag, whatever the tween
   * engine's overwrite mode: a render never enables the controls; entering
   * focus with controls disables them at once; entering overview leaves the
   * flag alone; a render whose dependencies did not change starts nothing.
   */
  lemma RenderGuarantees(s: RigState, overwrite: bool, mode: ViewMode, hasControls: bool)
    ensures Rendered(s, overwrite, mode, hasControls).enabled ==> s.enabled
    ensures (s.deps != Some(Deps(mode, hasControls)) && mode == Focus && hasControls)
              ==> !Rendered(s, overwrite, mode, hasControls).enabled
    ensures mode == Overview ==> Rendered(s, overwrite, mode, hasControls).enabled == s.enabled
    ensures s.deps == Some(Deps(mode, hasControls)) ==> Rendered(s, overwrite, mode, hasControls) == s
    ensures s.deps != Some(Deps(mode, hasControls)) ==>
              Rendered(s, overwrite, mode, hasControls).started
                == s.started + [PositionTween(mode, hasControls)]
                             + (if hasControls then [TargetTween(mode)] else [])
  {
    if s.deps != Some(Deps(mode, hasControls)) {
      RenderedSteps(s, overwrite, mode, hasControls);
    }
  }

  /** Every tween that carries a callback is an overview position tween. */
  ghost predicate CallbacksOnOverviewPosition(s: RigState) {
    forall k | 0 <= k < |s.started| && s.started[k].onComplete != NoCallback ::
      s.started[k].channel == CameraPosition && s.started[k].to == OverviewPosition
  }

  /** The invariant the hook keeps as written: tween indices are sound and only overview position tweens have callbacks. */
  ghost predicate Sound(s: RigState) {
    Indexed(s) && CallbacksOnOverviewPosition(s)
  }

  lemma RenderKeepsSound(s: RigState, overwrite: bool, mode: ViewMode, hasControls: bool)
    requires Sound(s)
    ensures Sound(Rendered(s, overwrite, mode, hasControls))
  {
    RenderGuarantees(s, overwrite, mode, hasControls);
  }

  /** Completing a tween can only enable the controls, and only through an overview position tween's callback. */
  lemma FinishGuarantees(s: RigState, k: nat)
    requires Sound(s) && k in s.running
    ensures Sound(Finished(s, k))
    ensures Finished(s, k).enabled != s.enabled ==>
              s.started[k].channel == CameraPosition && s.started[k].to == OverviewPosition
  {
  }

  /** A running tween whose completion will enable the controls. */
  ghost predicate UnlockPending(s: RigState) {
    exists k | k in s.running && k < |s.started| :: s.started[k].onComplete == EnableControls(true)
  }

  /** What the hook's focus branch sets out to do: while focused with controls present, free input is disabled. */
  ghost predicate InputLockedInFocus(s: RigState) {
    s.deps == Some(Deps(Focus, true)) ==> !s.enabled
  }

  /** The invariant that holds when every new tween supersedes the running ones of its object. */
  ghost predicate Superseded(s: RigState) {
    && Sound(s)
    && (s.deps.Some? && s.deps.value.mode == Focus ==> !UnlockPending(s))
    && InputLockedInFocus(s)
  }

  /** A position tween started with `overwrite` kills every pending unlock. */
  lemma OverwriteClearsUnlocks(s: RigState, t: Tween)
    requires Sound(s) && t.channel == CameraPosition && t.onComplete == NoCallback
    ensures !UnlockPending(Perform(s, true, Launch(t)))
  {
  }

  /** With `overwrite`, a focus render leaves no pending unlock. */
  lemma SupersedingFocusRender(s: RigState, hasControls: bool)
    requires Sound(s) && s.deps != Some(Deps(Focus, hasControls))
    ensures !UnlockPending(Rendered(s, true, Focus, hasControls))
    ensures hasControls ==> !Rendered(s, true, Focus, hasControls).enabled
  {
    RenderedSteps(s, true, Focus, hasControls);
    var s1 := s.(deps := Some(Deps(Focus, hasControls)));
    var s2 := if hasControls then s1.(enabled := false) else s1;
    OverwriteClearsUnlocks(s2, PositionTween(Focus, hasControls));
  }

  /** Corrected rig: every render keeps the controls locked in focus. */
  lemma SupersedingRenderKeepsLock(s: RigState, mode: ViewMode, hasControls: bool)
    requires Superseded(s)
    ensures Superseded(Rendered(s, true, mode, hasControls))
  {
    RenderKeepsSound(s, true, mode, hasControls);
    if s.deps != Some(Deps(mode, hasControls)) && mode == Focus {
      SupersedingFocusRender(s, hasControls);
    }
  }

  /** Corrected rig: no completion can enable the controls while focused. */
  lemma SupersedingFinishKeepsLock(s: RigState, k: nat)
    requires Superseded(s) && k in s.running
    ensures Superseded(Finished(s, k))
  {
  }

  /**
   * The half of "free input exactly when settled in the overview" that the
   * hook does keep, in either overwrite mode: in the overview with controls,
   * the controls are enabled or a running tween's completion will enable them.
   */
  ghost predicate ReenablePending(s: RigState) {
    s.deps == Some(Deps(Overview, true)) ==> s.enabled || UnlockPending(s)
  }

  /** Every render keeps a re-enable pending in the overview: entering it starts the enabling position tween. */
  lemma RenderKeepsReenable(s: RigState, overwrite: bool, mode: ViewMode, hasControls: bool)
    requires ReenablePending(s)
    ensures ReenablePending(Rendered(s, overwrite, mode, hasControls))
  {
    if s.deps != Some(Deps(mode, hasControls)) && mode == Overview && hasControls {
      RenderedSteps(s, overwrite, mode, hasControls);
      var s3 := Perform(s.(deps := Some(Deps(mode, hasControls))), overwrite, Launch(PositionTween(Overview, true)));
      assert |s.started| in s3.running && s3.started[|s.started|] == PositionTween(Overview, true);
      var r := Rendered(s, overwrite, mode, hasControls);
      assert |s.started| in r.running && r.started[|s.started|] == PositionTween(Overview, true);
    }
  }

  /** Every completion keeps it: the pending tween either still runs or has just enabled the controls. */
  lemma FinishKeepsReenable(s: RigState, k: nat)
    requires ReenablePending(s) && k in s.running && k < |s.started|
    ensures ReenablePending(Finished(s, k))
  {
  }

  /** So once no tween is running in the overview with controls, free input is enabled. */
  lemma SettledOverviewEnabled(s: RigState)
    requires ReenablePending(s)
    requires s.deps == Some(Deps(Overview, true)) && s.running == {}
    ensures s.enabled
  {
  }

  /**
   * As written (no overwrite): open the page, let the controls mount, enter
   * focus before the mount-time overview tween has finished; that tween then
   * completes and its callback enables the controls in focus.
   */
  lemma StaleUnlockAsWritten()
    ensures var s0 := Rendered(Rendered(Mounted, false, Overview, false), false, Overview, true);
            var s1 := Rendered(s0, false, Focus, true);
            && 1 in s1.running && 1 < |s1.started|
            && InputLockedInFocus(s1)
            && !InputLockedInFocus(Finished(s1, 1))
  {
    var m := Rendered(Mounted, false, Overview, false);
    RenderedSteps(Mounted, false, Overview, false);
    var s0 := Rendered(m, false, Overview, true);
    RenderedSteps(m, false, Overview, true);
    assert s0.started[1] == PositionTween(Overview, true) && 1 in s0.running;
    var s1 := Rendered(s0, false, Focus, true);
    RenderedSteps(s0, false, Focus, true);
    assert s1.started[1] == PositionTween(Overview, true) && 1 in s1.running;
  }

  /**
   * Even with overwrite, "enabled iff overview and no tween in flight" is not
   * what the hook does: when the controls mount, the overview tween starts
   * while they are already enabled.
   */
  lemma EnabledWhileTweening(overwrite: bool)
    ensures var s := Rendered(Rendered(Mounted, overwrite, Overview, false), overwrite, Overview, true);
            s.enabled && s.running != {}
  {
    var m := Rendered(Mounted, overwrite, Overview, false);
    RenderedSteps(Mounted, overwrite, Overview, false);
    RenderedSteps(m, overwrite, Overview, true);
  }

  /**
   * The hook together with the tween engine: one mutable record whose fields
   * the effect and the tween callbacks overwrite.
   */
  class Rig {
    const overwrite: bool
    var deps: Option<Deps>
    var enabled: bool
    var started: seq<Tween>
    var running: set<nat>

    function Snapshot(): RigState
      reads this
    {
      RigState(deps, enabled, started, running)
    }

    ghost predicate Valid()
      reads this
    {
      Sound(Snapshot())
    }

    constructor (overwrite: bool)
      ensures this.overwrite == overwrite
      ensures Snapshot() == Mounted && Valid()
    {
      this.overwrite := overwrite;
      deps := None;
      enabled := true;
      started := [];
      running := {};
    }

    /** `gsap.to`: starts a tween, first killing the running ones of the same object when `overwrite` is on. */
    method StartTween(t: Tween)
      modifies this
      ensures Snapshot() == Perform(old(Snapshot()), overwrite, Launch(t))
    {
      if overwrite {
        running := set k | k in running && k < |started| && started[k].channel != t.channel;
      }
      running := running + {|started|};
      started := started + [t];
    }

    /** A render with the current mode and controls; reruns the effect when they changed. */
    method Render(mode: ViewMode, hasControls: bool)
      requires Valid()
      modifies this
      ensures Valid()
      ensures Snapshot() == Rendered(old(Snapshot()), overwrite, mode, hasControls)
    {
      if deps == Some(Deps(mode, hasControls)) {
        return;
      }
      ghost var s := Snapshot();
      RenderedSteps(s, overwrite, mode, hasControls);
      RenderKeepsSound(s, overwrite, mode, hasControls);
      deps := Some(Deps(mode, hasControls));
      if mode == Focus {
        if hasControls {
          enabled := false;
        }
        StartTween(PositionTween(Focus, hasControls));
        if hasControls {
          StartTween(TargetTween(Focus));
        }
      } else {
        StartTween(PositionTween(Overview, hasControls));
        if hasControls {
          StartTween(TargetTween(Overview));
        }
      }
    }

    /** The tween engine completes running tween `k`; its `onComplete` runs. */
    method Finish(k: nat)
      requires Valid() && k in running
      modifies this
      ensures Valid()
      ensures Snapshot() == Finished(old(Snapshot()), k)
    {
      running := running - {k};
      if started[k].onComplete.EnableControls? && started[k].onComplete.captured {
        enabled := true;
      }
    }
  }
}
