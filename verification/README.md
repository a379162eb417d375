# virtual-desk view state, modelled in Dafny

The portfolio page shows a desk with a laptop. The laptop's screen pages through a catalog of six projects. The page has two view modes:

- **overview**: the camera frames the whole desk and the orbit controls accept free input.
- **focus**: the camera frames the laptop screen.

Clicking the laptop enters focus. Clicking the full-screen overlay leaves it. This project models the logic behind those modes:

- the zustand store that holds `viewMode` and `currentProjectIndex`, with its four actions;
- the camera-rig hook, in discrete form. The model records which tweens were started, which are still running, and the orbit controls' `enabled` flag. A tween's `onComplete` callback runs when the tween engine completes it;
- the handlers of the laptop, the overlay (HUD) and the carousel arrows, together in one controller class.

Files:

- `Wrappers.dfy`: `Option`.
- `Catalog.dfy`: the project records and `N = projects.length` (6).
- `ViewState.dfy`: `State`, `Step` and `Run` form the value-level specification of the store. The `Store` class is the mutable record, and each of its methods is proved to perform `Step`.
- `CameraRig.dfy`: the specification is `EffectBody`, the ordered side effects of one run of the effect, plus `Rendered` and `Finished`. The `Rig` class is proved against them. The constant `overwrite` selects the tween engine's overwrite mode:
  - `false` is what the hook does: GSAP's default is used, and earlier tweens are never killed;
  - `true` means every new tween first kills the running tweens of the same object.
- `Surfaces.dfy`: three modules (`Laptop`, `Hud`, `Screen`). They hold the pure parts of the three components: which store actions a click issues, the cursor rule, the HUD branch, the overlay's bubbling path, and the screen view.
- `Interaction.dfy`: the `App` controller. It owns the store, the rig, the laptop's `hovered` state and the page cursor, with one method per pointer event. After each handler it re-renders, so the rig's effect and the cursor effect see the new state.

The store's index arithmetic uses JavaScript's truncating `%`, written out as `JsRem`. On non-negative dividends it agrees with Dafny's Euclidean `%`, and the store only ever gives it non-negative ones.

In two places the page's intended behaviour and its code differ. The model follows the code each time:

- The intent is that a new camera transition supersedes any tween still in flight. The hook never kills or overwrites earlier tweens (see Findings).
- The intent is for free input to be enabled if and only if the view is the overview and no transition is in flight. The hook keeps one half of that: in the overview with controls, once no tween is running, input is enabled (`CameraRig.ReenablePending`, `CameraRig.SettledOverviewEnabled`). The other half fails. `CameraRig.EnabledWhileTweening` shows a case: when the controls mount, an overview tween starts while the controls are already enabled.

## Model

| member | source | states |
|---|---|---|
| `ViewState.JsRem` | src/stores/useStore.ts:25 | JavaScript `%` on a non-negative dividend equals the mathematical remainder; on a negative one it lies in `(-n, 0]` |
| `ViewState.NextIndex` | src/stores/useStore.ts:24-26 | for an index on the catalog: the result is on the catalog, one more except that the last index wraps to 0 |
| `ViewState.PrevIndex` | src/stores/useStore.ts:28-30 | for an index on the catalog: the result is on the catalog, one less except that 0 wraps to `N - 1` |
| `ViewState.Step` | src/stores/useStore.ts:21-30 | each action keeps the index invariant; carousel actions leave the mode alone; mode actions leave the index alone |
| `ViewState.Run` | src/stores/useStore.ts:17-31 | any sequence of actions keeps the index invariant `0 <= currentProjectIndex < N` |
| `ViewState.ModeActionIdempotent` | src/stores/useStore.ts:21-22 | `setFocus`/`setOverview` set their mode and keep the index; a second call changes nothing; the call is a no-op when the store is already in that mode |
| `ViewState.NextPrevRoundTrip` | src/stores/useStore.ts:24-30 | next-then-prev and prev-then-next restore the state |
| `ViewState.RunModeIsLastSet` | src/stores/useStore.ts:21-22 | after any action sequence the mode is the one set by the latest mode action, or the initial mode if there was none |
| `ViewState.RunIndex` | src/stores/useStore.ts:24-30 | after any action sequence the index is `(i + nexts - prevs) mod N` |
| `ViewState.NextCycles` | src/stores/useStore.ts:24-26 | k calls of `nextProject` give `(i + k) mod N` |
| `ViewState.PrevCycles` | src/stores/useStore.ts:28-30 | k calls of `prevProject` give `(i - k) mod N` |
| `ViewState.FullCycle` | src/stores/useStore.ts:24-26 | N calls of `nextProject` return the store to its starting state |
| `ViewState.WrapScenario` | src/data/projects.ts:3-52 | N is 6; from index 0, prev gives 5 and a following next gives 0; six nexts from the initial state return to it |
| `ViewState.Store.constructor` | src/stores/useStore.ts:17-19 | the store starts in the overview at index 0, satisfying the invariant |
| `ViewState.Store.SetFocus` | src/stores/useStore.ts:21 | the new state is `Step(old, SetFocus)`, and the index stays on the catalog |
| `ViewState.Store.SetOverview` | src/stores/useStore.ts:22 | the new state is `Step(old, SetOverview)`, and the index stays on the catalog |
| `ViewState.Store.NextProject` | src/stores/useStore.ts:24-26 | the new state is `Step(old, NextProject)`, and the index stays on the catalog |
| `ViewState.Store.PrevProject` | src/stores/useStore.ts:28-30 | the new state is `Step(old, PrevProject)`, and the index stays on the catalog |
| `CameraRig.EffectBody` | src/hooks/useCameraRig.ts:25-73 | in focus with controls, the first effect is disabling them. The only flag write is that `false`: the focus branch never enables and the overview branch never writes. Every tween aims at the new mode's pose and lasts 1.5. Only the overview position tween carries a callback, and it closes over the controls |
| `CameraRig.EffectBodyLaunches` | src/hooks/useCameraRig.ts:30-51 | the effect always starts exactly one position tween, and a target tween exactly when the controls exist (the lines cited are the focus branch; the overview branch at src/hooks/useCameraRig.ts:54-73 is the same) |
| `CameraRig.Survivors` | src/hooks/useCameraRig.ts:30 | without overwrite no running tween is killed; with it, exactly the running tweens of other objects survive |
| `CameraRig.Rendered` | src/hooks/useCameraRig.ts:75 | after a render the effect's recorded dependencies are the current ones; running tweens stay indexed |
| `CameraRig.Finished` | src/hooks/useCameraRig.ts:60-62 | a completion removes that tween from the running set. A callback that captured the controls enables them; any other completion leaves the flag as it was |
| `CameraRig.RenderedSteps` | src/hooks/useCameraRig.ts:22-75 | a rerun performs, in order: disable (focus with controls), start the position tween, start the target tween (with controls) |
| `CameraRig.RenderGuarantees` | src/hooks/useCameraRig.ts:25-75 | a render never enables the controls. Entering focus with controls disables them. Entering the overview leaves the flag unchanged. A render with unchanged dependencies changes nothing, so repeating `setFocus` starts no tween |
| `CameraRig.RenderKeepsSound` | src/hooks/useCameraRig.ts:54-63 | every tween with a callback is an overview position tween, and this holds after every render |
| `CameraRig.FinishGuarantees` | src/hooks/useCameraRig.ts:60-62 | completions keep that invariant; a completion that changes the flag belongs to an overview position tween |
| `CameraRig.OverwriteClearsUnlocks` | src/hooks/useCameraRig.ts:30-36 | with overwrite, starting a focus position tween leaves no pending enabling callback |
| `CameraRig.SupersedingFocusRender` | src/hooks/useCameraRig.ts:25-51 | with overwrite, a focus render leaves no pending unlock, and with controls it leaves them disabled |
| `CameraRig.SupersedingRenderKeepsLock` | src/hooks/useCameraRig.ts:22-75 | with overwrite, every render preserves "in focus with controls, input is disabled" |
| `CameraRig.SupersedingFinishKeepsLock` | src/hooks/useCameraRig.ts:60-62 | with overwrite, every tween completion preserves that lock |
| `CameraRig.RenderKeepsReenable` | src/hooks/useCameraRig.ts:54-63 | in either overwrite mode, every render keeps "in the overview with controls, the controls are enabled or a running tween will enable them": entering the overview starts the enabling position tween, and the target tween does not kill it |
| `CameraRig.FinishKeepsReenable` | src/hooks/useCameraRig.ts:60-62 | every completion keeps it: the pending tween still runs, or it is the one completing and enables the controls |
| `CameraRig.SettledOverviewEnabled` | src/hooks/useCameraRig.ts:54-63 | under that invariant, in the overview with controls and no tween running, the controls are enabled |
| `CameraRig.StaleUnlockAsWritten` | src/hooks/useCameraRig.ts:54-63 | as written: an overview tween started before a switch to focus later completes and enables input in focus |
| `CameraRig.EnabledWhileTweening` | src/hooks/useCameraRig.ts:54-73 | in either mode, when the controls mount the overview tweens run while input is enabled |
| `CameraRig.Rig.constructor` | src/components/canvas/Experience.tsx:28-36 | the rig starts with no tweens and with the controls enabled, as the controls library creates them |
| `CameraRig.Rig.StartTween` | src/hooks/useCameraRig.ts:30-36 | `gsap.to` appends the tween and marks it running, killing the same object's tweens only with overwrite |
| `CameraRig.Rig.Render` | src/hooks/useCameraRig.ts:22-75 | the new rig state is `Rendered` of the old one |
| `CameraRig.Rig.Finish` | src/hooks/useCameraRig.ts:60-62 | the new rig state is `Finished` of the old one |
| `Laptop.ClickActions` | src/components/canvas/world/Laptop.tsx:18-21 | a laptop click calls `setFocus` if and only if the view is the overview, and nothing else |
| `Laptop.Cursor` | src/components/canvas/world/Laptop.tsx:11-13 | the cursor is `pointer` if and only if the laptop is hovered in the overview, otherwise `auto` |
| `Laptop.ClickFocuses` | src/components/canvas/world/Laptop.tsx:18-21 | after a laptop click the view is focused and the index is unchanged; in focus the click changes nothing |
| `Hud.ViewFor` | src/components/dom/HUD.tsx:8-29 | the prompt is shown if and only if the mode is overview; the exit overlay if and only if it is focus |
| `Hud.ClickActions` | src/components/dom/HUD.tsx:18-27 | the handlers along the bubbling path fire these actions: in focus a click on the backdrop or on the handler-less exit button calls `setOverview` exactly once; in the overview the layer takes no click |
| `Hud.ClickReturnsToOverview` | src/components/dom/HUD.tsx:21 | after an overlay click the mode is overview and the index is unchanged |
| `Screen.ViewAt` | src/components/dom/Screen.tsx:10-53 | the screen for an index on the catalog shows that project, and "View Code" links to its `repoUrl` |
| `Screen.ArrowActions` | src/components/dom/Screen.tsx:62-73 | the left arrow issues exactly one `prevProject` and the right arrow exactly one `nextProject` |
| `Screen.ArrowMovesByOne` | src/components/dom/Screen.tsx:62-73 | an arrow click moves the index by ∓1 modulo N, keeps it on the catalog and keeps the mode |
| `Interaction.App.constructor` | src/components/Layout.tsx:5-11 | first render: initial store, effect run once in the overview without controls, cursor `auto` |
| `Interaction.App.MountControls` | src/components/canvas/Experience.tsx:28-36 | registering the controls re-runs the rig's effect with controls and leaves the store alone |
| `Interaction.App.LaptopClick` | src/components/canvas/world/Laptop.tsx:18-21 | stops propagation and performs the store actions of `Laptop.ClickActions`. Afterwards the mode is focus and the index is unchanged. In focus nothing changes, neither the store nor the rig |
| `Interaction.App.PointerOver` | src/components/canvas/world/Laptop.tsx:22 | `hovered` becomes true; the cursor becomes `pointer` in the overview and `auto` in focus |
| `Interaction.App.PointerOut` | src/components/canvas/world/Laptop.tsx:23 | `hovered` becomes false and the cursor `auto`; store and rig unchanged |
| `Interaction.App.OverlayClick` | src/components/dom/HUD.tsx:8-29 | handled if and only if the view was focused. It performs `Hud.ClickActions`, leaves the mode at overview and the index unchanged, and restarts the rig accordingly; `hovered` is unchanged, so the cursor follows the new mode |
| `Interaction.App.PrevClick` | src/components/dom/Screen.tsx:62-63 | stops propagation and performs exactly one `prevProject`; the mode, the rig and `hovered` (hence the cursor) are unchanged |
| `Interaction.App.NextClick` | src/components/dom/Screen.tsx:68-69 | stops propagation and performs exactly one `nextProject`; the mode, the rig and `hovered` (hence the cursor) are unchanged |
| `Interaction.App.TweenComplete` | src/hooks/useCameraRig.ts:60-62 | the rig becomes `Finished`. With overwrite, input stays locked in focus. In either mode, once no tween runs in the overview with controls, input is enabled |
| `Interaction.App.Shown` | src/components/dom/Screen.tsx:6-10 | under the store invariant the lookup `projects[currentProjectIndex]` is in bounds, and the link is that project's `repoUrl` |
| `Interaction.StaleUnlock` | src/hooks/useCameraRig.ts:54-63 | as written, end to end: controls mount, laptop click, the mount-time overview tween completes, and free input is on in focus |
| `Interaction.NoStaleUnlock` | src/hooks/useCameraRig.ts:54-63 | the same events with overwrite leave input locked |
| `Interaction.Session` | src/components/dom/Screen.tsx:62-73 | a session (focus, a second laptop click that changes nothing, exit through the button, one left and one right arrow) ends valid, in the overview, at project 0 after wrapping to 5 and back |

## Findings

| source | as written | input that shows it | evidently intended | confidence | as-written member | corrected member |
|---|---|---|---|---|---|---|
| src/hooks/useCameraRig.ts:54-63 | tweens are started with the default overwrite mode, so an overview position tween is never killed; its `onComplete` sets `enabled = true` even after a later switch to focus | the controls mount, then the laptop is clicked within 1.5 s of page load (or focus is re-entered within 1.5 s of leaving it); the earlier overview tween completes and free orbit input is on while focused | a new transition supersedes the running tweens of the same object (`overwrite: true`), so input stays disabled throughout focus, as the comment at line 26 says | high; not executed | `CameraRig.StaleUnlockAsWritten`, `Interaction.StaleUnlock` | `CameraRig.SupersedingFinishKeepsLock`, `Interaction.NoStaleUnlock` |

The corrected rig is `Rig` built with `overwrite = true`. `App.Valid` carries the corrected invariant whenever the rig overwrites, and `Interaction.NoStaleUnlock` replays the finding's events against it. `App` takes the mode as a constructor argument; `false` is the page as written.

## Left out

- Floating-point camera motion: easing (`power2.inOut`), per-frame interpolation and `camera.lookAt` in `onUpdate` are not modelled. A tween is only started and completed, and the poses and the duration are recorded constants.
- Time: which running tween completes next is the environment's choice (`Rig.Finish`/`App.TweenComplete`, for any running tween). The model does not capture that tweens started together finish together.
- The `camera` dependency of the effect never changes and is left out of `Deps`. The controls handle is modelled only as absent or present: a replacement by a different controls object is not modelled.
- React and zustand scheduling: every store update is an atomic field assignment, followed by one re-render that runs the rig effect and the cursor effect.
- Hit-testing and stacking order between the overlay, the canvas and the laptop's HTML screen are not modelled. An overview click on the overlay layer is reported as not handled, and where it lands beneath is left to the caller.
- `Rig.Finish` and `App.TweenComplete` require a running tween: the tween engine completes only tweens it is running.
- src/components/canvas/world/Desk.tsx (procedural texture from `Math.random`, canvas drawing), src/components/canvas/staging/Lights.tsx and Room.tsx, the layout markup and the canvas/controls configuration in Experience.tsx are scene content with no view-state logic. The only thing the model takes from them is that the controls start enabled.
- The screen's and the HUD's visual chrome, and the `Html` transform and scale of the laptop screen.
- JavaScript numbers are doubles; the index arithmetic is modelled on integers, which is exact for the values 0 to 6 that occur.
