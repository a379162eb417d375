/**
 * The view-state store (src/stores/useStore.ts): the current view mode and the
 * carousel index, changed only by the four store actions. `State`, `Step` and
 * `Run` are the value-level specification; `Store` is the mutable record.
 */
module ViewState {
  import opened Wrappers
  import opened Catalog

  /** `ViewMode` of src/types/index.ts. */
  datatype ViewMode = Overview | Focus

  /** A snapshot of the store's two fields. */
  datatype State = State(viewMode: ViewMode, currentProjectIndex: int)

  /** The four store actions. */
  datatype Action = SetFocus | SetOverview | NextProject | PrevProject

  /** The store as created. */
  const Initial: State := State(Overview, 0)

  /** The index invariant: the index always names a catalog entry. */
  predicate WellFormed(s: State) {
    0 <= s.currentProjectIndex < N
  }

  /**
   * JavaScript's `%` on integral numbers: the remainder of division truncated
   * toward zero, so it carries the sign of the dividend (Dafny's `%` is Euclidean).
   */
  function JsRem(a: int, n: int): (r: int)
    requires n > 0
    ensures 0 <= a ==> r == a % n
    ensures a < 0 ==> -n < r <= 0
  {
    if a >= 0 then a % n else -((-a) % n)
  }

  /** The index `nextProject` stores. */
  function NextIndex(i: int): (r: int)
    ensures 0 <= i < N ==> 0 <= r < N
    ensures 0 <= i < N - 1 ==> r == i + 1
    ensures i == N - 1 ==> r == 0
  {
    JsRem(i + 1, N)
  }

  /** The index `prevProject` stores. */
  function PrevIndex(i: int): (r: int)
    ensures 0 <= i < N ==> 0 <= r < N
    ensures 0 < i < N ==> r == i - 1
    ensures i == 0 ==> r == N - 1
  {
    JsRem(i - 1 + N, N)
  }

  /** One store action applied to a snapshot. */
  function Step(s: State, a: Action): (r: State)
    ensures WellFormed(s) ==> WellFormed(r)
    ensures a.NextProject? || a.PrevProject? ==> r.viewMode == s.viewMode
    ensures a.SetFocus? || a.SetOverview? ==> r.currentProjectIndex == s.currentProjectIndex
  {
    match a
    case SetFocus => s.(viewMode := Focus)
    case SetOverview => s.(viewMode := Overview)
    case NextProject => s.(currentProjectIndex := NextIndex(s.currentProjectIndex))
    case PrevProject => s.(currentProjectIndex := PrevIndex(s.currentProjectIndex))
  }

  /** A sequence of store actions applied in order, the last one last. */
  function Run(s: State, acts: seq<Action>): (r: State)
    ensures WellFormed(s) ==> WellFormed(r)
    decreases |acts|
  {
    if acts == [] then s else Step(Run(s, acts[..|acts| - 1]), acts[|acts| - 1])
  }

  /** The mode named by a mode action. */
  function ModeSetBy(a: Action): Option<ViewMode> {
    match a
    case SetFocus => Some(Focus)
    case SetOverview => Some(Overview)
    case _ => None
  }

  /** The mode set by the latest mode action of `acts`, if there is one. */
  function LastModeSet(acts: seq<Action>): Option<ViewMode>
    decreases |acts|
  {
    if acts == [] then None
    else if ModeSetBy(acts[|acts| - 1]).Some? then ModeSetBy(acts[|acts| - 1])
    else LastModeSet(acts[..|acts| - 1])
  }

  /** How far one action moves the carousel. */
  function Shift(a: Action): int {
    match a
    case NextProject => 1
    case PrevProject => -1
    case _ => 0
  }

  /** The number of `nextProject` calls minus the number of `prevProject` calls. */
  function Net(acts: seq<Action>): int
    decreases |acts|
  {
    if acts == [] then 0 else Net(acts[..|acts| - 1]) + Shift(acts[|acts| - 1])
  }

  /** `k` calls of the same action. */
  function Repeat(a: Action, k: nat): (acts: seq<Action>)
    ensures |acts| == k
    ensures forall i :: 0 <= i < k ==> acts[i] == a
  {
    seq(k, _ => a)
  }

  /** Calling `setFocus` or `setOverview` sets that mode, keeps the index, and a second call changes nothing. */
  lemma ModeActionIdempotent(s: State, a: Action)
    requires ModeSetBy(a).Some?
    ensures Step(s, a).viewMode == ModeSetBy(a).value
    ensures Step(s, a).currentProjectIndex == s.currentProjectIndex
    ensures Step(Step(s, a), a) == Step(s, a)
    ensures s.viewMode == ModeSetBy(a).value ==> Step(s, a) == s
  {
  }

  /** `nextProject` then `prevProject`, or the reverse, restores the index and the mode. */
  lemma NextPrevRoundTrip(s: State)
    requires WellFormed(s)
    ensures Step(Step(s, NextProject), PrevProject) == s
    ensures Step(Step(s, PrevProject), NextProject) == s
  {
  }

  /** After any sequence of mode actions the mode is the one the latest of them set. */
  lemma {:induction false} RunModeIsLastSet(s: State, acts: seq<Action>)
    ensures Run(s, acts).viewMode == (if LastModeSet(acts).Some? then LastModeSet(acts).value else s.viewMode)
    decreases |acts|
  {
    if acts != [] {
      RunModeIsLastSet(s, acts[..|acts| - 1]);
    }
  }

  /** After any sequence of actions the index has moved by `Net(acts)` around the catalog. */
  lemma {:induction false} RunIndex(s: State, acts: seq<Action>)
    requires WellFormed(s)
    ensures Run(s, acts).currentProjectIndex == (s.currentProjectIndex + Net(acts)) % N
    decreases |acts|
  {
    if acts != [] {
      var init := acts[..|acts| - 1];
      RunIndex(s, init);
      var j := Run(s, init).currentProjectIndex;
      var x := s.currentProjectIndex + Net(init);
      assert j == x % N;
      match acts[|acts| - 1]
      case NextProject =>
        assert NextIndex(j) == (x + 1) % N;
      case PrevProject =>
        assert PrevIndex(j) == (x - 1) % N;
      case _ =>
    }
  }

  lemma {:induction false} NetRepeat(a: Action, k: nat)
    ensures Net(Repeat(a, k)) == k * Shift(a)
  {
    if k > 0 {
      assert Repeat(a, k)[..k - 1] == Repeat(a, k - 1);
      NetRepeat(a, k - 1);
    }
  }

  /** `k` calls of `nextProject` give `(i + k) mod N`. */
  lemma NextCycles(s: State, k: nat)
    requires WellFormed(s)
    ensures Run(s, Repeat(NextProject, k)).currentProjectIndex == (s.currentProjectIndex + k) % N
  {
    NetRepeat(NextProject, k);
    RunIndex(s, Repeat(NextProject, k));
  }

  /** `k` calls of `prevProject` give `(i - k) mod N`. */
  lemma PrevCycles(s: State, k: nat)
    requires WellFormed(s)
    ensures Run(s, Repeat(PrevProject, k)).currentProjectIndex == (s.currentProjectIndex - k) % N
  {
    NetRepeat(PrevProject, k);
    RunIndex(s, Repeat(PrevProject, k));
  }

  /** `N` calls of `nextProject` return the store to the state it started from. */
  lemma FullCycle(s: State)
    requires WellFormed(s)
    ensures Run(s, Repeat(NextProject, N)) == s
  {
    var r := Run(s, Repeat(NextProject, N));
    NextCycles(s, N);
    assert r.currentProjectIndex == s.currentProjectIndex;
    RunModeIsLastSet(s, Repeat(NextProject, N));
    NoModeSet(Repeat(NextProject, N));
  }

  lemma {:induction false} NoModeSet(acts: seq<Action>)
    requires forall i :: 0 <= i < |acts| ==> ModeSetBy(acts[i]).None?
    ensures LastModeSet(acts).None?
    decreases |acts|
  {
    if acts != [] {
      NoModeSet(acts[..|acts| - 1]);
    }
  }

  /** With the six-entry catalog: from index 0, `prevProject` gives 5, then `nextProject` gives 0 again. */
  lemma WrapScenario()
    ensures N == 6
    ensures Run(Initial, [PrevProject]).currentProjectIndex == 5
    ensures Run(Initial, [PrevProject, NextProject]).currentProjectIndex == 0
    ensures Run(Initial, Repeat(NextProject, 6)) == Initial
  {
    FullCycle(Initial);
    assert [PrevProject, NextProject][..1] == [PrevProject];
  }

  /**
   * The store: one mutable record whose two fields the four actions overwrite.
   * Each action's new state is `Step` of the old one.
   */
  class Store {
    var viewMode: ViewMode
    var currentProjectIndex: int

    function Snapshot(): State
      reads this
    {
      State(viewMode, currentProjectIndex)
    }

    ghost predicate Valid()
      reads this
    {
      WellFormed(Snapshot())
    }

    constructor ()
      ensures Snapshot() == Initial && Valid()
    {
      viewMode := Overview;
      currentProjectIndex := 0;
    }

    method SetFocus()
      requires Valid()
      modifies this
      ensures Valid()
      ensures Snapshot() == Step(old(Snapshot()), Action.SetFocus)
    {
      viewMode := Focus;
    }

    method SetOverview()
      requires Valid()
      modifies this
      ensures Valid()
      ensures Snapshot() == Step(old(Snapshot()), Action.SetOverview)
    {
      viewMode := Overview;
    }

    method NextProject()
      requires Valid()
      modifies this
      ensures Valid()
      ensures Snapshot() == Step(old(Snapshot()), Action.NextProject)
    {
      currentProjectIndex := JsRem(currentProjectIndex + 1, N);
    }

    method PrevProject()
      requires Valid()
      modifies this
      ensures Valid()
      ensures Snapshot() == Step(old(Snapshot()), Action.PrevProject)
    {
      currentProjectIndex := JsRem(currentProjectIndex - 1 + N, N);
    }
  }
}
