/** `LoadingPage`'s deferred completion: `onAppear` schedules a callback, `onDisappear`
    clears `isActive`, and the callback runs `onComplete` only while `isActive` holds. The
    two-second delay is not modelled; a scheduled callback running is the event `Fire`. */
module LoadingTimer {
  import opened Navigation

  /** `isActive`, and how many scheduled callbacks have not run yet. */
  datatype LoadingState = LoadingState(isActive: bool, pending: nat)

  datatype LoadingEvent = Appear | Disappear | Fire

  /** A freshly created page: `@State private var isActive = true`, nothing scheduled. */
  const FRESH := LoadingState(true, 0)

  /** One event; the result's second component tells whether `onComplete` ran. A `Fire` with
      nothing scheduled cannot happen and changes nothing. */
  function LoadingStep(st: LoadingState, ev: LoadingEvent): (r: (LoadingState, bool))
    ensures r.1 <==> ev == Fire && st.isActive && st.pending > 0
    ensures r.0.isActive ==> st.isActive
    ensures ev == Disappear ==> !r.0.isActive
  {
    match ev
    case Appear => (st.(pending := st.pending + 1), false)
    case Disappear => (st.(isActive := false), false)
    case Fire =>
      if st.pending == 0 then (st, false)
      else (st.(pending := st.pending - 1), st.isActive)
  }

  /** The state after the events `evs`. */
  function LoadingRun(st: LoadingState, evs: seq<LoadingEvent>): (r: LoadingState)
    ensures r.isActive ==> st.isActive
    ensures Disappear in evs ==> !r.isActive
    decreases |evs|
  {
    if evs == [] then st else LoadingRun(LoadingStep(st, evs[0]).0, evs[1..])
  }

  /** How many times `onComplete` runs during `evs`. */
  function Completions(st: LoadingState, evs: seq<LoadingEvent>): (n: nat)
    ensures n <= |evs|
    decreases |evs|
  {
    if evs == [] then 0
    else
      var (st1, fired) := LoadingStep(st, evs[0]);
      (if fired then 1 else 0) + Completions(st1, evs[1..])
  }

  /** How many `Appear` events `evs` holds. */
  function Appearances(evs: seq<LoadingEvent>): nat
    decreases |evs|
  {
    if evs == [] then 0 else (if evs[0] == Appear then 1 else 0) + Appearances(evs[1..])
  }

  /** Once the page has disappeared, no later event runs `onComplete`: `onAppear` does not
      reset `isActive`, so a late or repeated timer cannot bring back the recipe. */
  lemma {:induction false} DisappearedNeverCompletes(st: LoadingState, evs: seq<LoadingEvent>)
    requires !st.isActive
    ensures Completions(st, evs) == 0 && !LoadingRun(st, evs).isActive
    decreases |evs|
  {
    if evs != [] {
      DisappearedNeverCompletes(LoadingStep(st, evs[0]).0, evs[1..]);
    }
  }

  /** `onComplete` runs at most once per scheduled callback. */
  lemma {:induction false} CompletionsBoundedBySchedules(st: LoadingState, evs: seq<LoadingEvent>)
    ensures Completions(st, evs) <= st.pending + Appearances(evs)
    decreases |evs|
  {
    if evs != [] {
      CompletionsBoundedBySchedules(LoadingStep(st, evs[0]).0, evs[1..]);
    }
  }

  /** Disappearing and then firing performs no transition, whatever was scheduled. */
  lemma DisappearThenFire(st: LoadingState)
    ensures Completions(st, [Disappear, Fire]) == 0
  {
  }

  /** A page that appears once and stays on screen completes exactly once. */
  lemma AppearThenFireCompletes()
    ensures Completions(FRESH, [Appear, Fire]) == 1
  {
  }

  /** The `LoadingPage` view state, updated in place by its lifecycle callbacks. */
  class LoadingPage {
    var isActive: bool
    var pending: nat

    function State(): LoadingState
      reads this
    {
      LoadingState(isActive, pending)
    }

    constructor ()
      ensures State() == FRESH
    {
      isActive, pending := true, 0;
    }

    /** `onAppear`: schedules the deferred completion. */
    method Appear()
      modifies this
      ensures State() == LoadingStep(old(State()), LoadingEvent.Appear).0
    {
      pending := pending + 1;
    }

    /** `onDisappear`: `isActive = false`. */
    method Disappear()
      modifies this
      ensures State() == LoadingStep(old(State()), LoadingEvent.Disappear).0
    {
      isActive := false;
    }

    /** A scheduled callback runs: `if isActive { onComplete() }`, where `onComplete` is the
        closure `ContentView` wires to the loading screen. */
    method Fire(nav: Navigator) returns (completed: bool)
      requires pending > 0
      modifies this, nav
      ensures (State(), completed) == LoadingStep(old(State()), LoadingEvent.Fire)
      ensures nav.State() == if completed then Step(old(nav.State()), Callback(OverlayPage(Loading), Complete))
                             else old(nav.State())
    {
      pending := pending - 1;
      completed := isActive;
      if isActive {
        var _ := nav.Handle(OverlayPage(Loading), Complete);
      }
    }
  }

  /** The user leaves the loading screen through its home button before the delay elapses: the
      page disappears, and when its callback later runs it does not raise the recipe. */
  method GoHomeWhileLoading(nav: Navigator, page: LoadingPage) returns (completed: bool)
    requires page.pending > 0
    modifies nav, page
    ensures !completed && !page.isActive
    ensures page.State() == LoadingState(false, old(page.pending) - 1)
    ensures nav.State() == Step(old(nav.State()), Callback(OverlayPage(Loading), GoToMain))
    ensures !nav.showLoading && nav.path == [] && nav.showRecipe == old(nav.showRecipe)
  {
    var _ := nav.Handle(OverlayPage(Loading), GoToMain);
    page.Disappear();
    completed := page.Fire(nav);
  }
}
