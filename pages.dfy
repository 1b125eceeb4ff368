/**
 * The two page controllers (the dashboard and the home page share the same
 * logic): which view is shown, manual view switching, and the two-click
 * reset of the session.
 */
module Pages {
  import opened Wrappers
  import opened Types
  import opened TournamentContext

  /** `AppView`. */
  datatype View = Setup | Tracker | Results

  /**
   * The derived `view`: a manual choice wins; otherwise setup while loading,
   * then the tracker when there is a tournament and setup when there is none.
   */
  function DeriveView(manualView: Option<View>, state: State): (v: View)
    ensures manualView.Some? ==> v == manualView.value
    ensures manualView.None? ==> (v == Tracker <==> !state.isLoading && state.tournament.Some?)
    ensures manualView.None? ==> v != Results
  {
    if manualView.Some? then manualView.value
    else if state.isLoading then Setup
    else if state.tournament.Some? then Tracker
    else Setup
  }

  /** What the page renders: the loading screen while loading, else the derived view. */
  datatype Screen = LoadingScreen | ViewScreen(view: View)

  function PageScreen(manualView: Option<View>, state: State): (s: Screen)
    ensures s.LoadingScreen? <==> state.isLoading
    ensures s.ViewScreen? ==> s.view == DeriveView(manualView, state)
  {
    if state.isLoading then LoadingScreen else ViewScreen(DeriveView(manualView, state))
  }

  /** Without a manual choice, loading a saved tournament shows the tracker and loading none shows setup. */
  lemma MountShowsSavedSession(state: State, saved: Option<Tournament>, now: string, freshId: string)
    ensures DeriveView(None, Reduce(state, LoadTournament(saved), now, freshId)) == (if saved.Some? then Tracker else Setup)
  {
  }

  /** Without a manual choice, creating a tournament after loading moves from setup to the tracker. */
  lemma CreateShowsTracker(state: State, title: string, format: Format, playerLeaderId: string,
                           date: Option<string>, playerCount: Option<int>, now: string, freshId: string)
    requires !state.isLoading
    ensures DeriveView(None, Reduce(state, CreateTournament(title, format, playerLeaderId, date, playerCount), now, freshId)) == Tracker
  {
  }

  /** After a reset with the manual choice cleared, the page is back at setup. */
  lemma ResetShowsSetup(state: State, now: string, freshId: string)
    ensures DeriveView(None, Reduce(state, Action.ResetTournament, now, freshId)) == Setup
  {
  }

  /**
   * The page's own state over the session it reads: the manual view and
   * whether the reset button is armed.
   */
  class PageController {
    const session: Session
    var manualView: Option<View>
    var showResetConfirm: bool

    constructor (session: Session)
      ensures this.session == session && manualView.None? && !showResetConfirm
    {
      this.session := session;
      manualView, showResetConfirm := None, false;
    }

    function CurrentView(): View
      reads this, session
    {
      DeriveView(manualView, session.state)
    }

    /** `setView`: the chosen view becomes the manual choice and is shown. */
    method SetView(v: View)
      modifies this`manualView
      ensures manualView == Some(v) && CurrentView() == v
    {
      manualView := Some(v);
    }

    /**
     * `handleReset`: the first click arms the button; a click on the armed
     * button resets the session, clears the saved entry, drops the manual
     * view and disarms, which brings the page back to setup.
     */
    method HandleReset()
      modifies this, session, session.storage
      ensures old(showResetConfirm) ==>
        && session.state == old(session.state).(tournament := None)
        && session.storage.slot == (if session.storage.inBrowser then None else old(session.storage.slot))
        && manualView.None? && !showResetConfirm
        && CurrentView() == Setup
      ensures !old(showResetConfirm) ==>
        && showResetConfirm && manualView == old(manualView)
        && session.state == old(session.state) && session.storage.slot == old(session.storage.slot)
    {
      if showResetConfirm {
        session.ResetTournament();
        manualView := None;
        showResetConfirm := false;
      } else {
        showResetConfirm := true;
      }
    }

    /** The three-second timer set by an arming click disarms the button. */
    method TimerFires()
      modifies this`showResetConfirm
      ensures !showResetConfirm
    {
      showResetConfirm := false;
    }
  }

  /** Two clicks on reset, from any view, end at setup with no tournament and nothing saved. */
  method ResetTwice(page: PageController)
    requires !page.showResetConfirm && page.session.storage.inBrowser
    modifies page, page.session, page.session.storage
    ensures page.session.state.tournament.None? && page.session.storage.slot.None?
    ensures page.CurrentView() == Setup
  {
    page.HandleReset();
    page.HandleReset();
  }
}
