/** The session-setup view: the team/patch/phase/role pickers and the run-analysis
    action, a state machine over the shared record plus the view's own
    `isValidating` flag. The 1200 ms wait splits the action in two: `RunAnalysis`
    is the part before the `await`, `Resume` the part after it. */
module MatchSetup {
  import opened Wrappers
  import opened MatchContext

  const Teams: seq<string> := ["Team Alpha vs Team Beta", "Team Gamma vs Team Delta", "Team Epsilon vs Team Zeta"]
  const Patches: seq<string> := ["STRATOS 1.0 (PRO)", "STRATOS 0.9", "LEGACY 9.4"]
  const Phases: seq<string> := ["Synchronized Full", "Early Neural", "Mid Convergence", "Late Terminal"]
  const Roles: seq<string> := ["Neural Core", "Vanguard", "Pathfinder", "Focus", "Execution", "Support"]

  const TeamRequired: string := "SYSERR: TEAM_MATCH_REQUIRED"
  const SyncFailed: string := "Failed to sync neural context. Retry."
  const DashboardRoute: string := "/dashboard"

  /** The three teams the picker offers besides the placeholder; none of them is the
      "no team" sentinel, so choosing any of them makes the run action proceed. */
  function SelectableTeams(): (r: seq<string>)
    ensures |r| == 3
    ensures forall i :: 0 <= i < |r| ==> r[i] != NoTeam
  {
    Teams
  }

  /** The run button is disabled while a validation or a load is in progress. */
  predicate RunDisabled(isValidating: bool, s: MatchState) {
    isValidating || s.isLoading
  }

  /** Once an initiation has passed the team check the button is disabled, and the
      end of the wait enables it again. */
  lemma StartedRunIsDisabled(s: MatchState)
    ensures RunDisabled(true, SetError(SetLoading(s, true), None))
    ensures !RunDisabled(false, SetLoading(s, false))
  {
  }

  class SetupView {
    /** The provider's record, reached through `useMatch`. */
    var state: MatchState
    /** The view-local `isValidating` flag. */
    var isValidating: bool
    /** The routes passed to `router.push`, oldest first. */
    var navigations: seq<string>
    /** How many run-analysis calls are waiting on the 1200 ms timer. */
    var inFlight: nat

    /** A run is in flight exactly while the view validates, and at most one is:
        the button is disabled for as long as a run waits. */
    ghost predicate Valid()
      reads this
    {
      inFlight <= 1 && (inFlight == 1 <==> isValidating)
    }

    constructor (s: MatchState)
      ensures state == s && !isValidating && navigations == [] && inFlight == 0
      ensures Valid()
    {
      state, isValidating, navigations, inFlight := s, false, [], 0;
    }

    function Disabled(): bool
      reads this
    {
      RunDisabled(isValidating, state)
    }

    /** Choosing a team sets it and clears any error message. */
    method SelectTeam(team: string)
      requires Valid()
      modifies this`state
      ensures Valid()
      ensures state == SetError(UpdateTeam(old(state), team), None)
      ensures state.selectedTeam == team && state.error == None
    {
      state := UpdateTeam(state, team);
      state := SetError(state, None);
    }

    method SelectPatch(patch: string)
      requires Valid()
      modifies this`state
      ensures Valid()
      ensures state == UpdatePatch(old(state), patch)
    {
      state := UpdatePatch(state, patch);
    }

    method SelectPhase(phase: string)
      requires Valid()
      modifies this`state
      ensures Valid()
      ensures state == UpdatePhase(old(state), phase)
    {
      state := UpdatePhase(state, phase);
    }

    method SelectRole(role: string)
      requires Valid()
      modifies this`state
      ensures Valid()
      ensures state == UpdateRole(old(state), role)
    {
      state := UpdateRole(state, role);
    }

    /** `handleRunAnalysis` up to its `await`, reached only through the enabled
        button. With no team chosen it records the error and returns, touching
        neither flag; otherwise it raises both flags, clears the error and starts
        the wait. It never navigates. */
    method RunAnalysis() returns (started: bool)
      requires Valid() && !Disabled()
      modifies this`state, this`isValidating, this`inFlight
      ensures Valid()
      ensures started <==> old(state).selectedTeam != NoTeam
      ensures !started ==> state == SetError(old(state), Some(TeamRequired))
      ensures !started ==> isValidating == old(isValidating) && inFlight == old(inFlight)
      ensures started ==> state == SetError(SetLoading(old(state), true), None)
      ensures started ==> isValidating && inFlight == old(inFlight) + 1
      ensures navigations == old(navigations)
    {
      if state.selectedTeam == NoTeam {
        state := SetError(state, Some(TeamRequired));
        return false;
      }
      isValidating := true;
      state := SetLoading(state, true);
      state := SetError(state, None);
      inFlight := inFlight + 1;
      started := true;
    }

    /** A click on the run button: a disabled button delivers no click. */
    method Click() returns (started: bool)
      requires Valid()
      modifies this`state, this`isValidating, this`inFlight
      ensures Valid()
      ensures started ==> old(inFlight) == 0 && inFlight == 1
      ensures old(Disabled()) ==> !started && state == old(state)
      ensures old(Disabled()) ==> isValidating == old(isValidating) && inFlight == old(inFlight)
      ensures !old(Disabled()) ==> (started <==> old(state).selectedTeam != NoTeam)
      ensures !old(Disabled()) && !started ==> state == SetError(old(state), Some(TeamRequired))
      ensures !old(Disabled()) && !started ==> isValidating == old(isValidating) && inFlight == old(inFlight)
      ensures started ==> state == SetError(SetLoading(old(state), true), None)
      ensures started ==> isValidating && inFlight == old(inFlight) + 1 && Disabled()
      ensures navigations == old(navigations)
    {
      if Disabled() {
        return false;
      }
      started := RunAnalysis();
    }

    /** The rest of `handleRunAnalysis` once the wait has ended. If nothing threw,
        loading stops and the view navigates to the dashboard exactly once; if the
        wait or the navigation threw (`failed`), the failure message is recorded,
        loading stops and nothing is navigated. Either way validation ends. */
    method Resume(failed: bool)
      requires Valid() && inFlight > 0
      modifies this`state, this`isValidating, this`navigations, this`inFlight
      ensures Valid()
      ensures !failed ==> state == SetLoading(old(state), false)
      ensures !failed ==> navigations == old(navigations) + [DashboardRoute]
      ensures failed ==> state == SetLoading(SetError(old(state), Some(SyncFailed)), false)
      ensures failed ==> navigations == old(navigations)
      ensures !isValidating && !state.isLoading && inFlight == old(inFlight) - 1
    {
      if !failed {
        state := SetLoading(state, false);
        navigations := navigations + [DashboardRoute];
      } else {
        state := SetError(state, Some(SyncFailed));
        state := SetLoading(state, false);
      }
      isValidating := false;
      inFlight := inFlight - 1;
    }
  }

  /** Starting from the initial record, running the analysis fails validation: the
      error is set, loading never starts and no navigation happens. */
  method RunWithoutTeam() returns (started: bool, error: Option<string>, loading: bool, routes: seq<string>)
    ensures !started && error == Some(TeamRequired) && !loading && routes == []
  {
    var view := new SetupView(Initial());
    started := view.Click();
    error, loading, routes := view.state.error, view.state.isLoading, view.navigations;
  }

  /** With a team chosen, a click starts loading; after the wait resolves, loading
      has stopped and the dashboard was pushed exactly once, and a second click
      during the wait starts nothing. */
  method RunWithTeam() returns (loadingDuringWait: bool, secondStarted: bool, loadingAfter: bool,
                                validatingAfter: bool, routes: seq<string>)
    ensures loadingDuringWait && !secondStarted && !loadingAfter && !validatingAfter
    ensures routes == [DashboardRoute]
  {
    var view := new SetupView(Initial());
    view.SelectTeam(Teams[0]);
    var started := view.Click();
    loadingDuringWait := view.state.isLoading;
    secondStarted := view.Click();
    view.Resume(false);
    loadingAfter, validatingAfter, routes := view.state.isLoading, view.isValidating, view.navigations;
  }
}
