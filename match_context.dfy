/** The shared match-selection store: a six-field record with a fixed initial value,
    field-wise updates, a reset, and the provider lookup that fails outside a provider. */
module MatchContext {
  import opened Wrappers

  datatype MatchState = MatchState(
    selectedTeam: string,
    selectedPatch: string,
    selectedPhase: string,
    selectedRole: string,
    isLoading: bool,
    error: Option<string>)

  /** The sentinel team value meaning "no match selected". */
  const NoTeam: string := "vs"

  /** The starting record names no team, the default patch, phase and role, is not
      loading and carries no error. */
  function Initial(): (s: MatchState)
    ensures s.selectedTeam == "vs" && s.selectedPatch == "STRATOS 1.0 (PRO)"
    ensures s.selectedPhase == "Synchronized Full" && s.selectedRole == "Neural Core"
    ensures !s.isLoading && s.error == None
  {
    MatchState(NoTeam, "STRATOS 1.0 (PRO)", "Synchronized Full", "Neural Core", false, None)
  }

  // Each update copies the previous record and replaces one field; no value is rejected.

  function UpdateTeam(prev: MatchState, team: string): (s: MatchState)
    ensures s.selectedTeam == team
    ensures s == prev.(selectedTeam := s.selectedTeam)
  {
    prev.(selectedTeam := team)
  }

  function UpdatePatch(prev: MatchState, patch: string): (s: MatchState)
    ensures s.selectedPatch == patch
    ensures s == prev.(selectedPatch := s.selectedPatch)
  {
    prev.(selectedPatch := patch)
  }

  function UpdatePhase(prev: MatchState, phase: string): (s: MatchState)
    ensures s.selectedPhase == phase
    ensures s == prev.(selectedPhase := s.selectedPhase)
  {
    prev.(selectedPhase := phase)
  }

  function UpdateRole(prev: MatchState, role: string): (s: MatchState)
    ensures s.selectedRole == role
    ensures s == prev.(selectedRole := s.selectedRole)
  {
    prev.(selectedRole := role)
  }

  function SetLoading(prev: MatchState, loading: bool): (s: MatchState)
    ensures s.isLoading == loading
    ensures s == prev.(isLoading := s.isLoading)
  {
    prev.(isLoading := loading)
  }

  /** The error may be cleared by passing `None` (`null`). */
  function SetError(prev: MatchState, error: Option<string>): (s: MatchState)
    ensures s.error == error
    ensures s == prev.(error := s.error)
  {
    prev.(error := error)
  }

  /** Reset ignores the previous record entirely. */
  function ResetFilters(prev: MatchState): (s: MatchState)
    ensures s == Initial()
  {
    Initial()
  }

  /** One call of the store's interface, for reasoning about call sequences. */
  datatype Action =
    | SetTeam(team: string)
    | SetPatch(patch: string)
    | SetPhase(phase: string)
    | SetRole(role: string)
    | Loading(loading: bool)
    | Error(error: Option<string>)
    | Reset

  function Apply(s: MatchState, a: Action): MatchState {
    match a
    case SetTeam(t) => UpdateTeam(s, t)
    case SetPatch(p) => UpdatePatch(s, p)
    case SetPhase(p) => UpdatePhase(s, p)
    case SetRole(r) => UpdateRole(s, r)
    case Loading(b) => SetLoading(s, b)
    case Error(e) => SetError(s, e)
    case Reset => ResetFilters(s)
  }

  /** The record after the given calls, applied in order. */
  function ApplyAll(s: MatchState, actions: seq<Action>): MatchState
    decreases |actions|
  {
    if actions == [] then s else ApplyAll(Apply(s, actions[0]), actions[1..])
  }

  /** Resetting twice is resetting once. */
  lemma ResetIdempotent(s: MatchState)
    ensures ResetFilters(ResetFilters(s)) == ResetFilters(s)
  {
  }

  /** Two updates of the same field: the last one wins. */
  lemma LastWriteWins(s: MatchState, a: string, b: string, x: bool, y: bool,
                      e: Option<string>, f: Option<string>)
    ensures UpdateTeam(UpdateTeam(s, a), b) == UpdateTeam(s, b)
    ensures UpdatePatch(UpdatePatch(s, a), b) == UpdatePatch(s, b)
    ensures UpdatePhase(UpdatePhase(s, a), b) == UpdatePhase(s, b)
    ensures UpdateRole(UpdateRole(s, a), b) == UpdateRole(s, b)
    ensures SetLoading(SetLoading(s, x), y) == SetLoading(s, y)
    ensures SetError(SetError(s, e), f) == SetError(s, f)
  {
  }

  /** Which of the six fields an action writes: 0 team, 1 patch, 2 phase, 3 role,
      4 loading, 5 error; a reset writes all of them. */
  predicate Writes(a: Action, field: nat) {
    match a
    case SetTeam(_) => field == 0
    case SetPatch(_) => field == 1
    case SetPhase(_) => field == 2
    case SetRole(_) => field == 3
    case Loading(_) => field == 4
    case Error(_) => field == 5
    case Reset => true
  }

  /** Field number `field` of a record, as a comparable value. */
  datatype FieldValue = Text(text: string) | Flag(flag: bool) | Message(message: Option<string>)

  function Field(s: MatchState, field: nat): FieldValue
    requires field < 6
  {
    if field == 0 then Text(s.selectedTeam)
    else if field == 1 then Text(s.selectedPatch)
    else if field == 2 then Text(s.selectedPhase)
    else if field == 3 then Text(s.selectedRole)
    else if field == 4 then Flag(s.isLoading)
    else Message(s.error)
  }

  /** Updates to different fields commute. */
  lemma {:induction false} DifferentFieldsCommute(s: MatchState, a: Action, b: Action)
    requires forall f :: 0 <= f < 6 ==> !(Writes(a, f) && Writes(b, f))
    ensures Apply(Apply(s, a), b) == Apply(Apply(s, b), a)
  {
    assert !(Writes(a, 0) && Writes(b, 0)) && !(Writes(a, 1) && Writes(b, 1));
    assert !(Writes(a, 2) && Writes(b, 2)) && !(Writes(a, 3) && Writes(b, 3));
    assert !(Writes(a, 4) && Writes(b, 4)) && !(Writes(a, 5) && Writes(b, 5));
  }

  /** A field that no call in a sequence writes keeps its value: no update has a
      cross-field effect, however many calls are made. */
  lemma {:induction false} UntouchedFieldUnchanged(s: MatchState, actions: seq<Action>, field: nat)
    requires field < 6
    requires forall i :: 0 <= i < |actions| ==> !Writes(actions[i], field)
    ensures Field(ApplyAll(s, actions), field) == Field(s, field)
    decreases |actions|
  {
    if actions != [] {
      var a := actions[0];
      assert !Writes(a, field);
      assert Field(Apply(s, a), field) == Field(s, field);
      UntouchedFieldUnchanged(Apply(s, a), actions[1..], field);
    }
  }

  /** Whatever came before, a sequence that ends with a reset leaves the initial
      record. */
  lemma {:induction false} EndsWithReset(s: MatchState, actions: seq<Action>)
    requires actions != [] && actions[|actions| - 1] == Reset
    ensures ApplyAll(s, actions) == Initial()
    decreases |actions|
  {
    if |actions| > 1 {
      EndsWithReset(Apply(s, actions[0]), actions[1..]);
    }
  }

  /** `useMatch`: outside a provider there is no context value and the hook throws;
      inside one it returns the provider's value. */
  function UseMatch(context: Option<MatchState>): (r: Result<MatchState>)
    ensures context.None? <==> r.Throw?
    ensures context.None? ==> r.message == "useMatch must be used within MatchProvider"
    ensures context.Some? ==> r.value == context.value
  {
    UseContext(context, "useMatch must be used within MatchProvider")
  }
}
