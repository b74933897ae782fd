# STRATOS NEURAL client state, modelled in Dafny

STRATOS NEURAL is a mock esports-analytics web front end. Nearly all of it is
presentational; this project models the pieces of it that carry logic:

- the **match selection store** (`MatchContext`): the six-field session record,
  its fixed initial value, the field-wise updates, the reset and the `useMatch`
  guard;
- the **session-setup view** (`MatchSetup`): the run-analysis state machine
  (sentinel check, loading, navigation or error), the team picker clearing the
  error, and the disabled run button;
- the **theme provider** (`ThemeProvider`) and the **header** (`Header`): the
  one-time resolution of the preference from storage, default and OS flag, the
  application of a theme to the root element, `setTheme`, the `useTheme` guard,
  the light → dark → system → light toggle, the icon choice and the mobile menu;
- the **toast broadcast** (`Toast`): the module-level id counter and listener
  list, `showToast`, and each subscriber's list with its dismiss and its
  auto-removal timers;
- small list and string operations of the views: the action plan's membership
  toggles and progress (`ActionPlan`), the dashboard's bounded newest-first log,
  `mm:ss` stamp and session target (`Dashboard`), the pattern view's
  `/\d+%/` extraction (`PatternDiscovery`), the player view's role label and id
  badge (`PlayerImpact`), and the in-range list selection both views use
  (`Selection`).

Helper modules: `Wrappers` (Option and Result, the latter standing for a thrown
`Error`), `Decimal` (`String(n)` for naturals and its inverse parse) and `Seqs`
(`filter((x) => x !== v)` and duplicate freedom).

Form follows the source. The store, the resolution, the toggles and the string
operations are pure functions over datatypes. The setup view, the theme
provider and the toast bus/subscribers change state step by step and are
classes whose methods state the whole new state in terms of the old one. The
browser is explicit: `localStorage` is a `map` field, the root element is a
`Document` value (class-token set and attribute map), `typeof window` is a
`hasWindow` flag, `matchMedia` is an `osDark` parameter, timers are recorded
and fired by explicit calls (`SetupView.Resume`, `Subscriber.FireTimer`), the
dashboard's interval is one `Tick` per firing with the clock's minutes and
seconds and the random message index as inputs.

Points where the code behaves differently from what its names suggest:

- `setTheme` stores and applies its argument verbatim, and "system" is not
  resolved against the OS. In class mode this puts a `system` token on the root
  element, and later applies never remove it (`ThemeProvider.SystemClassPersists`):
  only "light" and "dark" are ever cleared.
- Resolution happens once, on activation; `setTheme` does not re-run it.
- `showToast` calls the listeners in one `forEach` with no per-handler
  isolation. The subscribers' handlers never throw, so every listener is reached.
- Outside a browser `setTheme` throws from `localStorage.setItem` after the
  in-memory theme was set (`Provider.SetTheme`'s `threw`).

## Model

| member | source | states |
|---|---|---|
| MatchContext.Initial | components/match-context.tsx:28-35 | the initial record is team "vs", patch "STRATOS 1.0 (PRO)", phase "Synchronized Full", role "Neural Core", not loading, no error |
| MatchContext.UpdateTeam | components/match-context.tsx:40-42 | the team becomes the argument, any string; the other five fields are unchanged |
| MatchContext.UpdatePatch | components/match-context.tsx:44-46 | the patch becomes the argument; the other five fields are unchanged |
| MatchContext.UpdatePhase | components/match-context.tsx:48-50 | the phase becomes the argument; the other five fields are unchanged |
| MatchContext.UpdateRole | components/match-context.tsx:52-54 | the role becomes the argument; the other five fields are unchanged |
| MatchContext.SetLoading | components/match-context.tsx:56-58 | only `isLoading` changes |
| MatchContext.SetError | components/match-context.tsx:60-62 | only `error` changes, and it may be cleared to null |
| MatchContext.ResetFilters | components/match-context.tsx:64-66 | from any prior record the result is the initial record |
| MatchContext.ResetIdempotent | components/match-context.tsx:64-66 | resetting twice equals resetting once |
| MatchContext.EndsWithReset | components/match-context.tsx:64-66 | any call sequence ending in a reset yields the initial record |
| MatchContext.LastWriteWins | components/match-context.tsx:40-62 | two updates of the same field equal the last one alone |
| MatchContext.DifferentFieldsCommute | components/match-context.tsx:40-62 | two calls writing different fields give the same record in either order |
| MatchContext.UntouchedFieldUnchanged | components/match-context.tsx:40-66 | over any call sequence, a field no call writes keeps its value |
| Wrappers.UseContext | components/match-context.tsx:86-92 | a guarded context lookup throws with the given message exactly when there is no provider value, and otherwise returns the value |
| MatchContext.UseMatch | components/match-context.tsx:86-92 | throws exactly when no provider value is present, with the source's message; otherwise returns the value |
| MatchSetup.SelectableTeams | components/match-setup.tsx:30 | the three offered teams all differ from the "vs" placeholder |
| MatchSetup.RunDisabled | components/match-setup.tsx:159 | definition: the button is disabled while validating or loading |
| MatchSetup.StartedRunIsDisabled | components/match-setup.tsx:159 | after an initiation passes the team check the button is disabled; ending the load with validation off enables it |
| MatchSetup.SetupView.constructor | components/match-setup.tsx:22-23 | the view starts on the store's record, not validating, with no navigation and no wait pending |
| MatchSetup.SetupView.SelectTeam | components/match-setup.tsx:91 | choosing a team sets it and clears the error |
| MatchSetup.SetupView.SelectPatch | components/match-setup.tsx:106 | the patch picker calls the store's patch update |
| MatchSetup.SetupView.SelectPhase | components/match-setup.tsx:122 | the phase buttons call the store's phase update |
| MatchSetup.SetupView.SelectRole | components/match-setup.tsx:137 | the role buttons call the store's role update |
| MatchSetup.SetupView.RunAnalysis | components/match-setup.tsx:35-43 | called from the enabled button only; with team "vs": error "SYSERR: TEAM_MATCH_REQUIRED", flags untouched, no wait; otherwise `isValidating` and `isLoading` true, error null, one wait started; never navigates |
| MatchSetup.SetupView.Click | components/match-setup.tsx:159 | a disabled button starts nothing and changes nothing; an enabled one runs the analysis; a run that starts leaves the button disabled and starts only when no other run is in flight; the view's invariant (at most one run in flight, exactly while validating) is kept |
| MatchSetup.SetupView.Resume | components/match-setup.tsx:45-54 | success: loading off and exactly one push of "/dashboard"; failure: error "Failed to sync neural context. Retry.", loading off, no push; validation off in both |
| MatchSetup.RunWithoutTeam | components/match-setup.tsx:35-39 | from the initial record a run sets the error, never loads and never navigates |
| MatchSetup.RunWithTeam | components/match-setup.tsx:35-55 | with a team chosen: loading during the wait, a second click starts nothing, then loading and validation off and one navigation |
| ThemeProvider.StoredValue | components/theme-provider.tsx:28 | `getItem` returns the stored string or null when the key is absent |
| ThemeProvider.StartingPreference | components/theme-provider.tsx:29 | a missing or empty stored value gives the default; any other stored value is used |
| ThemeProvider.ResolveInitial | components/theme-provider.tsx:28-35 | with no window the theme is the default; in a browser with detection on it is never "system"; it is always "dark", "light" or the starting preference |
| ThemeProvider.ResolveSystemFollowsOs | components/theme-provider.tsx:32-35 | with detection on and preference "system", the theme is "dark" iff the OS flag is dark and "light" otherwise |
| ThemeProvider.ResolveWithoutSystem | components/theme-provider.tsx:28-35 | with detection off, "system" stays as it is; with no window the default is used |
| ThemeProvider.ResolveDefaultsEmptyStore | components/theme-provider.tsx:14-35 | with default props and nothing stored, the theme follows the OS flag |
| ThemeProvider.ResolveNonSystemPreference | components/theme-provider.tsx:29-37 | in a browser, a starting preference other than "system" (stored or default) is the theme, with detection on or off |
| ThemeProvider.ResolveNonSystemDefault | components/theme-provider.tsx:29-37 | with nothing stored, a default other than "system" is the theme even with detection on |
| ThemeProvider.ResolveStored | components/theme-provider.tsx:28-35 | a stored non-empty value other than "system" is the theme |
| ThemeProvider.ApplyTheme | components/theme-provider.tsx:41-51 | class mode: light and dark removed, the theme added, other classes kept; data-theme mode: only that attribute set; other modes or no window: unchanged |
| ThemeProvider.ApplyThemeIdempotent | components/theme-provider.tsx:41-51 | applying the same theme twice equals applying it once |
| ThemeProvider.ApplyThemeLastWins | components/theme-provider.tsx:45-47 | after "light" or "dark", a later apply fully replaces it |
| ThemeProvider.SystemClassPersists | components/theme-provider.tsx:45-47 | an applied "system" class token survives every later apply |
| ThemeProvider.UseTheme | components/theme-provider.tsx:74-80 | throws exactly when no provider value is present, otherwise returns it |
| ThemeProvider.Provider.constructor | components/theme-provider.tsx:21 | before activation the theme is "" and the provider is not mounted |
| ThemeProvider.Provider.Activate | components/theme-provider.tsx:24-39 | mounted; the theme is the resolution of stored value, default, detection flag and OS flag; that theme is applied; storage is only read |
| ThemeProvider.Provider.SetTheme | components/theme-provider.tsx:53-57 | the theme becomes the argument, which is stored under the key and applied verbatim; with no window it throws before storing |
| ThemeProvider.SetSystemIsVerbatim | components/theme-provider.tsx:53-57 | setting "system" stores "system" and puts the "system" class on the root whatever the OS says |
| Header.ToggleTheme | components/header.tsx:20-28 | light goes to dark, dark to system, anything else (system and "" included) to light |
| Header.CycleFromLight | components/header.tsx:20-28 | three toggles from light pass dark and system and return to light |
| Header.ReachesLight | components/header.tsx:20-28 | from any value one of the first three toggles gives light |
| Header.TogglesStayInRange | components/header.tsx:20-28 | after one or more toggles the theme is light, dark or system |
| Header.TogglesPeriodic | components/header.tsx:20-28 | from a theme value, toggling has period three |
| Header.IsDark | components/header.tsx:14 | definition: the sun icon shows exactly when the theme is "dark" |
| Header.IsDarkOnlyForDark | components/header.tsx:14 | "system", "light" and the empty pre-activation theme all show the moon |
| Header.MenuButton | components/header.tsx:99 | the menu button negates `isOpen` |
| Header.LinkClicked | components/header.tsx:114-142 | each mobile link click closes the menu |
| Header.ClickToggle | components/header.tsx:20-28 | the toggle hands the next theme to `setTheme`, which stores and applies it; with no window it throws and storage and root are untouched |
| Decimal.NatToString | components/toast.tsx:48 | `String(n)` is one or more digits, one digit iff n < 10, no leading zero |
| Decimal.ParseNatToString | components/toast.tsx:48 | reading `String(n)` back as decimal gives n |
| Decimal.NatToStringInjective | components/toast.tsx:48 | different counter values render to different strings |
| Toast.DistinctCountersDistinctIds | components/toast.tsx:16 | two calls that saw different counter values get different ids |
| Toast.AutoRemoveDelay | components/toast.tsx:28-31 | no timer for +Infinity; otherwise `duration \|\| 3000`, so undefined and 0 give 3000 |
| Toast.TimersFor | components/toast.tsx:28-32 | a received toast schedules one removal of its id with that delay, unless it never expires |
| Toast.RemoveById | components/toast.tsx:22 | the result has no entry with the id and keeps every other entry |
| Toast.RemoveMissingId | components/toast.tsx:22 | removing an id not in the list leaves it unchanged |
| Toast.RemoveTwice | components/toast.tsx:22 | a second removal of the same id (dismiss then timer, or timer then dismiss) is a no-op |
| Toast.RemoveByIdAppend | components/toast.tsx:22 | removal distributes over concatenation, so the entries kept stay in their order |
| Toast.RemoveOnlyEntry | components/toast.tsx:22 | removing the one entry with an id keeps the others in their order |
| Toast.Subscriber.constructor | components/toast.tsx:20 | a subscriber starts with no toasts and no timers |
| Toast.Subscriber.Receive | components/toast.tsx:25-33 | the toast is appended at the end and its removal timer, if any, is recorded |
| Toast.Subscriber.RemoveToast | components/toast.tsx:22 | the list becomes the old list without that id |
| Toast.Subscriber.FireTimer | components/toast.tsx:29-31 | the fired timer is gone and its toast id is removed from the list |
| Toast.Bus.constructor | components/toast.tsx:16-17 | the counter starts at 0 with no listeners |
| Toast.Bus.Subscribe | components/toast.tsx:35 | a fresh handler with an empty list is appended to the listeners, which stay duplicate-free |
| Toast.Bus.Unsubscribe | components/toast.tsx:36-38 | exactly that handler is filtered out, the others stay in order |
| Toast.Bus.ShowToast | components/toast.tsx:47-51 | the id is the old counter as a string, the counter goes up by one even with no listeners, and every listener in order receives the same record once; nothing else changes |
| Toast.DefaultToastLifecycle | components/toast.tsx:22-50 | one subscriber, a default-duration toast: listed at once with a 3000 ms timer, gone after the timer fires |
| Toast.DismissThenTimer | components/toast.tsx:22-50 | a manual dismiss followed by the timer firing is harmless; the other toast stays |
| Toast.PostWithoutListeners | components/toast.tsx:47-51 | a toast with no listeners is dropped; only the counter moves |
| Seqs.RemoveAll | components/action-plan.tsx:84 | `filter((x) => x !== v)` keeps every other element and no `v`, and is shorter when `v` occurred |
| Seqs.RemoveAllAppend | components/action-plan.tsx:84 | filtering distributes over concatenation, so the elements kept stay in their order |
| Seqs.RemoveAbsent | components/action-plan.tsx:84 | filtering out an absent value changes nothing |
| Seqs.RemoveSingle | components/toast.tsx:37 | filtering out a value that occurs once removes it and keeps the order of the rest |
| Seqs.RemoveAllNoDup | components/toast.tsx:37 | filtering keeps a duplicate-free list duplicate-free |
| Seqs.NoDupSubsetBound | components/action-plan.tsx:97 | a duplicate-free list drawn from a set is no longer than the set |
| ActionPlan.Toggle | components/action-plan.tsx:84 | the id is in the result iff it was not in the list; other elements keep their membership; an absent id is appended at the end; a present one is removed with all its occurrences |
| ActionPlan.ToggleExpand | components/action-plan.tsx:83-85 | flips the card's expansion and leaves the completed list alone |
| ActionPlan.ToggleComplete | components/action-plan.tsx:87-89 | flips the action's completion and leaves the expanded list alone |
| ActionPlan.ToggleOnlyAffectsId | components/action-plan.tsx:83-89 | a toggle does not change any other id's membership |
| ActionPlan.ToggleTwice | components/action-plan.tsx:83-89 | toggling twice restores membership, and the exact list when the id was absent |
| ActionPlan.ToggleNoDup | components/action-plan.tsx:83-89 | a toggle keeps a duplicate-free list duplicate-free |
| ActionPlan.ApplyAllConsistent | components/action-plan.tsx:178-184 | clicks on rendered actions keep both lists duplicate-free and the completed ids among the action ids |
| ActionPlan.Progress | components/action-plan.tsx:97 | with four actions the progress is exactly 25 per completed entry, never negative, and at most 100 while at most four are completed |
| ActionPlan.ProgressInRange | components/action-plan.tsx:97 | from `[1]` and `[]`, at most four actions are completed and the progress stays within 0..100 |
| Dashboard.Tick | components/dashboard.tsx:106 | the new neutral entry with the chosen one of the four messages is first, followed by the first min(10, n) previous entries in order |
| Dashboard.Ticks | components/dashboard.tsx:102-107 | with no firing the log is unchanged; otherwise it has one to eleven entries and the last firing's entry is first |
| Dashboard.TicksBounded | components/dashboard.tsx:102-106 | a log of at most eleven entries stays at most eleven, holding only initial or tick entries |
| Dashboard.MountedLogBounded | components/dashboard.tsx:94-106 | from the three initial entries, any number of ticks leaves at most eleven |
| Dashboard.PadStart2 | components/dashboard.tsx:105 | `padStart(2, '0')` leaves two or more characters alone and left-pads shorter strings with zeros to two |
| Dashboard.TimeStr | components/dashboard.tsx:105 | the stamp has at least five characters, and for minutes and seconds below 100 it is two digits, ':', two digits |
| Dashboard.TwoDigits | components/dashboard.tsx:105 | a number below 100 as two digits that read back as the number |
| Dashboard.TwoDigitPad | components/dashboard.tsx:105 | padded `toString()` has at least two characters, and for a number below 100 it is its two digits |
| Dashboard.TimeStrFormat | components/dashboard.tsx:105 | for minutes and seconds below 60 the stamp is two digits, ':', two digits, five characters |
| Dashboard.TimeStrReadsBack | components/dashboard.tsx:105 | the two halves of a clock stamp read back as its minutes and seconds |
| Dashboard.SessionTarget | components/dashboard.tsx:128 | shows the selected team unless it is "vs", then "GENERIC_MATCH_ALPHA"; never "vs" |
| PatternDiscovery.RunEnd | components/pattern-discovery.tsx:205 | the end of the maximal run of ASCII digits starting at an index |
| PatternDiscovery.MatchAtIsRegex | components/pattern-discovery.tsx:205 | `\d+%` can match from an index exactly when a digit run starts there and a `%` follows it, and only up to that `%` |
| PatternDiscovery.FirstMatch | components/pattern-discovery.tsx:205 | the scan returns the leftmost match start at or after an index, or none when there is none |
| PatternDiscovery.LeftmostStartsRun | components/pattern-discovery.tsx:205 | if no match starts just before a match, the character there is not a digit |
| PatternDiscovery.ExtractImpact | components/pattern-discovery.tsx:205 | the value, match or fallback, is always one or more digits followed by a single `%` |
| PatternDiscovery.ExtractNoMatch | components/pattern-discovery.tsx:205 | with no digits-then-% anywhere the value is "12%" |
| PatternDiscovery.ExtractLeftmost | components/pattern-discovery.tsx:205 | with a match, the value is the `\d+%` match with the leftmost start, a contiguous piece of the text not preceded by a digit |
| PatternDiscovery.WinImpact | components/pattern-discovery.tsx:205 | the figure is '-' followed by the extracted value |
| PatternDiscovery.SelectedPatternInRange | components/pattern-discovery.tsx:137-140 | `selectedPattern` always indexes the four patterns |
| Selection.AfterClicks | components/pattern-discovery.tsx:44 | from an in-range start, the selection is the last clicked index, or the start when there are no clicks, and always within the list |
| PlayerImpact.FirstSegment | components/player-impact.tsx:149 | the label is a prefix of the role with no separator starting inside it, ending at the role's end or at the first " / " |
| PlayerImpact.LabelHasNoSeparator | components/player-impact.tsx:149 | the label contains no " / " |
| PlayerImpact.SplitRoundTrip | components/player-impact.tsx:149 | with a " / " the role is the label, " / " and the rest; without one the label is the whole role |
| PlayerImpact.LowerChar | components/player-impact.tsx:186 | ASCII upper-case letters become lower case, other characters stay; no upper-case letter remains |
| PlayerImpact.ToLower | components/player-impact.tsx:186 | same length, each character lowered |
| PlayerImpact.ToLowerIdempotent | components/player-impact.tsx:186 | lowering twice equals lowering once |
| PlayerImpact.IdBadge | components/player-impact.tsx:186 | "ID: NEURAL_PR-" followed by the lowered name, as long as both together |
| PlayerImpact.SelectedPlayerInRange | components/player-impact.tsx:135-138 | `selectedPlayer` always indexes the five players |

## Left out

- All JSX, styling, animation, charts, icons and routing in every file: presentational, with no statable behaviour.
- The `mounted` flags that make the views render nothing before their first effect: rendering is not modelled.
- React's scheduling of state updates: every update is applied at once and in call order, and `handleRunAnalysis` sees the record as updated so far, which matches the source's single-threaded use.
- Real time: the 1200 ms wait, the 5000 ms interval and the toast timers are explicit events; no clock is modelled. Timers of an unmounted subscriber still fire into its list.
- The pattern view's delayed navigation to the simulator (components/pattern-discovery.tsx:289) and its toast are not modelled: a fixed route after a fixed delay, with no state of the view involved.
- `new Date()` and `Math.random()`: the clock's minutes and seconds and the message index are inputs.
- The MetricCard jitter (`Math.random`, `parseFloat`, `toFixed`), `avgDecisionImpact * 10` and `Math.round(completedProgress)`: floating-point display values.
- Live tracking of OS theme changes: the source resolves once and does not subscribe.
- DOM details of `classList`: token order and the exceptions `classList.add` throws for an empty or whitespace token (the root's classes are a set here).
- JavaScript number limits: `toastId` losing precision past 2^53, and NaN or negative toast durations.
- `toLowerCase` beyond ASCII: only A-Z are lowered.
- Exceptions thrown by a toast listener: the subscribers' handlers do not throw, so no listener aborts the delivery loop.
- The share and clipboard logic of components/coach-briefing.tsx, components/error-boundary.tsx, the `@/hooks/use-toast` hook and `Toaster`: I/O, window events and a different toast module; they are not part of this model.
- app/page.tsx, app/layout.tsx, components/strategy-simulator.tsx, components/impact-flow.tsx, components/footer.tsx, components/breadcrumb.tsx, components/loading-spinner.tsx and components/navigation-sidebar.tsx: literal data and provider wiring only.
- The hard-coded impact texts, players and actions are not evaluated one by one; only the list lengths and the action ids are part of the model.
- Toast.Bus.ShowToast: "with no listeners only the counter changes" is stated by its frame (it may modify only the counter and the listeners it has), not by a separate clause.
