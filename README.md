# FinVault case queue — a Dafny model

FinVault's dashboard lets a fraud analyst work through the queue of `New` cases. After
sign-in it fetches the open cases once, shows them in a table and opens a detail sheet
for the row clicked. From that sheet the analyst moves the case to one of three statuses.
When the store accepts the update, the case leaves the local queue and the next case
becomes the selection.

This project models four parts of that state machine and proves properties of them:

- **Dashboard** (`App.tsx`, module `App`). The four state hooks `cases`, `isLoading`,
  `selectedCase` and `isSheetOpen` form `DashboardState`, together with the phase of the
  mount fetch, which runs once per mount. The mount fetch, `handleCaseUpdate`,
  `handleRowClick` and `setIsSheetOpen` are step functions on that state. `App.Dashboard`
  is a class whose methods perform the same steps on fields. The table body is a pure
  render: loading row, empty-queue row, or one row per case.
- **Status-transition panel** (`CaseDetailPanel.tsx`, module `DetailPanel`). Its state is
  `isUpdating`, plus the one update request a Pending panel waits on.
  - `handleStatusChange` is split at its `await`. `HandleStatusChange` covers the part
    that starts the update; `UpdateResolved` covers the `try`/`catch`/`finally` that runs
    once it settles.
  - The selected record is a prop, so it is passed in as a parameter.
  - The panel's calls to `onCaseUpdate` and `onClose` are returned as a sequence of
    `Callback`s, in call order.
  - `App.NotifyAll` delivers those callbacks to the dashboard as `App.tsx:153-157` wires them.
- **Session provider** (`AuthContext.tsx`, module `AuthContext`). `{session, user, isLoading}`
  plus the effect's lifecycle. Four events change it: the effect runs, `getSession`
  resolves, the auth-change listener fires, the cleanup unsubscribes. `Step` and `Run`
  define the events. `AuthProvider` is the class whose methods perform them.
- **Auth gate** (`Auth.tsx`, module `AuthGate`). The pure choice between spinner, login
  page and dashboard.

The record gateway (`airtableService.ts`, module `AirtableService`) is modelled only by
how it settles:
- `getNewCases` always resolves, to the delivered records or to `[]`;
- `updateCaseStatus` resolves to the record the store returned, or rejects with the
  transport error.

What the remote end answers is an input (`Response`).

The id removed after a successful transition is the id of the record the store
*returned* (`updatedRecord.id`), as in `App.tsx:54`.

After a successful transition, `handleCaseUpdate` selects the first remaining case, but
the panel then calls `onClose` (`CaseDetailPanel.tsx:56`), which the dashboard binds to
`setIsSheetOpen(false)` (`App.tsx:156`). So with A and B queued and A confirmed as fraud,
the queue becomes `[B]` and B is selected, but the sheet is closed.
`App.ConfirmFraudScenario` proves this.

## Model

| member | source | states |
|---|---|---|
| `CaseTypes.StatusLabelInjective` | finvault-dashboard/src/types/case.ts:4 | Two statuses have the same label exactly when they are the same status, so the panel's string comparisons compare statuses. |
| `CaseTypes.StatusLabel` | finvault-dashboard/src/types/case.ts:4 | The string of each status, as the store and the UI write it. Every one is non-empty, so a present `isUpdating` is truthy. |
| `AirtableService.GetNewCases` | finvault-dashboard/src/services/airtableService.ts:22-35 | The list call never rejects. It yields the delivered records when the request succeeds and `[]` when it fails. |
| `AirtableService.UpdateCaseStatus` | finvault-dashboard/src/services/airtableService.ts:43-57 | The update resolves exactly when the store answered, with the record it returned. Otherwise it rejects with the same error (rethrown). |
| `AirtableService.FailureIndistinguishableFromEmpty` | finvault-dashboard/src/services/airtableService.ts:31-34 | A failed list call gives the caller the same value as an empty queue. |
| `DetailPanel.Target` | finvault-dashboard/src/components/CaseDetailPanel.tsx:142 | Approve asks for Closed - Legitimate (line 142), Investigate for Under Investigation (153), Confirm Fraud for Closed - Fraud (164). No button asks for `New`. |
| `DetailPanel.TargetsAreTheNonNewStatuses` | finvault-dashboard/src/components/CaseDetailPanel.tsx:138-170 | The three buttons target Closed - Legitimate, Under Investigation and Closed - Fraud. `New` is never a target. Each non-`New` status belongs to exactly one button, and all three buttons are in the footer. |
| `DetailPanel.StatusStylesTotal` | finvault-dashboard/src/components/CaseDetailPanel.tsx:21-26 | The badge style map has an entry for every status, and no two statuses share a style. |
| `DetailPanel.BadgeClass` | finvault-dashboard/src/components/CaseDetailPanel.tsx:28 | The badge class string starts with the colour classes the style map gives the status. |
| `DetailPanel.StatusChangeStarted` | finvault-dashboard/src/components/CaseDetailPanel.tsx:47-53 | With no record nothing changes and no request is issued. Otherwise `isUpdating` becomes the chosen target and one update for the record's id and that target is issued. |
| `DetailPanel.UpdateSettled` | finvault-dashboard/src/components/CaseDetailPanel.tsx:53-61 | On success `onCaseUpdate(returned record)` is called, then `onClose`. On failure no callback is called. Either way `isUpdating` is none again. |
| `DetailPanel.ButtonDisabled` | finvault-dashboard/src/components/CaseDetailPanel.tsx:141 | `!!isUpdating`, the truthiness of the optional status string, holds exactly while some status is Pending. |
| `DetailPanel.ShowsSpinner` | finvault-dashboard/src/components/CaseDetailPanel.tsx:144 | `isUpdating === target` on status strings holds exactly when `isUpdating` is that target. |
| `DetailPanel.RenderButton` | finvault-dashboard/src/components/CaseDetailPanel.tsx:138-170 | A footer button aims at its action's target, is disabled exactly while Pending, and spins exactly when the Pending target is its own. |
| `DetailPanel.Pressed` | finvault-dashboard/src/components/CaseDetailPanel.tsx:138-170 | A click while Pending changes nothing and issues nothing. A click while Idle starts the transition to the button's target. |
| `DetailPanel.AtMostOneRequestInFlight` | finvault-dashboard/src/components/CaseDetailPanel.tsx:141-164 | Within one panel instance: from Idle, one click issues at most one request, and while that request is outstanding every further click is ignored. |
| `DetailPanel.Render` | finvault-dashboard/src/components/CaseDetailPanel.tsx:64 | The panel renders nothing exactly when there is no record. |
| `DetailPanel.RenderedFooter` | finvault-dashboard/src/components/CaseDetailPanel.tsx:134-171 | With a record there are three action buttons in footer order, each aimed at a non-`New` status. All three are disabled exactly while Pending, and only the Pending target spins. |
| `DetailPanel.CaseDetailPanel.constructor` | finvault-dashboard/src/components/CaseDetailPanel.tsx:45 | A new panel is Idle. |
| `DetailPanel.CaseDetailPanel.HandleStatusChange` | finvault-dashboard/src/components/CaseDetailPanel.tsx:47-53 | Performs `StatusChangeStarted` on the fields and returns the request it issued. |
| `DetailPanel.CaseDetailPanel.UpdateResolved` | finvault-dashboard/src/components/CaseDetailPanel.tsx:53-61 | Performs `UpdateSettled` on the fields and returns the callbacks it called, in order. |
| `DetailPanel.CaseDetailPanel.Press` | finvault-dashboard/src/components/CaseDetailPanel.tsx:138-170 | Performs `Pressed` on the fields: a disabled button ignores the click. |
| `App.Remaining` | finvault-dashboard/src/App.tsx:54 | The filtered list is no longer than the queue and no record in it has the given id. A record is in it exactly when it is in the queue with a different id. |
| `App.RemainingKeepsOrder` | finvault-dashboard/src/App.tsx:54 | The filtered list is a subsequence of the queue, so the relative order is kept. |
| `App.RemainingCounts` | finvault-dashboard/src/App.tsx:54 | Every record whose id differs is kept as often as it occurred. Records with the given id all go. |
| `App.RemainingWithoutMatch` | finvault-dashboard/src/App.tsx:54 | Filtering an id no record carries returns the queue unchanged. |
| `App.RemainingIdempotent` | finvault-dashboard/src/App.tsx:54 | Filtering twice by the same id is the same as filtering once. |
| `App.FetchStarted` | finvault-dashboard/src/App.tsx:31-35 | The mount effect, which runs once (`[]` dependencies, line 51): from no fetch yet, `isLoading` is set and the fetch is in flight; later it changes nothing. Queue, selection and sheet are unchanged. |
| `App.FetchSettled` | finvault-dashboard/src/App.tsx:37-50 | For the fetch in flight: `isLoading` is false afterwards, the fetch has settled, and the queue is the fetched list on success and unchanged on rejection. Without a fetch in flight nothing changes. Selection and sheet are unchanged. |
| `App.CaseUpdated` | finvault-dashboard/src/App.tsx:53-61 | `handleCaseUpdate`: a case is kept exactly when it was queued with another id. The selection is the first remaining case, or none. The two flags are unchanged. |
| `App.RowClicked` | finvault-dashboard/src/App.tsx:63-66 | `handleRowClick`: the record is selected and the sheet is open. Queue and loading flag are unchanged. |
| `App.SheetOpenChanged` | finvault-dashboard/src/App.tsx:151-156 | `setIsSheetOpen(open)`: the sheet flag becomes `open`. Nothing else changes. |
| `App.FetchFromGateway` | finvault-dashboard/src/App.tsx:36-49 | With the gateway's list call, after the fetch the queue is exactly the delivered records, or `[]` when the call failed. |
| `App.CaseUpdateReconciles` | finvault-dashboard/src/App.tsx:53-61 | After `handleCaseUpdate(r)` no case has `r.id`. Every other case is kept, with its multiplicity and in its original order. The selection is the first remaining case, or none when none remain. `isLoading` and `isSheetOpen` are unchanged. |
| `App.QueueStaysNew` | finvault-dashboard/src/App.tsx:40 | The queue holds only `New` cases as long as the store's list does: the fetch stores that list and reconciliation only removes cases. |
| `App.RowOf` | finvault-dashboard/src/App.tsx:125-143 | A row is keyed by the record's id, shows its case id, and a click on it selects that record. |
| `App.RenderRows` | finvault-dashboard/src/App.tsx:124-144 | There is one row per case, in queue order, keyed by its id. Clicking row k selects case k. |
| `App.RenderBody` | finvault-dashboard/src/App.tsx:105-145 | The body is exactly one of three: the loading row when loading; otherwise the empty-queue row when there are no cases; otherwise one row per case, where clicking row k corresponds to clicking case k. |
| `App.FetchThenRender` | finvault-dashboard/src/App.tsx:105-124 | Once the fetch settles, N delivered records render as N rows in delivered order. An empty list or a failed call renders the empty-queue row. |
| `App.Apply` | finvault-dashboard/src/App.tsx:31-66 | One dashboard event. The fetch phase only moves forward; once the fetch has settled, an event keeps `isLoading` and never adds a case. |
| `App.Replay` | finvault-dashboard/src/App.tsx:31-66 | A sequence of dashboard events never moves the fetch phase back. |
| `App.DashboardLoadingNeverReturns` | finvault-dashboard/src/App.tsx:31-51 | Once the fetch has settled, after any events loading stays off and the queue only loses cases, so no second fetch can restore a removed case. |
| `App.LoadingRowUntilSettled` | finvault-dashboard/src/App.tsx:105-114 | From the first render, after any events, the loading row shows exactly until the mount fetch settles, and the queue is empty until then. |
| `App.Notify` | finvault-dashboard/src/App.tsx:153-157 | `onCaseUpdate` runs `handleCaseUpdate`. `onClose` closes the sheet and keeps queue and selection. Neither touches `isLoading` or adds a case. |
| `App.NotifyAll` | finvault-dashboard/src/App.tsx:153-157 | Any sequence of panel callbacks keeps `isLoading` and only removes cases from the queue. |
| `App.SuccessfulTransition` | finvault-dashboard/src/App.tsx:153-157 | An update the store accepts removes the returned record's id from the queue. The first remaining case, or none, becomes the selection. The sheet closes, the panel is Idle again, and `isLoading` is unchanged. |
| `App.FailedTransition` | finvault-dashboard/src/components/CaseDetailPanel.tsx:57-61 | A rejected update calls no callback. Queue, selection and sheet are unchanged, and the panel is Idle again, ready for a retry. |
| `App.LateSuccessAfterSheetClosed` | finvault-dashboard/src/components/CaseDetailPanel.tsx:53-56 | The sheet is closed while an update is Pending, and another row is opened. When the update then succeeds, the returned id still leaves the queue, the first remaining case is selected and the reopened sheet closes. |
| `App.ReopenedPanelIssuesSecondUpdate` | finvault-dashboard/src/components/CaseDetailPanel.tsx:45-49 | After the sheet is closed during a Pending update and reopened on another row, the new panel starts Idle, and a click issues a second update for the other record while the first is outstanding. |
| `App.ConfirmFraudScenario` | finvault-dashboard/src/components/CaseDetailPanel.tsx:54-56 | Queue `[A, B]`, A selected, "Confirm Fraud" accepted: the queue is `[B]`, B is selected, and the sheet is closed. |
| `App.Dashboard.constructor` | finvault-dashboard/src/App.tsx:26-29 | The initial state: no cases, loading, nothing selected, sheet closed. |
| `App.Dashboard.StartFetch` | finvault-dashboard/src/App.tsx:35-36 | Performs `FetchStarted` on the fields: once per mount. |
| `App.Dashboard.FetchDone` | finvault-dashboard/src/App.tsx:37-50 | Performs `FetchSettled` on the fields: only for the fetch in flight. |
| `App.Dashboard.HandleCaseUpdate` | finvault-dashboard/src/App.tsx:53-61 | Performs `CaseUpdated` on the fields. |
| `App.Dashboard.HandleRowClick` | finvault-dashboard/src/App.tsx:63-66 | Performs `RowClicked` on the fields. |
| `App.Dashboard.SetIsSheetOpen` | finvault-dashboard/src/App.tsx:151-156 | Performs `SheetOpenChanged` on the fields. |
| `AuthContext.UserOf` | finvault-dashboard/src/context/AuthContext.tsx:30 | `session?.user ?? null`: a user exactly when there is a session, and then the session's user. |
| `AuthContext.Step` | finvault-dashboard/src/context/AuthContext.tsx:24-45 | One event. The lifecycle only moves forward, and once released nothing changes. An auth change keeps `isLoading`, and only the effect or the session check changes it. |
| `AuthContext.Run` | finvault-dashboard/src/context/AuthContext.tsx:24-45 | A sequence of events never moves the lifecycle backwards. |
| `AuthContext.StepEffect` | finvault-dashboard/src/context/AuthContext.tsx:28-45 | While subscribed, the session check sets the session, the session's user (or none) and `isLoading` false. An auth change sets session and user. No auth change touches `isLoading`. Cleanup leaves the value and ends the subscription. |
| `AuthContext.StepConsistent` | finvault-dashboard/src/context/AuthContext.tsx:30 | Every event keeps the user equal to the session's user, or none without a session. |
| `AuthContext.RunConsistent` | finvault-dashboard/src/context/AuthContext.tsx:21-39 | The session/user agreement holds after any sequence of events. |
| `AuthContext.NotificationsKeepLoading` | finvault-dashboard/src/context/AuthContext.tsx:37-40 | Any number of auth-change notifications leave `isLoading` as it was. |
| `AuthContext.ReleasedIsFinal` | finvault-dashboard/src/context/AuthContext.tsx:43-45 | After cleanup no event changes anything. |
| `AuthContext.CleanupFreezesValue` | finvault-dashboard/src/context/AuthContext.tsx:43-45 | After cleanup the exposed value is frozen at what it was, whatever follows. |
| `AuthContext.LoadingUntilSessionChecked` | finvault-dashboard/src/context/AuthContext.tsx:28-32 | Loading ends only through a session check. If none has arrived, `isLoading` still holds. |
| `AuthContext.RunReachable` | finvault-dashboard/src/context/AuthContext.tsx:20-45 | The invariant (user agrees with session; not loading only after mount) holds after any events. |
| `AuthContext.LoadingNeverReturns` | finvault-dashboard/src/context/AuthContext.tsx:24-46 | Once loading has finished in a reachable state, it stays finished after any events. |
| `AuthContext.UseAuth` | finvault-dashboard/src/context/AuthContext.tsx:59-64 | Without a provider value it fails. Otherwise it returns that value unchanged. |
| `AuthContext.AuthProvider.constructor` | finvault-dashboard/src/context/AuthContext.tsx:20-22 | Initial state: no session, no user, loading, effect not yet run. |
| `AuthContext.AuthProvider.RunEffect` | finvault-dashboard/src/context/AuthContext.tsx:24-40 | Performs the `EffectRun` step on the fields. |
| `AuthContext.AuthProvider.OnSessionChecked` | finvault-dashboard/src/context/AuthContext.tsx:28-32 | Performs the `SessionChecked` step and keeps the invariant. |
| `AuthContext.AuthProvider.OnAuthStateChange` | finvault-dashboard/src/context/AuthContext.tsx:37-40 | Performs the `AuthStateChanged` step and keeps the invariant. |
| `AuthContext.AuthProvider.Unsubscribe` | finvault-dashboard/src/context/AuthContext.tsx:43-45 | Performs the `Cleanup` step: the subscription is released. |
| `AuthGate.Gate` | finvault-dashboard/src/components/Auth.tsx:10-22 | The spinner exactly while loading, whatever the session. Otherwise the login page exactly without a session, and the children exactly with one. |
| `AuthGate.RenderAuth` | finvault-dashboard/src/components/Auth.tsx:8-22 | Outside a provider the gate fails, as `useAuth` throws. Inside one it makes `Gate`'s choice on the provider's value. |
| `AuthGate.DashboardNeedsSession` | finvault-dashboard/src/components/Auth.tsx:10-22 | After any provider events from the initial state, the dashboard is shown only once a session check has arrived and a session exists. There is then a signed-in user to display. |
| `AuthGate.FirstRenderSpins` | finvault-dashboard/src/context/AuthContext.tsx:20-22 | On first render the gate shows the spinner. |

## Left out

- Markup, CSS classes, toasts, console logging and `toLocaleString` formatting are not
  modelled. The table cells carry the raw field values.
- Asynchrony is not modelled: every handler is one atomic step on the latest state.
  - React's stale closures are not modelled. `handleCaseUpdate` reads `cases` from the
    render it was created in. With one update in flight at a time this is the latest queue.
    With two in flight (see `DetailPanel.AtMostOneRequestInFlight` below) it is not, and the
    model's result differs from the code's. For example: queue [A, B, C]; press A, Cancel,
    open B, press B; A settles, and the queue becomes [B, C]; B settles, and its closure
    filters the earlier [A, B, C], so the queue becomes [A, C] with A selected, although A
    has already left `New` in the store. Applying both callbacks in turn, as the model does,
    gives [C].
  - Batched state updates are not modelled.
  - The panel reads the selected record when the transition starts.
- No request is ever cancelled, and three late results are discarded.
  - On the provider, events after cleanup are discarded: this is the `Released` lifecycle.
  - A fetch result that reaches an unmounted dashboard is discarded by React. The model
    has no unmount for the dashboard, so this case is not modelled.
  - The panel's late callbacks are not discarded. Cancel and the sheet's own close stay
    enabled while an update is Pending. When that update settles, `onCaseUpdate` and
    `onClose` still reach the mounted dashboard: they remove the case, move the selection
    and close whatever sheet is open by then (`App.LateSuccessAfterSheetClosed`). Only the
    unmounted panel's own `setIsUpdating(null)` is lost, which is the third discarded result.
- `DetailPanel.CaseDetailPanel.HandleStatusChange`: the panel keeps a single pending
  request. An unguarded second call would replace the first. Within one panel instance the
  buttons never make one (`DetailPanel.AtMostOneRequestInFlight`).
- `DetailPanel.AtMostOneRequestInFlight`: the guarantee holds per panel instance only.
  Mounting a new panel when the sheet opens is not modelled as a step; a new panel is
  `DetailPanel.Idle`. Cancel (`CaseDetailPanel.tsx:135-137`) stays enabled while Pending, so
  Cancel followed by a row click mounts an Idle panel whose buttons are enabled. Two updates
  can then be in flight at once (`App.ReopenedPanelIssuesSecondUpdate`).
- The HTTP exchange is not modelled: URL, bearer header, `filterByFormula`, sort order and
  the PATCH body are left out. Only the two calls' outcomes are modelled. The queue being
  all `New` is trusted from the store (`App.QueueStaysNew`).
- A rejected `getSession` is not modelled as an event. The source has no handler for it,
  so the model simply never receives a `SessionChecked` event and `isLoading` stays true.
- React's development double run of effects is not modelled: `EffectRun` acts only
  before the first mount.
- The Log Out button (`App.tsx:87`) is delegated to the authentication SDK. Its effect
  reaches the model as an `AuthStateChanged(None)` event.
- `LoginPage.tsx` is not part of this model: it is a form around an SDK sign-in call.
- `supabaseClient.ts` is not part of this model: the environment check and SDK client
  construction are configuration and I/O.
- `vite-env.d.ts` is not part of this model: it holds only type declarations.
- `generate_data.py` is not part of this model: it generates random data and inserts it
  over the network.
- Floating-point risk scores and amounts are `real`. They are only displayed; no
  arithmetic is modelled.
