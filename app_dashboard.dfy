/**
 * The case-queue dashboard: the fetched queue, the selected case, the loading flag and the
 * detail sheet's open flag, with the events that change them and the table they render.
 */
module App {
  import opened Wrappers
  import opened CaseTypes
  import opened AirtableService
  import opened DetailPanel

  // ---------------------------------------------------------------------------------------
  // The id filter of handleCaseUpdate
  // ---------------------------------------------------------------------------------------

  /** `cases.filter(c => c.id !== id)`. */
  function Remaining(cases: seq<CaseRecord>, id: string): (r: seq<CaseRecord>)
    ensures |r| <= |cases|
    ensures forall k :: 0 <= k < |r| ==> r[k].id != id
    ensures forall c :: c in r <==> c in cases && c.id != id
  {
    if cases == [] then []
    else if cases[0].id == id then Remaining(cases[1..], id)
    else [cases[0]] + Remaining(cases[1..], id)
  }

  /** `r` is `s` with some elements left out, the rest kept in their order. */
  ghost predicate SubsequenceOf<T>(r: seq<T>, s: seq<T>)
    decreases |s|
  {
    r == [] || (s != [] && ((r[0] == s[0] && SubsequenceOf(r[1..], s[1..])) || SubsequenceOf(r, s[1..])))
  }

  /** The remaining records are a subsequence of the queue: the relative order is kept. */
  lemma {:induction false} RemainingKeepsOrder(cases: seq<CaseRecord>, id: string)
    ensures SubsequenceOf(Remaining(cases, id), cases)
  {
    if cases != [] {
      RemainingKeepsOrder(cases[1..], id);
      var r := Remaining(cases, id);
      if cases[0].id != id {
        assert r[0] == cases[0] && r[1..] == Remaining(cases[1..], id);
      }
    }
  }

  /** Every record with a different id is kept as often as it occurs; the others all go. */
  lemma {:induction false} RemainingCounts(cases: seq<CaseRecord>, id: string, c: CaseRecord)
    ensures multiset(Remaining(cases, id))[c] == if c.id == id then 0 else multiset(cases)[c]
  {
    if cases != [] {
      RemainingCounts(cases[1..], id, c);
      assert cases == [cases[0]] + cases[1..];
    }
  }

  /** Filtering out an id that no record carries keeps the queue as it is. */
  lemma {:induction false} RemainingWithoutMatch(cases: seq<CaseRecord>, id: string)
    requires forall k :: 0 <= k < |cases| ==> cases[k].id != id
    ensures Remaining(cases, id) == cases
  {
    if cases != [] {
      RemainingWithoutMatch(cases[1..], id);
      assert cases == [cases[0]] + cases[1..];
    }
  }

  /** A second filter by the same id removes nothing more. */
  lemma RemainingIdempotent(cases: seq<CaseRecord>, id: string)
    ensures Remaining(Remaining(cases, id), id) == Remaining(cases, id)
  {
    RemainingWithoutMatch(Remaining(cases, id), id);
  }

  // ---------------------------------------------------------------------------------------
  // Dashboard state and its events
  // ---------------------------------------------------------------------------------------

  /**
   * How far the mount effect has got. Its dependency list is empty, so it runs once per
   * mount: the fetch is started once and settles once.
   */
  datatype FetchPhase = NotStarted | InFlight | Settled

  /** The four `useState` hooks of `Dashboard`, and the mount fetch's phase. */
  datatype DashboardState = DashboardState(
    cases: seq<CaseRecord>,
    isLoading: bool,
    selectedCase: Option<CaseRecord>,
    isSheetOpen: bool,
    fetchPhase: FetchPhase)

  /** The state on first render: no cases, loading, nothing selected, sheet closed, no fetch yet. */
  const Initial: DashboardState := DashboardState([], true, None, false, NotStarted)

  /**
   * The mount effect before its fetch settles: `setIsLoading(true)`, and the fetch is in flight.
   * The effect runs only on mount; afterwards nothing changes.
   */
  function FetchStarted(d: DashboardState): (d': DashboardState)
    ensures d.fetchPhase == NotStarted ==> d'.isLoading && d'.fetchPhase == InFlight
    ensures d.fetchPhase != NotStarted ==> d' == d
    ensures d'.cases == d.cases && d'.selectedCase == d.selectedCase && d'.isSheetOpen == d.isSheetOpen
  {
    if d.fetchPhase == NotStarted then d.(isLoading := true, fetchPhase := InFlight) else d
  }

  /**
   * The in-flight fetch settles: `then` stores the data, `catch` keeps the queue, `finally`
   * clears the loading flag. Selection and sheet are not touched. Without a fetch in flight
   * there is nothing to settle.
   */
  function FetchSettled(d: DashboardState, outcome: Result<seq<CaseRecord>>): (d': DashboardState)
    ensures d.fetchPhase == InFlight ==> !d'.isLoading && d'.fetchPhase == Settled
    ensures d.fetchPhase == InFlight && outcome.Ok? ==> d'.cases == outcome.value
    ensures d.fetchPhase == InFlight && outcome.Err? ==> d'.cases == d.cases
    ensures d.fetchPhase != InFlight ==> d' == d
    ensures d'.selectedCase == d.selectedCase && d'.isSheetOpen == d.isSheetOpen
  {
    if d.fetchPhase != InFlight then d
    else
      match outcome
      case Ok(data) => d.(cases := data, isLoading := false, fetchPhase := Settled)
      case Err(_) => d.(isLoading := false, fetchPhase := Settled)
  }

  /**
   * `handleCaseUpdate(updatedRecord)`: no case with the updated id is left, the selection
   * moves to the first remaining case (or none), and the two flags are kept.
   */
  function CaseUpdated(d: DashboardState, updatedRecord: CaseRecord): (d': DashboardState)
    ensures forall c :: c in d'.cases <==> c in d.cases && c.id != updatedRecord.id
    ensures d'.selectedCase == if d'.cases != [] then Some(d'.cases[0]) else None
    ensures d'.isLoading == d.isLoading && d'.isSheetOpen == d.isSheetOpen
  {
    var remainingCases := Remaining(d.cases, updatedRecord.id);
    d.(cases := remainingCases,
       selectedCase := if |remainingCases| > 0 then Some(remainingCases[0]) else None)
  }

  /** `handleRowClick(record)`: select the record and open the sheet. */
  function RowClicked(d: DashboardState, record: CaseRecord): (d': DashboardState)
    ensures d'.selectedCase == Some(record) && d'.isSheetOpen
    ensures d'.cases == d.cases && d'.isLoading == d.isLoading
  {
    d.(selectedCase := Some(record), isSheetOpen := true)
  }

  /** `setIsSheetOpen(open)`: the sheet's `onOpenChange`, and the panel's `onClose` with `false`. */
  function SheetOpenChanged(d: DashboardState, open: bool): (d': DashboardState)
    ensures d'.isSheetOpen == open
    ensures d'.cases == d.cases && d'.selectedCase == d.selectedCase && d'.isLoading == d.isLoading
  {
    d.(isSheetOpen := open)
  }

  /**
   * The gateway's list promise never rejects, so after the mount fetch the queue is exactly
   * what the store delivered, or empty when the call failed.
   */
  lemma FetchFromGateway(d: DashboardState, response: Response<seq<CaseRecord>>)
    requires d.fetchPhase == NotStarted
    ensures var d' := FetchSettled(FetchStarted(d), GetNewCases(response));
      && !d'.isLoading
      && d'.cases == (if response.Delivered? then response.body else [])
  {
  }

  /**
   * After `handleCaseUpdate(r)`: no record has `r.id`; every other record is kept as often as
   * it occurred, in the original order; the selection is the first remaining record, or none;
   * the loading and sheet flags are unchanged.
   */
  lemma {:induction false} CaseUpdateReconciles(d: DashboardState, r: CaseRecord)
    ensures var d' := CaseUpdated(d, r);
      && (forall k :: 0 <= k < |d'.cases| ==> d'.cases[k].id != r.id)
      && SubsequenceOf(d'.cases, d.cases)
      && (forall c: CaseRecord :: c.id != r.id ==> multiset(d'.cases)[c] == multiset(d.cases)[c])
      && (d'.selectedCase.Some? <==> d'.cases != [])
      && (d'.cases != [] ==> d'.selectedCase == Some(d'.cases[0]))
      && d'.isLoading == d.isLoading && d'.isSheetOpen == d.isSheetOpen
  {
    RemainingKeepsOrder(d.cases, r.id);
    forall c: CaseRecord | c.id != r.id
      ensures multiset(CaseUpdated(d, r).cases)[c] == multiset(d.cases)[c]
    {
      RemainingCounts(d.cases, r.id, c);
    }
  }

  /** The queue holds only records whose status is `New`. */
  predicate AllNew(cases: seq<CaseRecord>)
  {
    forall k :: 0 <= k < |cases| ==> cases[k].fields.status == New
  }

  /**
   * The queue holds only `New` records as long as the store's filtered list does: the fetch
   * stores that list and reconciliation only removes records.
   */
  lemma {:induction false} QueueStaysNew(d: DashboardState, response: Response<seq<CaseRecord>>, r: CaseRecord)
    requires AllNew(d.cases)
    requires response.Delivered? ==> AllNew(response.body)
    ensures AllNew(FetchSettled(d, GetNewCases(response)).cases)
    ensures AllNew(CaseUpdated(d, r).cases)
  {
    var rest := CaseUpdated(d, r).cases;
    forall k | 0 <= k < |rest| ensures rest[k].fields.status == New {
      assert rest[k] in d.cases;
    }
  }

  // ---------------------------------------------------------------------------------------
  // Runs of dashboard events
  // ---------------------------------------------------------------------------------------

  /** What reaches the dashboard while it is mounted. */
  datatype DashboardEvent =
    | MountEffect                                   // the mount effect runs
    | FetchResolved(outcome: Result<seq<CaseRecord>>) // the list promise settles
    | CaseUpdate(record: CaseRecord)                // the panel's `onCaseUpdate`
    | RowClick(record: CaseRecord)                  // a table row is clicked
    | SheetOpenChange(open: bool)                   // `setIsSheetOpen`, from the sheet or `onClose`

  /** The position of a fetch phase in mount order. */
  function PhaseRank(f: FetchPhase): nat
  {
    match f
    case NotStarted => 0
    case InFlight => 1
    case Settled => 2
  }

  /**
   * One event. The fetch phase only moves forward; after the fetch has settled, no event
   * touches the loading flag or brings a case into the queue.
   */
  function Apply(d: DashboardState, ev: DashboardEvent): (d': DashboardState)
    ensures PhaseRank(d.fetchPhase) <= PhaseRank(d'.fetchPhase)
    ensures d.fetchPhase == Settled ==>
      d'.isLoading == d.isLoading && forall c :: c in d'.cases ==> c in d.cases
  {
    match ev
    case MountEffect => FetchStarted(d)
    case FetchResolved(outcome) => FetchSettled(d, outcome)
    case CaseUpdate(record) => CaseUpdated(d, record)
    case RowClick(record) => RowClicked(d, record)
    case SheetOpenChange(open) => SheetOpenChanged(d, open)
  }

  /** The events one after the other: the fetch phase never moves back. */
  function Replay(d: DashboardState, events: seq<DashboardEvent>): (d': DashboardState)
    ensures PhaseRank(d.fetchPhase) <= PhaseRank(d'.fetchPhase)
    decreases |events|
  {
    if events == [] then d else Replay(Apply(d, events[0]), events[1..])
  }

  /**
   * Once the mount fetch has settled and loading has ended, loading never starts again and
   * the queue only loses cases, whatever events follow: a second fetch cannot bring back a
   * case that `handleCaseUpdate` removed.
   */
  lemma {:induction false} DashboardLoadingNeverReturns(d: DashboardState, events: seq<DashboardEvent>)
    requires d.fetchPhase == Settled && !d.isLoading
    ensures var d' := Replay(d, events);
      && d'.fetchPhase == Settled && !d'.isLoading
      && forall c :: c in d'.cases ==> c in d.cases
    decreases |events|
  {
    if events != [] {
      DashboardLoadingNeverReturns(Apply(d, events[0]), events[1..]);
    }
  }

  /** The flag follows the phase: loading exactly until the fetch settles, with no cases before. */
  predicate PhaseInvariant(d: DashboardState)
  {
    && (d.isLoading <==> d.fetchPhase != Settled)
    && (d.fetchPhase != Settled ==> d.cases == [])
  }

  /**
   * From the first render (`Initial` keeps the invariant), after any events, the table shows
   * the loading row exactly until the mount fetch has settled, and never after.
   */
  lemma {:induction false} LoadingRowUntilSettled(d: DashboardState, events: seq<DashboardEvent>)
    requires PhaseInvariant(d)
    ensures var d' := Replay(d, events);
      PhaseInvariant(d') && (RenderBody(d').LoadingRow? <==> d'.fetchPhase != Settled)
    decreases |events|
  {
    if events != [] {
      var d1 := Apply(d, events[0]);
      assert PhaseInvariant(d1) by {
        if events[0].CaseUpdate? && d.fetchPhase != Settled {
          assert d1.cases == Remaining([], events[0].record.id);
        }
      }
      LoadingRowUntilSettled(d1, events[1..]);
    }
  }

  // ---------------------------------------------------------------------------------------
  // The table body
  // ---------------------------------------------------------------------------------------

  /** One table row: its React key, its five cells, and the record a click on it selects. */
  datatype RowView = RowView(
    key: string,
    caseId: string,
    customerName: string,
    country: string,
    amount: real,
    riskScore: real,
    onClickSelects: CaseRecord)

  /** The three mutually exclusive table bodies. */
  datatype TableBodyView = LoadingRow | EmptyQueueRow | CaseRows(rows: seq<RowView>)

  /** The row for one record: keyed by the record's id, and a click on it selects the record. */
  function RowOf(record: CaseRecord): (row: RowView)
    ensures row.key == record.id && row.caseId == record.fields.caseId && row.onClickSelects == record
  {
    RowView(record.id, record.fields.caseId, record.fields.customerName,
            record.fields.transactionCountry, record.fields.transactionAmount,
            record.fields.riskScore, record)
  }

  /** `cases.map(record => <TableRow …>)`: one row per record, in queue order. */
  function RenderRows(cases: seq<CaseRecord>): (rows: seq<RowView>)
    ensures |rows| == |cases|
    ensures forall k :: 0 <= k < |rows| ==> rows[k].key == cases[k].id && rows[k].onClickSelects == cases[k]
  {
    if cases == [] then [] else [RowOf(cases[0])] + RenderRows(cases[1..])
  }

  /** The table body: the loading row, else the empty-queue row, else the case rows. */
  function RenderBody(d: DashboardState): (v: TableBodyView)
    ensures v.LoadingRow? <==> d.isLoading
    ensures v.EmptyQueueRow? <==> !d.isLoading && d.cases == []
    ensures v.CaseRows? <==> !d.isLoading && d.cases != []
    ensures v.CaseRows? ==>
      && |v.rows| == |d.cases|
      && forall k :: 0 <= k < |v.rows| ==> v.rows[k].key == d.cases[k].id && v.rows[k].onClickSelects == d.cases[k]
  {
    if d.isLoading then LoadingRow
    else if |d.cases| == 0 then EmptyQueueRow
    else CaseRows(RenderRows(d.cases))
  }

  /**
   * Once the mount fetch settles, `N` delivered records render as `N` rows in delivered
   * order; an empty list, or a failed call, renders the empty-queue row and not an error.
   */
  lemma FetchThenRender(d: DashboardState, response: Response<seq<CaseRecord>>)
    requires d.fetchPhase == NotStarted
    ensures var v := RenderBody(FetchSettled(FetchStarted(d), GetNewCases(response)));
      && (response.Delivered? && response.body != [] ==>
            v.CaseRows? && |v.rows| == |response.body| &&
            forall k :: 0 <= k < |v.rows| ==> v.rows[k].onClickSelects == response.body[k])
      && (response.TransportError? || response.body == [] ==> v == EmptyQueueRow)
  {
  }

  // ---------------------------------------------------------------------------------------
  // The detail panel's callbacks, wired to the dashboard
  // ---------------------------------------------------------------------------------------

  /**
   * `onCaseUpdate={handleCaseUpdate}` and `onClose={() => setIsSheetOpen(false)}`: a callback
   * never touches the loading flag and never brings a case into the queue.
   */
  function Notify(d: DashboardState, callback: Callback): (d': DashboardState)
    ensures callback.OnCaseUpdate? ==> d' == CaseUpdated(d, callback.record)
    ensures callback.OnClose? ==> !d'.isSheetOpen && d'.cases == d.cases && d'.selectedCase == d.selectedCase
    ensures d'.isLoading == d.isLoading
    ensures forall c :: c in d'.cases ==> c in d.cases
  {
    match callback
    case OnCaseUpdate(record) => CaseUpdated(d, record)
    case OnClose => SheetOpenChanged(d, false)
  }

  /**
   * The callbacks delivered in the order the panel calls them: the loading flag is kept and
   * the queue only loses cases.
   */
  function NotifyAll(d: DashboardState, callbacks: seq<Callback>): (d': DashboardState)
    ensures d'.isLoading == d.isLoading
    ensures forall c :: c in d'.cases ==> c in d.cases
    decreases |callbacks|
  {
    if callbacks == [] then d else NotifyAll(Notify(d, callbacks[0]), callbacks[1..])
  }

  /**
   * A transition that the gateway accepts, end to end: the returned record's id leaves the
   * queue, the first remaining record becomes the selection (or none), the sheet closes,
   * and the panel is Idle again.
   */
  lemma {:induction false} SuccessfulTransition(d: DashboardState, p: PanelState, request: UpdateRequest,
                                                 delivered: CaseRecord)
    requires p.pending == Some(request)
    ensures var (p', calls) := UpdateSettled(p, UpdateCaseStatus(request, Delivered(delivered)));
      var d' := NotifyAll(d, calls);
      && p' == Idle
      && d'.cases == Remaining(d.cases, delivered.id)
      && (forall k :: 0 <= k < |d'.cases| ==> d'.cases[k].id != delivered.id)
      && d'.selectedCase == (if d'.cases != [] then Some(d'.cases[0]) else None)
      && !d'.isSheetOpen
      && d'.isLoading == d.isLoading
  {
    var (p', calls) := UpdateSettled(p, UpdateCaseStatus(request, Delivered(delivered)));
    assert calls == [OnCaseUpdate(delivered), OnClose];
    assert NotifyAll(d, calls) == NotifyAll(CaseUpdated(d, delivered), [OnClose]);
  }

  /**
   * A transition that the gateway rejects: no callback, so the queue, the selection and the
   * sheet are as they were, and the panel is Idle again for a retry.
   */
  lemma {:induction false} FailedTransition(d: DashboardState, p: PanelState, request: UpdateRequest,
                                             message: string)
    requires p.pending == Some(request)
    ensures var (p', calls) := UpdateSettled(p, UpdateCaseStatus(request, TransportError(message)));
      p' == Idle && calls == [] && NotifyAll(d, calls) == d
  {
    var (p', calls) := UpdateSettled(p, UpdateCaseStatus(request, TransportError(message)));
    assert calls == [];
  }

  /**
   * The sheet can be closed (Cancel, or the sheet's own close) while an update is Pending, and
   * another row opened. When the update then succeeds, the closed panel's callbacks still reach
   * the dashboard: the returned id leaves the queue, the selection moves to the first remaining
   * case, and the sheet that was reopened closes. `p` is the state of the closed panel.
   */
  lemma {:induction false} LateSuccessAfterSheetClosed(d: DashboardState, p: PanelState, request: UpdateRequest,
                                                        other: CaseRecord, delivered: CaseRecord)
    requires p.pending == Some(request)
    ensures var reopened := RowClicked(SheetOpenChanged(d, false), other);
      var (p', calls) := UpdateSettled(p, UpdateCaseStatus(request, Delivered(delivered)));
      var d' := NotifyAll(reopened, calls);
      && reopened.isSheetOpen
      && d'.cases == Remaining(d.cases, delivered.id)
      && d'.selectedCase == (if d'.cases != [] then Some(d'.cases[0]) else None)
      && !d'.isSheetOpen
  {
    SuccessfulTransition(RowClicked(SheetOpenChanged(d, false), other), p, request, delivered);
  }

  /**
   * Closing the sheet unmounts the panel, and reopening it on another row mounts a new, Idle
   * one. Its buttons are enabled, so a click issues a second update while the closed panel's
   * update is still outstanding: the one-request guarantee holds per panel instance only.
   * Closing and reopening the sheet leaves the closed panel's state `p` as it was.
   */
  lemma ReopenedPanelIssuesSecondUpdate(d: DashboardState, p: PanelState, request: UpdateRequest,
                                        other: CaseRecord, action: Action)
    requires p.pending == Some(request)
    ensures var reopened := RowClicked(SheetOpenChanged(d, false), other);
      var (newPanel, second) := Pressed(Idle, reopened.selectedCase, action);
      && p.pending == Some(request)
      && reopened.isSheetOpen
      && second == Some(UpdateRequest(other.id, Target(action)))
      && newPanel.pending == second
  {
  }

  /**
   * Two `New` records A and B; A is selected and "Confirm Fraud" succeeds with A' (same id,
   * status `ClosedFraud`). The queue becomes [B] and B is selected, but the sheet is closed.
   */
  lemma ConfirmFraudScenario(a: CaseRecord, b: CaseRecord)
    requires a.id == "1" && b.id == "2"
    requires a.fields.status == New && b.fields.status == New
    ensures var d := RowClicked(FetchSettled(FetchStarted(Initial), GetNewCases(Delivered([a, b]))), a);
      var (p1, request) := Pressed(Idle, d.selectedCase, ConfirmFraud);
      && request == Some(UpdateRequest("1", ClosedFraud))
      && var a' := a.(fields := a.fields.(status := ClosedFraud));
         var (p2, calls) := UpdateSettled(p1, UpdateCaseStatus(request.value, Delivered(a')));
         var d' := NotifyAll(d, calls);
         && d'.cases == [b]
         && d'.selectedCase == Some(b)
         && !d'.isSheetOpen
         && p2 == Idle
  {
    var d := RowClicked(FetchSettled(FetchStarted(Initial), GetNewCases(Delivered([a, b]))), a);
    var a' := a.(fields := a.fields.(status := ClosedFraud));
    assert d.cases == [a, b];
    assert Remaining([a, b], "1") == [b] by {
      assert [a, b][1..] == [b];
      assert Remaining([b], "1") == [b] + Remaining([], "1");
    }
    var (p1, request) := Pressed(Idle, d.selectedCase, ConfirmFraud);
    var (p2, calls) := UpdateSettled(p1, UpdateCaseStatus(request.value, Delivered(a')));
    assert calls == [OnCaseUpdate(a'), OnClose];
    assert NotifyAll(d, calls) == NotifyAll(CaseUpdated(d, a'), [OnClose]);
  }

  // ---------------------------------------------------------------------------------------
  // The component
  // ---------------------------------------------------------------------------------------

  /** The `Dashboard` component's state hooks; each handler is one atomic step. */
  class Dashboard {
    var cases: seq<CaseRecord>
    var isLoading: bool
    var selectedCase: Option<CaseRecord>
    var isSheetOpen: bool
    var fetchPhase: FetchPhase

    function State(): DashboardState
      reads this
    {
      DashboardState(cases, isLoading, selectedCase, isSheetOpen, fetchPhase)
    }

    /** The initial values of the four hooks, before the mount effect. */
    constructor ()
      ensures State() == Initial
    {
      cases := [];
      isLoading := true;
      selectedCase := None;
      isSheetOpen := false;
      fetchPhase := NotStarted;
    }

    /**
     * The mount effect's synchronous part: `setIsLoading(true)`, then the fetch is issued.
     * It runs on mount only.
     */
    method StartFetch()
      modifies this
      ensures State() == FetchStarted(old(State()))
    {
      if fetchPhase == NotStarted {
        isLoading := true;
        fetchPhase := InFlight;
      }
    }

    /** The fetch promise's `then`/`catch`/`finally` handlers, for the fetch in flight. */
    method FetchDone(outcome: Result<seq<CaseRecord>>)
      modifies this
      ensures State() == FetchSettled(old(State()), outcome)
    {
      if fetchPhase != InFlight {
        return;
      }
      match outcome {
        case Ok(data) =>
          cases := data;
        case Err(_) =>
      }
      isLoading := false;
      fetchPhase := Settled;
    }

    /** `handleCaseUpdate(updatedRecord)`. */
    method HandleCaseUpdate(updatedRecord: CaseRecord)
      modifies this
      ensures State() == CaseUpdated(old(State()), updatedRecord)
    {
      var remainingCases := Remaining(cases, updatedRecord.id);
      cases := remainingCases;
      if |remainingCases| > 0 {
        selectedCase := Some(remainingCases[0]);
      } else {
        selectedCase := None;
      }
    }

    /** `handleRowClick(record)`. */
    method HandleRowClick(record: CaseRecord)
      modifies this
      ensures State() == RowClicked(old(State()), record)
    {
      selectedCase := Some(record);
      isSheetOpen := true;
    }

    /** `setIsSheetOpen(open)`. */
    method SetIsSheetOpen(open: bool)
      modifies this
      ensures State() == SheetOpenChanged(old(State()), open)
    {
      isSheetOpen := open;
    }
  }
}
