/**
 * The status-transition panel shown for the selected case.
 *
 * Its only state is `isUpdating`: none while Idle, the chosen target while a transition is
 * Pending. The selected record and the two callbacks are props, so they are parameters here;
 * the callbacks the panel calls are returned, in call order, as a sequence of `Callback`s.
 */
module DetailPanel {
  import opened Wrappers
  import opened CaseTypes
  import opened AirtableService

  /** The three action buttons of the panel footer. */
  datatype Action = Approve | Investigate | ConfirmFraud

  /** The buttons in footer order. */
  const Actions: seq<Action> := [Approve, Investigate, ConfirmFraud]

  /** The fixed status each button asks for: never `New`. */
  function Target(a: Action): (target: CaseStatus)
    ensures target != New
  {
    match a
    case Approve => ClosedLegitimate
    case Investigate => UnderInvestigation
    case ConfirmFraud => ClosedFraud
  }

  /** The button, if any, that asks for status `s`. */
  function ActionFor(s: CaseStatus): Option<Action>
  {
    match s
    case New => None
    case UnderInvestigation => Some(Investigate)
    case ClosedFraud => Some(ConfirmFraud)
    case ClosedLegitimate => Some(Approve)
  }

  /**
   * The offered targets are exactly the statuses other than `New`, one button each:
   * `ActionFor` inverts `Target`, and every button is in the footer.
   */
  lemma TargetsAreTheNonNewStatuses()
    ensures forall a: Action :: Target(a) != New && ActionFor(Target(a)) == Some(a)
    ensures forall s: CaseStatus :: ActionFor(s).Some? <==> s != New
    ensures forall s: CaseStatus :: ActionFor(s).Some? ==> Target(ActionFor(s).value) == s
    ensures forall a: Action :: a in Actions
  {
    forall a: Action ensures a in Actions {
      match a
      case Approve => assert Actions[0] == a;
      case Investigate => assert Actions[1] == a;
      case ConfirmFraud => assert Actions[2] == a;
    }
  }

  /** The `statusStyles` record of `StatusBadge`: a colour class for each status. */
  const StatusStyles: map<CaseStatus, string> := map[
    New := "bg-blue-500 hover:bg-blue-600",
    UnderInvestigation := "bg-yellow-500 hover:bg-yellow-600",
    ClosedFraud := "bg-red-500 hover:bg-red-600",
    ClosedLegitimate := "bg-green-500 hover:bg-green-600"]

  /** The style map covers every status, with a different colour for each. */
  lemma StatusStylesTotal()
    ensures forall s: CaseStatus :: s in StatusStyles
    ensures forall s: CaseStatus, t: CaseStatus :: s in StatusStyles && t in StatusStyles && s != t ==>
      StatusStyles[s] != StatusStyles[t]
  {
    forall s: CaseStatus ensures s in StatusStyles {
      match s
      case New =>
      case UnderInvestigation =>
      case ClosedFraud =>
      case ClosedLegitimate =>
    }
  }

  /** The class string of the badge for `status`: the status's colour classes come first. */
  function BadgeClass(status: CaseStatus): (cls: string)
    ensures status in StatusStyles && StatusStyles[status] <= cls
  {
    StatusStylesTotal();
    StatusStyles[status] + " text-white shadow-sm"
  }

  /** What the parent is told, in the order the panel calls it. */
  datatype Callback = OnCaseUpdate(record: CaseRecord) | OnClose

  /** `isUpdating`, and the update request a Pending panel is waiting on. */
  datatype PanelState = PanelState(isUpdating: Option<CaseStatus>, pending: Option<UpdateRequest>)

  /** A fresh panel: nothing in flight. */
  const Idle: PanelState := PanelState(None, None)

  /** Pending exactly when a request is outstanding, and then for that request's target. */
  predicate PanelValid(p: PanelState)
  {
    && (p.isUpdating.Some? <==> p.pending.Some?)
    && (p.pending.Some? ==> p.isUpdating == Some(p.pending.value.newStatus))
  }

  /**
   * `handleStatusChange(newStatus)` up to its `await`: with no record it returns at once;
   * otherwise it sets `isUpdating` and issues the update. Returns the request it issued.
   */
  function StatusChangeStarted(p: PanelState, caseRecord: Option<CaseRecord>, newStatus: CaseStatus)
    : (r: (PanelState, Option<UpdateRequest>))
    ensures caseRecord.None? ==> r == (p, None)
    ensures caseRecord.Some? ==>
      && r.1 == Some(UpdateRequest(caseRecord.value.id, newStatus))
      && r.0.isUpdating == Some(newStatus)
      && PanelValid(r.0)
  {
    match caseRecord
    case None => (p, None)
    case Some(c) =>
      var request := UpdateRequest(c.id, newStatus);
      (PanelState(Some(newStatus), Some(request)), Some(request))
  }

  /**
   * The rest of `handleStatusChange` once the update settles: on success `onCaseUpdate`
   * with the returned record and then `onClose`; on failure no callback; either way
   * `isUpdating` is cleared. Returns the new state and the callbacks called, in order.
   */
  function UpdateSettled(p: PanelState, outcome: Result<CaseRecord>): (r: (PanelState, seq<Callback>))
    requires p.pending.Some?
    ensures r.0 == Idle && PanelValid(r.0)
    ensures outcome.Ok? ==> r.1 == [OnCaseUpdate(outcome.value), OnClose]
    ensures outcome.Err? ==> r.1 == []
  {
    var calls := match outcome
      case Ok(updatedRecord) => [OnCaseUpdate(updatedRecord), OnClose]
      case Err(_) => [];
    (PanelState(None, None), calls)
  }

  /**
   * `disabled={!!isUpdating}`: the JavaScript truthiness of the optional status string.
   * Every label is non-empty, so the buttons are disabled exactly while a transition is Pending.
   */
  function ButtonDisabled(isUpdating: Option<CaseStatus>): (disabled: bool)
    ensures disabled <==> isUpdating.Some?
  {
    isUpdating.Some? && StatusLabel(isUpdating.value) != ""
  }

  /**
   * `isUpdating === target`: the comparison of the status strings. Labels are distinct, so a
   * button spins exactly when the Pending target is its own.
   */
  function ShowsSpinner(isUpdating: Option<CaseStatus>, target: CaseStatus): (spinner: bool)
    ensures spinner <==> isUpdating == Some(target)
  {
    if isUpdating.Some? then
      StatusLabelInjective(isUpdating.value, target);
      StatusLabel(isUpdating.value) == StatusLabel(target)
    else
      false
  }

  /**
   * A click on the button for `action`. A disabled button delivers no click; an enabled one
   * runs `handleStatusChange` for its target.
   */
  function Pressed(p: PanelState, caseRecord: Option<CaseRecord>, action: Action)
    : (r: (PanelState, Option<UpdateRequest>))
    ensures p.isUpdating.Some? ==> r == (p, None)
    ensures p.isUpdating.None? ==> r == StatusChangeStarted(p, caseRecord, Target(action))
  {
    if ButtonDisabled(p.isUpdating) then (p, None)
    else StatusChangeStarted(p, caseRecord, Target(action))
  }

  /**
   * Through the buttons at most one update is in flight: an Idle panel issues at most one
   * request, and once Pending, every further click is ignored until the update settles.
   */
  lemma {:induction false} AtMostOneRequestInFlight(p: PanelState, caseRecord: Option<CaseRecord>,
                                                     first: Action, second: Action)
    requires PanelValid(p) && p.isUpdating.None?
    ensures var (p1, req1) := Pressed(p, caseRecord, first);
      && PanelValid(p1)
      && (req1.Some? ==> p1.pending == req1 && Pressed(p1, caseRecord, second) == (p1, None))
      && (req1.None? ==> p1 == p)
  {
    var (p1, req1) := Pressed(p, caseRecord, first);
    if caseRecord.Some? {
      assert p1.isUpdating == Some(Target(first));
    }
  }

  /** One footer button as rendered. */
  datatype ButtonView = ButtonView(action: Action, target: CaseStatus, disabled: bool, spinner: bool)

  /** What the panel renders: nothing without a record, else the record and its footer. */
  datatype PanelView = Nothing | Detail(record: CaseRecord, badgeClass: string, buttons: seq<ButtonView>)

  /**
   * The button for `action` given `isUpdating`: aimed at the action's target, disabled exactly
   * while Pending, spinning exactly when the Pending target is its own.
   */
  function RenderButton(isUpdating: Option<CaseStatus>, action: Action): (b: ButtonView)
    ensures b.action == action && b.target == Target(action)
    ensures b.disabled <==> isUpdating.Some?
    ensures b.spinner <==> isUpdating == Some(Target(action))
  {
    ButtonView(action, Target(action), ButtonDisabled(isUpdating), ShowsSpinner(isUpdating, Target(action)))
  }

  /** The panel's render. */
  function Render(p: PanelState, caseRecord: Option<CaseRecord>): (v: PanelView)
    ensures v.Nothing? <==> caseRecord.None?
  {
    match caseRecord
    case None => Nothing
    case Some(c) =>
      Detail(c, BadgeClass(c.fields.status),
             [RenderButton(p.isUpdating, Approve),
              RenderButton(p.isUpdating, Investigate),
              RenderButton(p.isUpdating, ConfirmFraud)])
  }

  /**
   * The rendered footer: one button per action in footer order, each aimed at a non-`New`
   * status; all three disabled exactly while Pending; a spinner only on the Pending target.
   */
  lemma {:induction false} RenderedFooter(p: PanelState, caseRecord: Option<CaseRecord>)
    requires caseRecord.Some?
    ensures var v := Render(p, caseRecord);
      && v.Detail? && v.record == caseRecord.value && |v.buttons| == |Actions|
      && (forall i :: 0 <= i < |v.buttons| ==>
            && v.buttons[i].action == Actions[i]
            && v.buttons[i].target == Target(Actions[i]) != New
            && (v.buttons[i].disabled <==> p.isUpdating.Some?)
            && (v.buttons[i].spinner <==> p.isUpdating == Some(v.buttons[i].target)))
  {
  }

  /** The panel component's `isUpdating` state, plus the update it is waiting on. */
  class CaseDetailPanel {
    var isUpdating: Option<CaseStatus>
    var pending: Option<UpdateRequest>

    function State(): PanelState
      reads this
    {
      PanelState(isUpdating, pending)
    }

    /** Pending exactly while a request is outstanding, and then for its target. */
    predicate Valid()
      reads this
    {
      PanelValid(State())
    }

    /** `useState(null)`. */
    constructor ()
      ensures State() == Idle && Valid()
    {
      isUpdating := None;
      pending := None;
    }

    /** `handleStatusChange(newStatus)` up to its `await`; returns the request it issued. */
    method HandleStatusChange(caseRecord: Option<CaseRecord>, newStatus: CaseStatus)
      returns (request: Option<UpdateRequest>)
      requires Valid()
      modifies this
      ensures (State(), request) == StatusChangeStarted(old(State()), caseRecord, newStatus)
      ensures Valid()
    {
      if caseRecord.None? {
        return None;
      }
      isUpdating := Some(newStatus);
      request := Some(UpdateRequest(caseRecord.value.id, newStatus));
      pending := request;
    }

    /** The continuation of `handleStatusChange` after the update settles. */
    method UpdateResolved(outcome: Result<CaseRecord>) returns (calls: seq<Callback>)
      requires Valid() && pending.Some?
      modifies this
      ensures (State(), calls) == UpdateSettled(old(State()), outcome)
      ensures Valid()
    {
      match outcome {
        case Ok(updatedRecord) =>
          calls := [OnCaseUpdate(updatedRecord), OnClose];
        case Err(_) =>
          calls := [];
      }
      isUpdating := None;
      pending := None;
    }

    /** A click on the footer button for `action`; a disabled button ignores it. */
    method Press(caseRecord: Option<CaseRecord>, action: Action) returns (request: Option<UpdateRequest>)
      requires Valid()
      modifies this
      ensures (State(), request) == Pressed(old(State()), caseRecord, action)
      ensures Valid()
    {
      if ButtonDisabled(isUpdating) {
        return None;
      }
      request := HandleStatusChange(caseRecord, Target(action));
    }
  }
}
