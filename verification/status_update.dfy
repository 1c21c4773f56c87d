/** The status modal (src/components/FeedbackStatusUpdate.jsx): the choices it
    offers, how it composes the status text it sends, and its colour helper.
    The modal is modelled by the two pieces of state its submission reads:
    the `selectedStatus` component state (changed only by the select's change
    handler) and the form's field values. */
module StatusUpdate {
  import opened Wrappers
  import opened Js

  /** The select's options, in order. */
  const Choices: seq<string> := ["In Progress", "Resolved", "Closed", "Custom"]

  /** The select's initial form value. */
  const InitialFormStatus: string := "In Progress"

  /** `selectedStatus`, the select's form value, and the detail field's value. */
  datatype Modal = Modal(selectedStatus: string, formStatus: string, detail: Option<string>)

  /** Whether the detail field is shown (and then required). */
  predicate DetailShown(m: Modal)
  {
    m.selectedStatus == "Custom"
  }

  /** The modal as the source opens it: `selectedStatus` starts as '' although
      the select shows "In Progress". */
  const OpenedAsWritten: Modal := Modal("", InitialFormStatus, None)

  /** The modal as evidently intended: `selectedStatus` starts at the value
      the select shows. */
  const Opened: Modal := Modal(InitialFormStatus, InitialFormStatus, None)

  /** Choosing an option sets both the form value and `selectedStatus`. */
  function Choose(m: Modal, choice: string): (m': Modal)
    requires choice in Choices
    ensures m'.selectedStatus == choice && m'.formStatus == choice && m'.detail == m.detail
  {
    m.(selectedStatus := choice, formStatus := choice)
  }

  /** Typing into the detail field. */
  function EnterDetail(m: Modal, detail: string): (m': Modal)
    requires DetailShown(m)
    ensures m' == m.(detail := Some(detail))
  {
    m.(detail := Some(detail))
  }

  /** The text `handleSubmit` sends: "<selected>: <detail>" when the detail
      value is truthy, otherwise the selected status unchanged. */
  function ComposeStatus(selectedStatus: string, detail: Option<string>): (text: string)
    ensures Truthy(detail) ==> text == selectedStatus + ": " + detail.value
    ensures !Truthy(detail) ==> text == selectedStatus
  {
    if Truthy(detail) then selectedStatus + ": " + detail.value else selectedStatus
  }

  /** A composed text with a detail is never one of the recognised statuses,
      so a custom status never moves `feedbackStatus`. */
  lemma ComposedWithDetailIsNotRecognised(selectedStatus: string, detail: string)
    requires detail != ""
    ensures var text := ComposeStatus(selectedStatus, Some(detail));
            text != "Resolved" && text != "In Progress" && text != "Closed" && text != "Open"
  {
    var text := ComposeStatus(selectedStatus, Some(detail));
    assert text[|selectedStatus|] == ':';
    assert forall i :: 0 <= i < |"In Progress"| ==> "In Progress"[i] != ':';
    assert forall i :: 0 <= i < |"Resolved"| ==> "Resolved"[i] != ':';
  }

  /** `handleSubmit`: `None` when form validation fails (the select is
      empty, or the shown detail field is empty); otherwise the text sent.
      The detail value is part of the form values only while the field is
      shown. */
  function Submit(m: Modal): (sent: Option<string>)
    ensures sent.Some? <==> m.formStatus != "" && (DetailShown(m) ==> Truthy(m.detail))
    ensures sent.Some? && !DetailShown(m) ==> sent.value == m.selectedStatus
    ensures sent.Some? && DetailShown(m) ==> sent.value == "Custom: " + m.detail.value
  {
    var values := if DetailShown(m) then m.detail else None;
    if m.formStatus == "" || (DetailShown(m) && !Truthy(m.detail)) then None
    else Some(ComposeStatus(m.selectedStatus, values))
  }

  /** As written, submitting the freshly opened modal sends an empty status
      text, not the "In Progress" it displays. */
  lemma UntouchedSubmitSendsEmpty()
    ensures Submit(OpenedAsWritten) == Some("")
  {
  }

  // ----- The modal over time -----

  /** What the user does with the modal: pick an option, type into the detail
      field, or press "Update Status". */
  datatype Action = Pick(choice: string) | Type(detail: string) | Send

  /** The modal after `handleSubmit` has gone ahead. As written, the form's
      fields are reset (the select back to "In Progress", the detail cleared)
      but `selectedStatus` keeps the last choice: the component stays mounted
      while a request is selected in the table. As intended, the modal is
      back in its opened state. The update never throws, so the reset
      happens whatever the server answered. */
  function AfterSend(m: Modal, intended: bool): (m': Modal)
    ensures m'.formStatus == InitialFormStatus && m'.detail == None
    ensures intended ==> m' == Opened
    ensures !intended ==> m'.selectedStatus == m.selectedStatus
  {
    if intended then Opened else m.(formStatus := InitialFormStatus, detail := None)
  }

  /** One user action. Picking something that is not an option, or typing
      into a hidden detail field, cannot happen in the page and changes
      nothing here; a submission that fails validation changes nothing. */
  function Step(m: Modal, a: Action, intended: bool): Modal
  {
    match a
    case Pick(choice) => if choice in Choices then Choose(m, choice) else m
    case Type(detail) => if DetailShown(m) then EnterDetail(m, detail) else m
    case Send => if Submit(m).Some? then AfterSend(m, intended) else m
  }

  /** The modal after a sequence of actions. */
  function Run(m: Modal, actions: seq<Action>, intended: bool): Modal
    decreases |actions|
  {
    if actions == [] then m else Run(Step(m, actions[0], intended), actions[1..], intended)
  }

  /** `selectedStatus` agrees with the option the select shows. */
  predicate Synced(m: Modal)
  {
    m.selectedStatus == m.formStatus && m.selectedStatus in Choices
  }

  /** As written, a submission leaves the previous choice behind: the select
      shows "In Progress" again, yet the next untouched submit sends the
      choice made before. */
  lemma SendKeepsSelection(m: Modal)
    requires Submit(m).Some? && m.selectedStatus != "Custom"
    ensures var m' := Step(m, Send, false);
            m'.formStatus == InitialFormStatus && Submit(m') == Some(m.selectedStatus)
  {
  }

  /** Even from the corrected opened state, choosing "Resolved" and submitting
      leaves a modal that shows "In Progress" and sends "Resolved". */
  lemma StaleChoiceAfterSend()
    ensures var m := Run(Opened, [Pick("Resolved"), Send], false);
            m.formStatus == InitialFormStatus && Submit(m) == Some("Resolved")
  {
  }

  /** As intended, every action keeps `selectedStatus` equal to the shown
      option. */
  lemma {:induction false} RunIntendedStaysSynced(m: Modal, actions: seq<Action>)
    requires Synced(m)
    ensures Synced(Run(m, actions, true))
    decreases |actions|
  {
    if actions != [] {
      RunIntendedStaysSynced(Step(m, actions[0], true), actions[1..]);
    }
  }

  /** As intended, an untouched submit sends the "In Progress" the modal
      shows, and whatever the user did before, every submission sends a
      non-empty text: the shown option, or "Custom: <detail>". */
  lemma SubmitSendsShownStatus(actions: seq<Action>)
    ensures Submit(Opened) == Some(InitialFormStatus)
    ensures var m := Run(Opened, actions, true);
            Submit(m).Some? ==>
              && Submit(m).value != ""
              && (m.formStatus != "Custom" ==> Submit(m).value == m.formStatus)
              && (m.formStatus == "Custom" ==> m.detail.Some? && Submit(m).value == "Custom: " + m.detail.value)
  {
    RunIntendedStaysSynced(Opened, actions);
  }

  /** `getStatusColor`, with its "blue" default. A name inherited from
      `Object.prototype` would find an inherited member in the source's
      table; the contract says nothing about those names. */
  function StatusColor(status: string): (color: string)
    ensures status == "Open" ==> color == "blue"
    ensures status == "In Progress" ==> color == "orange"
    ensures status == "Resolved" ==> color == "green"
    ensures status == "Closed" ==> color == "gray"
    ensures status !in ["Open", "In Progress", "Resolved", "Closed"] && status !in ObjectPrototypeKeys ==> color == "blue"
  {
    match status
    case "Open" => "blue"
    case "In Progress" => "orange"
    case "Resolved" => "green"
    case "Closed" => "gray"
    case _ => "blue"
  }
}
