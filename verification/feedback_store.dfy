/** The client-side store (src/store/feedbackStore.js): the submission form's
    state, and the three actions that talk to the server and the issue
    tracker. Each action is a pure function of the store state and of the
    outcomes of its external calls, and returns the calls it made (in order),
    its return value and the store state once it has settled. */
module FeedbackStore {
  import opened Wrappers
  import opened Js
  import opened Schema

  // ----- Form state -----

  /** The form fields the submission form edits. */
  datatype FormField = TitleField | DescriptionField | PriorityField

  datatype FormState = FormState(title: string, description: string, priority: string)

  /** The empty form; its priority default differs from the schema's "Low". */
  const InitialForm: FormState := FormState("", "", "Medium")

  datatype ClientState = ClientState(
    feedbacks: seq<FeedbackRequest>,
    loading: bool,
    error: Option<string>,
    formState: FormState,
    message: string)

  const InitialState: ClientState := ClientState([], false, None, InitialForm, "")

  function FormValue(form: FormState, field: FormField): string
  {
    match field
    case TitleField => form.title
    case DescriptionField => form.description
    case PriorityField => form.priority
  }

  /** `updateFormField`: the named field takes the value; nothing else in the
      store changes. */
  function UpdateFormField(s: ClientState, field: FormField, value: string): (s': ClientState)
    ensures FormValue(s'.formState, field) == value
    ensures forall g :: g != field ==> FormValue(s'.formState, g) == FormValue(s.formState, g)
    ensures s' == s.(formState := s'.formState)
  {
    var form := s.formState;
    var form' := match field
      case TitleField => form.(title := value)
      case DescriptionField => form.(description := value)
      case PriorityField => form.(priority := value);
    s.(formState := form')
  }

  /** `resetForm`: the empty form, no error and no message; the list and the
      loading flag are kept. */
  function ResetForm(s: ClientState): (s': ClientState)
    ensures FormValue(s'.formState, TitleField) == "" && FormValue(s'.formState, DescriptionField) == ""
    ensures FormValue(s'.formState, PriorityField) == "Medium"
    ensures s'.error.None? && s'.message == ""
    ensures s'.feedbacks == s.feedbacks && s'.loading == s.loading
  {
    s.(formState := InitialForm, error := None, message := "")
  }

  /** Resetting forgets every edit made since. */
  lemma ResetForgetsEdits(s: ClientState, field: FormField, value: string)
    ensures ResetForm(UpdateFormField(s, field, value)) == ResetForm(s)
  {
  }

  // ----- Calls the store makes -----

  datatype Call =
    | Post(body: Patch)                              // POST /feedback-requests
    | Put(id: Id, body: Patch)                       // PUT /feedback-requests/:id
    | Fetch(id: Id)                                  // GET /feedback-requests/:id
    | List(params: seq<(string, string)>)            // GET /feedback-requests?...
    | CreateTicket(feedback: FeedbackRequest)        // createJiraIssueFromFeedback
    | UpdateTicket(issueKey: string, update: StatusEntry)  // updateJiraIssue

  /** A history as the store sends it back, with one more entry at the end. */
  function Appended(h: seq<StatusEntry>, description: string, now: Time): (entries: seq<StatusInput>)
    ensures |entries| == |h| + 1
    ensures entries[..|h|] == AsInputs(h)
    ensures entries[|h|] == StatusInput(description, Some(now))
  {
    AsInputs(h) + [StatusInput(description, Some(now))]
  }

  // ----- submitFeedbackRequest -----

  /** The POST body: the form fields, the ids, a one-entry history and "Open". */
  function DraftBody(form: FormState, userId: string, applicationId: string, now: Time): (p: Patch)
    ensures p.title == Some(form.title) && p.description == Some(form.description) && p.priority == Some(form.priority)
    ensures p.userId == Some(userId) && p.applicationId == Some(applicationId)
    ensures p.status == Some([StatusInput("Request created", Some(now))])
    ensures p.feedbackStatus == Some("Open")
    ensures forall f :: f in {UserNameKey, UserEmailKey, SubmittedDateKey, JiraTicketIdKey} ==> !Present(p, f)
  {
    EmptyPatch.(title := Some(form.title), description := Some(form.description), priority := Some(form.priority),
                userId := Some(userId), applicationId := Some(applicationId),
                status := Some([StatusInput("Request created", Some(now))]), feedbackStatus := Some("Open"))
  }

  /** The PUT body recording a created ticket: the ticket id, and the saved
      history plus one entry naming it. It carries no other key. */
  function TicketBody(saved: FeedbackRequest, ticketId: string, now: Time): (p: Patch)
    ensures forall f :: Present(p, f) <==> f == JiraTicketIdKey || f == StatusKey
    ensures p.jiraTicketId == Some(ticketId)
    ensures p.status == Some(Appended(saved.status, "Jira ticket " + ticketId + " created", now))
  {
    EmptyPatch.(jiraTicketId := Some(ticketId),
                status := Some(Appended(saved.status, "Jira ticket " + ticketId + " created", now)))
  }

  /** The PUT body recording a failure of the ticket block: the saved history
      plus one entry naming the error; in particular no ticket id. */
  function FailureNoteBody(saved: FeedbackRequest, message: string, now: Time): (p: Patch)
    ensures forall f :: Present(p, f) <==> f == StatusKey
    ensures p.status == Some(Appended(saved.status, "Failed to create Jira ticket: " + message, now))
  {
    EmptyPatch.(status := Some(Appended(saved.status, "Failed to create Jira ticket: " + message, now)))
  }

  /** The outcomes of the external calls of one submission: the POST (the
      saved record, or the error message), the ticket creation (the id, or
      the error message), and the two PUTs that can follow (an error message,
      or `None` when the PUT succeeded). */
  datatype SubmitEnv = SubmitEnv(
    posted: Result<FeedbackRequest, string>,
    ticket: Result<string, string>,
    ticketPut: Option<string>,
    notePut: Option<string>)

  /** What the inner `try` around the ticket threw, if anything. */
  function TicketBlockError(env: SubmitEnv): Option<string>
  {
    match env.ticket
    case Failure(m) => Some(m)
    case Success(t) => if t == "" then None else env.ticketPut
  }

  /** The result of an action: what it returned (`None` for `null`), the
      store state afterwards, and the calls it made. */
  datatype Outcome = Outcome(returned: Option<FeedbackRequest>, state: ClientState, calls: seq<Call>)

  const SubmitSucceeded: string := "Feedback request submitted successfully!"

  /** The request parameters of a list call: each id only when truthy. */
  function QueryParams(userId: string, applicationId: string): (ps: seq<(string, string)>)
    ensures ("userId", userId) in ps <==> userId != ""
    ensures ("applicationId", applicationId) in ps <==> applicationId != ""
    ensures forall i :: 0 <= i < |ps| ==> ps[i] == ("userId", userId) || ps[i] == ("applicationId", applicationId)
  {
    (if userId != "" then [("userId", userId)] else [])
    + (if applicationId != "" then [("applicationId", applicationId)] else [])
  }

  /** The synchronous start of `getFeedbackRequests`, before its first await. */
  function BeginList(s: ClientState): ClientState
  {
    s.(loading := true, error := None)
  }

  /** `submitFeedbackRequest`. The record returned is the one the POST
      answered with, whatever happened to the ticket afterwards; `null` is
      returned, with `error` set, only when the POST fails or when the PUT
      that records a ticket failure fails. A failing ticket PUT after a
      successful ticket creation is itself recorded as a ticket failure. */
  function SubmitFeedbackRequest(s: ClientState, userId: string, applicationId: string, now: Time, env: SubmitEnv): (r: Outcome)
    ensures env.posted.Failure? ==>
              r == Outcome(None, s.(loading := false, error := Some(ErrorText(env.posted.error, "Failed to submit feedback request")),
                                    message := ""), [Post(DraftBody(s.formState, userId, applicationId, now))])
    ensures r.returned.None? <==> env.posted.Failure? || (TicketBlockError(env).Some? && env.notePut.Some?)
    ensures r.returned.Some? ==>
              && r.returned == Some(env.posted.value)
              && r.state == BeginList(s.(formState := InitialForm, message := SubmitSucceeded, loading := false))
    ensures r.returned.None? ==> r.state.error.Some? && !r.state.loading && r.state.formState == s.formState
    ensures env.posted.Success? && TicketBlockError(env).Some? && env.notePut.Some? ==>
              r.state == s.(loading := false, error := Some(ErrorText(env.notePut.value, "Failed to submit feedback request")), message := "")
  {
    var started := s.(loading := true, error := None, message := "");
    var draft := DraftBody(s.formState, userId, applicationId, now);
    match env.posted
    case Failure(m) =>
      Outcome(None, started.(loading := false, error := Some(ErrorText(m, "Failed to submit feedback request"))), [Post(draft)])
    case Success(saved) =>
      var ticketCalls :=
        if env.ticket.Success? && env.ticket.value != "" then [Put(saved.id, TicketBody(saved, env.ticket.value, now))]
        else [];
      var noteCalls :=
        if TicketBlockError(env).Some? then [Put(saved.id, FailureNoteBody(saved, TicketBlockError(env).value, now))]
        else [];
      var calls := [Post(draft), CreateTicket(saved)] + ticketCalls + noteCalls;
      if TicketBlockError(env).Some? && env.notePut.Some? then
        Outcome(None, started.(loading := false, error := Some(ErrorText(env.notePut.value, "Failed to submit feedback request"))), calls)
      else
        var done := started.(loading := false, message := SubmitSucceeded, formState := InitialForm);
        Outcome(Some(saved), BeginList(done), calls + [List(QueryParams(userId, applicationId))])
  }

  // ----- getFeedbackRequests -----

  /** What a list action yields: the list it returns, the state, the calls. */
  datatype Listed = Listed(returned: seq<FeedbackRequest>, state: ClientState, calls: seq<Call>)

  /** `getFeedbackRequests`: on success the list replaces `feedbacks` and is
      returned; on failure `feedbacks` is kept, `error` is set and [] is returned. */
  function GetFeedbackRequests(s: ClientState, userId: string, applicationId: string,
                               fetched: Result<seq<FeedbackRequest>, string>): (r: Listed)
    ensures r.calls == [List(QueryParams(userId, applicationId))]
    ensures !r.state.loading
    ensures fetched.Success? ==> r.returned == fetched.value && r.state.feedbacks == fetched.value && r.state.error.None?
    ensures fetched.Failure? ==>
              && r.returned == [] && r.state.feedbacks == s.feedbacks
              && r.state.error == Some(ErrorText(fetched.error, "Failed to fetch feedback requests"))
    ensures r.state.formState == s.formState && r.state.message == s.message
  {
    var started := BeginList(s);
    var calls := [List(QueryParams(userId, applicationId))];
    match fetched
    case Success(rs) => Listed(rs, started.(feedbacks := rs, loading := false), calls)
    case Failure(m) =>
      Listed([], started.(loading := false, error := Some(ErrorText(m, "Failed to fetch feedback requests"))), calls)
  }

  // ----- updateFeedbackStatus -----

  /** The labels that also move the denormalised `feedbackStatus`. */
  predicate Recognized(text: string)
  {
    text == "Resolved" || text == "In Progress" || text == "Closed"
  }

  /** The PUT body of a status change: the fetched history plus one entry
      whose description is the new status text, and `feedbackStatus` only
      when that text is recognised. */
  function StatusBody(feedback: FeedbackRequest, text: string, now: Time): (p: Patch)
    ensures forall f :: Present(p, f) <==> f == StatusKey || (f == FeedbackStatusKey && Recognized(text))
    ensures p.status == Some(Appended(feedback.status, text, now))
    ensures p.feedbackStatus.Some? ==> p.feedbackStatus.value == text && text != "Open"
  {
    var body := EmptyPatch.(status := Some(Appended(feedback.status, text, now)));
    if text == "Resolved" then body.(feedbackStatus := Some("Resolved"))
    else if text == "In Progress" then body.(feedbackStatus := Some("In Progress"))
    else if text == "Closed" then body.(feedbackStatus := Some("Closed"))
    else body
  }

  /** The outcomes of the calls of one status change: the GET (the record or
      the error message), the PUT and the ticket update (an error message, or
      `None` on success). */
  datatype StatusEnv = StatusEnv(
    fetched: Result<FeedbackRequest, string>,
    put: Option<string>,
    ticketUpdate: Option<string>)

  /** `updateFeedbackStatus`. It returns the record as fetched, before the
      update; the ticket is updated only when that record has a ticket id,
      and a failing ticket update changes nothing. */
  function UpdateFeedbackStatus(s: ClientState, feedbackId: Id, newStatus: string, now: Time, env: StatusEnv): (r: Outcome)
    ensures |r.calls| >= 1 && r.calls[0] == Fetch(feedbackId)
    ensures env.fetched.Success? ==> |r.calls| >= 2 && r.calls[1] == Put(feedbackId, StatusBody(env.fetched.value, newStatus, now))
    ensures r.returned.Some? <==> env.fetched.Success? && env.put.None?
    ensures r.returned.Some? ==> r.returned == Some(env.fetched.value) && r.state == s.(loading := false, error := None)
    ensures r.returned.Some? ==>
              var feedback := env.fetched.value;
              if Truthy(feedback.jiraTicketId)
              then |r.calls| == 3 && r.calls[2] == UpdateTicket(feedback.jiraTicketId.value, StatusEntry(newStatus, now))
              else |r.calls| == 2
    ensures r.returned.None? ==> r.state.error.Some? && !r.state.loading && forall c :: c in r.calls ==> !c.UpdateTicket?
    ensures env.fetched.Failure? ==>
              r.state == s.(loading := false, error := Some(ErrorText(env.fetched.error, "Failed to update feedback status")))
    ensures env.fetched.Success? && env.put.Some? ==>
              r.state == s.(loading := false, error := Some(ErrorText(env.put.value, "Failed to update feedback status")))
  {
    var started := s.(loading := true, error := None);
    match env.fetched
    case Failure(m) =>
      Outcome(None, started.(loading := false, error := Some(ErrorText(m, "Failed to update feedback status"))), [Fetch(feedbackId)])
    case Success(feedback) =>
      var calls := [Fetch(feedbackId), Put(feedbackId, StatusBody(feedback, newStatus, now))];
      if env.put.Some? then
        Outcome(None, started.(loading := false, error := Some(ErrorText(env.put.value, "Failed to update feedback status"))), calls)
      else if Truthy(feedback.jiraTicketId) then
        Outcome(Some(feedback), started.(loading := false),
                calls + [UpdateTicket(feedback.jiraTicketId.value, StatusEntry(newStatus, now))])
      else
        Outcome(Some(feedback), started.(loading := false), calls)
  }

  /** The calls of a submission whose POST was accepted, in order: the POST,
      the ticket creation, the PUT recording the ticket id when one came back,
      the PUT recording a ticket failure when the ticket block threw, and the
      list refresh when a record is returned. */
  function AcceptedCalls(draft: Patch, saved: FeedbackRequest, env: SubmitEnv, now: Time, refresh: Option<Call>): seq<Call>
  {
    [Post(draft), CreateTicket(saved)]
    + (if env.ticket.Success? && env.ticket.value != "" then [Put(saved.id, TicketBody(saved, env.ticket.value, now))] else [])
    + (if TicketBlockError(env).Some? then [Put(saved.id, FailureNoteBody(saved, TicketBlockError(env).value, now))] else [])
    + (if refresh.Some? then [refresh.value] else [])
  }

  /** The calls a submission makes: only the POST when it fails; otherwise
      the POST, the ticket creation, the PUT recording the ticket id when one
      came back, the PUT recording a ticket failure when the ticket block
      threw, and the list refresh last whenever a record is returned. */
  lemma SubmitCalls(s: ClientState, userId: string, applicationId: string, now: Time, env: SubmitEnv)
    ensures var r := SubmitFeedbackRequest(s, userId, applicationId, now, env);
            var draft := DraftBody(s.formState, userId, applicationId, now);
            && (env.posted.Failure? ==> r.calls == [Post(draft)])
            && (env.posted.Success? ==>
                  r.calls == AcceptedCalls(draft, env.posted.value, env, now,
                                           if r.returned.Some? then Some(List(QueryParams(userId, applicationId))) else None))
  {
  }

  /** Reading the accepted trace: the POST first, the ticket creation second,
      the ticket-id PUT third when there is one, the failure-note PUT among
      the calls exactly when the ticket block threw, no PUT when neither
      applies, and the refresh last when requested. */
  lemma {:induction false} AcceptedCallsOrder(draft: Patch, saved: FeedbackRequest, env: SubmitEnv, now: Time, refresh: Option<Call>)
    ensures var calls := AcceptedCalls(draft, saved, env, now, refresh);
            && |calls| >= 2 && calls[0] == Post(draft) && calls[1] == CreateTicket(saved)
            && (env.ticket.Success? && env.ticket.value != "" ==>
                  |calls| >= 3 && calls[2] == Put(saved.id, TicketBody(saved, env.ticket.value, now)))
            && (TicketBlockError(env).Some? ==> Put(saved.id, FailureNoteBody(saved, TicketBlockError(env).value, now)) in calls)
            && (TicketBlockError(env).None? && !(env.ticket.Success? && env.ticket.value != "") && (refresh.Some? ==> !refresh.value.Put?) ==>
                  forall c :: c in calls ==> !c.Put?)
            && (refresh.Some? ==> calls[|calls| - 1] == refresh.value)
  {
    var calls := AcceptedCalls(draft, saved, env, now, refresh);
    var ticketCalls :=
      if env.ticket.Success? && env.ticket.value != "" then [Put(saved.id, TicketBody(saved, env.ticket.value, now))] else [];
    if TicketBlockError(env).Some? {
      assert calls[2 + |ticketCalls|] == Put(saved.id, FailureNoteBody(saved, TicketBlockError(env).value, now));
    }
  }

  /** The ticket update is best effort: its outcome never changes the result. */
  lemma TicketUpdateIsBestEffort(s: ClientState, feedbackId: Id, newStatus: string, now: Time, env: StatusEnv, other: Option<string>)
    ensures UpdateFeedbackStatus(s, feedbackId, newStatus, now, env) ==
            UpdateFeedbackStatus(s, feedbackId, newStatus, now, env.(ticketUpdate := other))
  {
  }

  /** The submission never depends on the second PUT unless the ticket block
      threw, and the returned record never depends on the ticket at all. */
  lemma SubmitReturnsPostedRecord(s: ClientState, userId: string, applicationId: string, now: Time, env: SubmitEnv)
    requires env.posted.Success?
    requires TicketBlockError(env).None? || env.notePut.None?
    ensures SubmitFeedbackRequest(s, userId, applicationId, now, env).returned == Some(env.posted.value)
  {
  }

  /** A ticket that was created but whose id could not be recorded is
      reported in the history as a failure to create the ticket: the PUT of
      the failure note follows the failed ticket PUT, and the submission
      fails only when that note cannot be stored either. */
  lemma TicketPutFailureNotedAsCreationFailure(s: ClientState, userId: string, applicationId: string, now: Time,
                                               env: SubmitEnv, ticketId: string, message: string)
    requires env.posted.Success? && env.ticket == Success(ticketId) && ticketId != ""
    requires env.ticketPut == Some(message)
    ensures var r := SubmitFeedbackRequest(s, userId, applicationId, now, env);
            var saved := env.posted.value;
            && r.calls[2] == Put(saved.id, TicketBody(saved, ticketId, now))
            && r.calls[3] == Put(saved.id, FailureNoteBody(saved, message, now))
            && FailureNoteBody(saved, message, now).status.value[|saved.status|].description
               == "Failed to create Jira ticket: " + message
            && (r.returned.None? <==> env.notePut.Some?)
  {
  }
}

