/** The feedback-request lifecycle end to end: the client store's actions
    run against the server's handlers, with the client's HTTP calls resolved
    the way axios resolves them (a 2xx answer yields its body, any other
    answer rejects with "Request failed with status code N"). */
module Lifecycle {
  import opened Wrappers
  import opened Schema
  import Decimal
  import Server
  import UserService
  import JiraService
  import FeedbackStore
  import StatusUpdate
  import Js

  /** The message axios rejects with for a non-2xx answer. */
  function StatusError(code: nat): string
  {
    "Request failed with status code " + Decimal.FromNat(code)
  }

  /** A record-valued answer as the client sees it. */
  function AsRecord(r: Server.Response): Result<FeedbackRequest, string>
  {
    if 200 <= r.code < 300 && r.body.Record? then Success(r.body.record) else Failure(StatusError(r.code))
  }

  /** Whether an answer made the client's call throw, and with what message. */
  function ThrownBy(r: Server.Response): Option<string>
  {
    if 200 <= r.code < 300 then None else Some(StatusError(r.code))
  }

  /** The server state and the client's outcome after one action. */
  datatype Step = Step(world: Server.World, client: FeedbackStore.Outcome)

  // ----- Status changes -----

  /** The server side of `updateFeedbackStatus(id, text)`: GET, then PUT of
      the fetched history plus one entry. */
  function StatusChangeWorld(w: Server.World, id: Id, text: string, clientNow: Time, serverNow: Time): Server.World
  {
    match AsRecord(Server.HandleGet(w, id))
    case Failure(_) => w
    case Success(feedback) => Server.HandleUpdate(w, id, FeedbackStore.StatusBody(feedback, text, clientNow), serverNow).world
  }

  /** `updateFeedbackStatus(id, text)` against the server, with the client's
      view of the two calls. The tracker update runs when the fetched record
      has a ticket id; `trackerFailure` is how that (simulated) call fails. */
  function ChangeStatus(w: Server.World, s: FeedbackStore.ClientState, id: Id, text: string,
                        clientNow: Time, serverNow: Time, trackerFailure: Option<string>): Step
  {
    var fetched := AsRecord(Server.HandleGet(w, id));
    var put := match fetched
      case Failure(_) => None
      case Success(feedback) =>
        ThrownBy(Server.HandleUpdate(w, id, FeedbackStore.StatusBody(feedback, text, clientNow), serverNow).response);
    var ticketUpdate := match fetched
      case Failure(_) => None
      case Success(feedback) =>
        if !Js.Truthy(feedback.jiraTicketId) then None
        else match JiraService.UpdateIssue(feedback.jiraTicketId.value, StatusEntry(text, clientNow), trackerFailure)
          case Success(_) => None
          case Failure(e) => Some(e);
    Step(StatusChangeWorld(w, id, text, clientNow, serverNow),
         FeedbackStore.UpdateFeedbackStatus(s, id, text, clientNow, FeedbackStore.StatusEnv(fetched, put, ticketUpdate)))
  }

  /** The history sent back with one entry more is stored as the old history
      with that entry appended. */
  lemma CastAppended(h: seq<StatusEntry>, text: string, clientNow: Time, serverNow: Time)
    ensures CastHistory(FeedbackStore.Appended(h, text, clientNow), serverNow) == h + [StatusEntry(text, clientNow)]
  {
    var cast := CastHistory(FeedbackStore.Appended(h, text, clientNow), serverNow);
    assert forall i :: 0 <= i < |h| ==> cast[i] == h[i];
  }

  /** A body carrying the stored history plus one non-empty entry, and
      otherwise at most a ticket id and a schema status, merges into the
      stored record with that entry appended, and the result is valid. */
  lemma AppendAccepted(before: FeedbackRequest, body: Patch, text: string, clientNow: Time, serverNow: Time)
    requires Valid(before) && text != ""
    requires body.status == Some(FeedbackStore.Appended(before.status, text, clientNow))
    requires forall f :: Present(body, f) ==> f == StatusKey || f == JiraTicketIdKey || f == FeedbackStatusKey
    requires body.feedbackStatus.Some? ==> body.feedbackStatus.value in FeedbackStatuses
    ensures var doc := Merge(before, body, serverNow);
            && doc == before.(status := before.status + [StatusEntry(text, clientNow)],
                              jiraTicketId := if body.jiraTicketId.Some? then body.jiraTicketId else before.jiraTicketId,
                              feedbackStatus := body.feedbackStatus.GetOr(before.feedbackStatus))
            && Valid(doc)
  {
    CastAppended(before.status, text, clientNow, serverNow);
    MergeLifecycleKeys(before, body, serverNow);
    var doc := Merge(before, body, serverNow);
    assert forall i :: 0 <= i < |before.status| ==> doc.status[i] == before.status[i];
  }

  /** On the server, a status change with a non-empty text on an existing
      request appends exactly one entry (earlier entries unchanged and in
      order), moves `feedbackStatus` only for a recognised text, and leaves
      every other key and every other request alone. */
  lemma StatusChangeAppends(w: Server.World, id: Id, text: string, clientNow: Time, serverNow: Time)
    requires Server.WellFormed(w.store) && id in w.store && text != ""
    ensures var after := StatusChangeWorld(w, id, text, clientNow, serverNow);
            var before := w.store[id];
            && after.store == w.store[id := before.(
                 status := before.status + [StatusEntry(text, clientNow)],
                 feedbackStatus := if FeedbackStore.Recognized(text) then text else before.feedbackStatus)]
            && after.cache == w.cache
            && Server.WellFormed(after.store)
  {
    var before := w.store[id];
    var body := FeedbackStore.StatusBody(before, text, clientNow);
    assert Present(body, FeedbackStatusKey) <==> FeedbackStore.Recognized(text);
    AppendAccepted(before, body, text, clientNow, serverNow);
    assert AsRecord(Server.HandleGet(w, id)) == Success(before);
  }

  /** The same change seen from the client: it succeeds and returns the
      record as it was before the change. */
  lemma ChangeStatusAppends(w: Server.World, s: FeedbackStore.ClientState, id: Id, text: string,
                            clientNow: Time, serverNow: Time, trackerFailure: Option<string>)
    requires Server.WellFormed(w.store) && id in w.store && text != ""
    ensures var step := ChangeStatus(w, s, id, text, clientNow, serverNow, trackerFailure);
            var before := w.store[id];
            && step.world == StatusChangeWorld(w, id, text, clientNow, serverNow)
            && step.world.store[id] == before.(
                 status := before.status + [StatusEntry(text, clientNow)],
                 feedbackStatus := if FeedbackStore.Recognized(text) then text else before.feedbackStatus)
            && step.client.returned == Some(before)
            && step.client.state.error.None?
  {
    StatusChangeAppends(w, id, text, clientNow, serverNow);
    var before := w.store[id];
    var put := Server.HandleUpdate(w, id, FeedbackStore.StatusBody(before, text, clientNow), serverNow);
    assert put.response.code == 200;
  }

  /** A status-change body whose new entry is empty merges into an invalid document. */
  lemma EmptyStatusInvalid(before: FeedbackRequest, clientNow: Time, serverNow: Time)
    ensures !Valid(Merge(before, FeedbackStore.StatusBody(before, "", clientNow), serverNow))
  {
    var body := FeedbackStore.StatusBody(before, "", clientNow);
    CastAppended(before.status, "", clientNow, serverNow);
    MergeLifecycleKeys(before, body, serverNow);
    var doc := Merge(before, body, serverNow);
    assert doc.status[|before.status|].description == "";
  }

  /** The client's wording of a 400 answer. */
  lemma BadRequestText()
    ensures StatusError(400) == "Request failed with status code 400"
  {
    assert Decimal.FromNat(400) == "400";
  }

  /** The server refuses a status-change body whose new entry is empty. */
  lemma EmptyStatusBodyRefused(w: Server.World, id: Id, clientNow: Time, serverNow: Time)
    requires Server.WellFormed(w.store) && id in w.store
    ensures var body := FeedbackStore.StatusBody(w.store[id], "", clientNow);
            Server.HandleUpdate(w, id, body, serverNow).world == w &&
            ThrownBy(Server.HandleUpdate(w, id, body, serverNow).response) == Some("Request failed with status code 400")
  {
    EmptyStatusInvalid(w.store[id], clientNow, serverNow);
    BadRequestText();
    var put := Server.HandleUpdate(w, id, FeedbackStore.StatusBody(w.store[id], "", clientNow), serverNow);
    assert put.response.code == 400 && put.world.store == w.store && put.world.cache == w.cache;
  }

  /** A status change with an empty text is refused by the server (the new
      entry has no description): nothing is stored and the client reports
      the 400 as its error. */
  lemma ChangeStatusEmptyIsRejected(w: Server.World, s: FeedbackStore.ClientState, id: Id,
                                    clientNow: Time, serverNow: Time, trackerFailure: Option<string>)
    requires Server.WellFormed(w.store) && id in w.store
    ensures var step := ChangeStatus(w, s, id, "", clientNow, serverNow, trackerFailure);
            && step.world == w
            && step.client.returned.None?
            && step.client.state.error == Some("Request failed with status code 400")
  {
    EmptyStatusBodyRefused(w, id, clientNow, serverNow);
    var fetched := AsRecord(Server.HandleGet(w, id));
    assert fetched == Success(w.store[id]);
  }

  /** One status change of a sequence: its text and the two clocks. */
  datatype Change = Change(text: string, clientNow: Time, serverNow: Time)

  /** Status changes applied one after the other to request `id`. */
  function ChangeStatusMany(w: Server.World, id: Id, changes: seq<Change>): Server.World
    decreases |changes|
  {
    if |changes| == 0 then w
    else
      var c := changes[0];
      ChangeStatusMany(StatusChangeWorld(w, id, c.text, c.clientNow, c.serverNow), id, changes[1..])
  }

  /** The entries a sequence of changes appends. */
  function Entries(changes: seq<Change>): (h: seq<StatusEntry>)
    ensures |h| == |changes|
    ensures forall i :: 0 <= i < |changes| ==> h[i] == StatusEntry(changes[i].text, changes[i].clientNow)
    decreases |changes|
  {
    if |changes| == 0 then [] else [StatusEntry(changes[0].text, changes[0].clientNow)] + Entries(changes[1..])
  }

  /** `feedbackStatus` as the denormalised projection of a sequence of
      changes: the last recognised text, or `initial` when none was. It is
      therefore either unchanged or one of Resolved, In Progress, Closed. */
  function LastRecognized(initial: string, changes: seq<Change>): (status: string)
    ensures status == initial || FeedbackStore.Recognized(status)
    ensures (forall i :: 0 <= i < |changes| ==> !FeedbackStore.Recognized(changes[i].text)) ==> status == initial
    decreases |changes|
  {
    if |changes| == 0 then initial
    else
      var last := changes[|changes| - 1];
      if FeedbackStore.Recognized(last.text) then last.text else LastRecognized(initial, changes[..|changes| - 1])
  }

  lemma {:induction false} LastRecognizedCons(initial: string, changes: seq<Change>)
    requires |changes| > 0
    ensures LastRecognized(initial, changes) ==
            LastRecognized(if FeedbackStore.Recognized(changes[0].text) then changes[0].text else initial, changes[1..])
    decreases |changes|
  {
    if |changes| > 1 {
      var init := changes[..|changes| - 1];
      assert init[1..] == changes[1..][..|changes[1..]| - 1];
      LastRecognizedCons(initial, init);
    }
  }

  /** Over any sequence of status changes with non-empty texts, the history
      grows by exactly one entry per change, in call order, with the earlier
      history kept as a prefix; `feedbackStatus` follows the last recognised
      text; every other key, and every other request, is unchanged. */
  lemma {:induction false} ChangeStatusManyAppends(w: Server.World, id: Id, changes: seq<Change>)
    requires Server.WellFormed(w.store) && id in w.store
    requires forall i :: 0 <= i < |changes| ==> changes[i].text != ""
    ensures var after := ChangeStatusMany(w, id, changes);
            var before := w.store[id];
            && after.store == w.store[id := before.(
                 status := before.status + Entries(changes),
                 feedbackStatus := LastRecognized(before.feedbackStatus, changes))]
            && Server.WellFormed(after.store)
    decreases |changes|
  {
    if |changes| > 0 {
      var c := changes[0];
      var w1 := StatusChangeWorld(w, id, c.text, c.clientNow, c.serverNow);
      StatusChangeAppends(w, id, c.text, c.clientNow, c.serverNow);
      ChangeStatusManyAppends(w1, id, changes[1..]);
      ComposeChanges(w.store, w1.store, ChangeStatusMany(w1, id, changes[1..]).store, id, changes);
    } else {
      assert w.store[id].status + Entries(changes) == w.store[id].status;
    }
  }

  /** The bookkeeping of one induction step of `ChangeStatusManyAppends`:
      the first change followed by the rest is the whole sequence. */
  lemma {:induction false} ComposeChanges(store: Server.Store, mid: Server.Store, after: Server.Store, id: Id, changes: seq<Change>)
    requires id in store && |changes| > 0
    requires var before := store[id];
             var c := changes[0];
             mid == store[id := before.(
               status := before.status + [StatusEntry(c.text, c.clientNow)],
               feedbackStatus := if FeedbackStore.Recognized(c.text) then c.text else before.feedbackStatus)]
    requires after == mid[id := mid[id].(
               status := mid[id].status + Entries(changes[1..]),
               feedbackStatus := LastRecognized(mid[id].feedbackStatus, changes[1..]))]
    ensures var before := store[id];
            after == store[id := before.(
              status := before.status + Entries(changes),
              feedbackStatus := LastRecognized(before.feedbackStatus, changes))]
  {
    ComposeEntry(store[id], changes);
  }

  /** The same bookkeeping for the one record the changes apply to. */
  lemma {:induction false} ComposeEntry(before: FeedbackRequest, changes: seq<Change>)
    requires |changes| > 0
    ensures var c := changes[0];
            var y := before.(status := before.status + [StatusEntry(c.text, c.clientNow)],
                             feedbackStatus := if FeedbackStore.Recognized(c.text) then c.text else before.feedbackStatus);
            y.(status := y.status + Entries(changes[1..]), feedbackStatus := LastRecognized(y.feedbackStatus, changes[1..])) ==
            before.(status := before.status + Entries(changes), feedbackStatus := LastRecognized(before.feedbackStatus, changes))
  {
    var c := changes[0];
    LastRecognizedCons(before.feedbackStatus, changes);
    assert Entries(changes) == [StatusEntry(c.text, c.clientNow)] + Entries(changes[1..]);
    assert (before.status + [StatusEntry(c.text, c.clientNow)]) + Entries(changes[1..]) == before.status + Entries(changes);
  }

  /** In particular the history length grows by exactly the number of changes. */
  lemma ChangeStatusManyLength(w: Server.World, id: Id, changes: seq<Change>)
    requires Server.WellFormed(w.store) && id in w.store
    requires forall i :: 0 <= i < |changes| ==> changes[i].text != ""
    ensures var after := ChangeStatusMany(w, id, changes);
            && id in after.store
            && |after.store[id].status| == |w.store[id].status| + |changes|
            && after.store[id].status[..|w.store[id].status|] == w.store[id].status
  {
    ChangeStatusManyAppends(w, id, changes);
  }

  // ----- The status modal against the server -----

  /** Submitting the modal: no call when its validation fails, otherwise a
      status change with the text it composed. */
  function SubmitModal(w: Server.World, s: FeedbackStore.ClientState, id: Id, m: StatusUpdate.Modal,
                       clientNow: Time, serverNow: Time, trackerFailure: Option<string>): Option<Step>
  {
    match StatusUpdate.Submit(m)
    case None => None
    case Some(text) => Some(ChangeStatus(w, s, id, text, clientNow, serverNow, trackerFailure))
  }

  /** As written, submitting the modal as it opens (select untouched, showing
      "In Progress") is refused by the server: nothing is stored, the action
      returns null and the store's error is the 400 text. The modal resets
      to its opened state all the same, as after a success. */
  lemma UntouchedModalIsRejected(w: Server.World, s: FeedbackStore.ClientState, id: Id, clientNow: Time, serverNow: Time,
                                 trackerFailure: Option<string>)
    requires Server.WellFormed(w.store) && id in w.store
    ensures var step := SubmitModal(w, s, id, StatusUpdate.OpenedAsWritten, clientNow, serverNow, trackerFailure);
            && step.Some? && step.value.world == w
            && step.value.client.returned.None?
            && step.value.client.state.error == Some("Request failed with status code 400")
    ensures StatusUpdate.Step(StatusUpdate.OpenedAsWritten, StatusUpdate.Send, false) == StatusUpdate.OpenedAsWritten
  {
    StatusUpdate.UntouchedSubmitSendsEmpty();
    ChangeStatusEmptyIsRejected(w, s, id, clientNow, serverNow, trackerFailure);
  }

  /** With the corrected initial state, submitting the untouched modal records
      the "In Progress" it shows, in the history and in `feedbackStatus`. */
  lemma UntouchedModalSetsInProgress(w: Server.World, s: FeedbackStore.ClientState, id: Id, clientNow: Time, serverNow: Time,
                                     trackerFailure: Option<string>)
    requires Server.WellFormed(w.store) && id in w.store
    ensures var step := SubmitModal(w, s, id, StatusUpdate.Opened, clientNow, serverNow, trackerFailure);
            && step.Some?
            && step.value.world.store[id].status == w.store[id].status + [StatusEntry("In Progress", clientNow)]
            && step.value.world.store[id].feedbackStatus == "In Progress"
  {
    ChangeStatusAppends(w, s, id, "In Progress", clientNow, serverNow, trackerFailure);
  }

  /** A modal whose `selectedStatus` agrees with the shown option records
      exactly that option: as the new history entry and as `feedbackStatus`,
      or, for "Custom", as the entry "Custom: <detail>" with `feedbackStatus`
      unchanged. */
  lemma SyncedModalRecordsShownStatus(w: Server.World, s: FeedbackStore.ClientState, id: Id, m: StatusUpdate.Modal,
                                      clientNow: Time, serverNow: Time, trackerFailure: Option<string>)
    requires Server.WellFormed(w.store) && id in w.store && StatusUpdate.Synced(m)
    ensures var step := SubmitModal(w, s, id, m, clientNow, serverNow, trackerFailure);
            StatusUpdate.Submit(m).Some? ==>
              && step.Some?
              && (m.formStatus != "Custom" ==>
                    && step.value.world.store[id].status == w.store[id].status + [StatusEntry(m.formStatus, clientNow)]
                    && step.value.world.store[id].feedbackStatus == m.formStatus)
              && (m.formStatus == "Custom" ==>
                    && m.detail.Some?
                    && step.value.world.store[id].status == w.store[id].status + [StatusEntry("Custom: " + m.detail.value, clientNow)]
                    && step.value.world.store[id].feedbackStatus == w.store[id].feedbackStatus)
  {
    if StatusUpdate.Submit(m).Some? {
      if m.formStatus == "Custom" {
        StatusUpdate.ComposedWithDetailIsNotRecognised("Custom", m.detail.value);
        ChangeStatusAppends(w, s, id, "Custom: " + m.detail.value, clientNow, serverNow, trackerFailure);
      } else {
        assert StatusUpdate.Submit(m).value == m.formStatus;
        assert FeedbackStore.Recognized(m.formStatus);
        ChangeStatusAppends(w, s, id, m.formStatus, clientNow, serverNow, trackerFailure);
      }
    }
  }

  /** With the corrected modal, whatever the user did since it opened, a
      submission records exactly the option the select shows. */
  lemma IntendedModalRecordsShownStatus(w: Server.World, s: FeedbackStore.ClientState, id: Id, actions: seq<StatusUpdate.Action>,
                                        clientNow: Time, serverNow: Time, trackerFailure: Option<string>)
    requires Server.WellFormed(w.store) && id in w.store
    ensures var m := StatusUpdate.Run(StatusUpdate.Opened, actions, true);
            var step := SubmitModal(w, s, id, m, clientNow, serverNow, trackerFailure);
            StatusUpdate.Submit(m).Some? ==>
              && step.Some?
              && (m.formStatus != "Custom" ==>
                    && step.value.world.store[id].status == w.store[id].status + [StatusEntry(m.formStatus, clientNow)]
                    && step.value.world.store[id].feedbackStatus == m.formStatus)
              && (m.formStatus == "Custom" ==>
                    && m.detail.Some?
                    && step.value.world.store[id].status == w.store[id].status + [StatusEntry("Custom: " + m.detail.value, clientNow)]
                    && step.value.world.store[id].feedbackStatus == w.store[id].feedbackStatus)
  {
    StatusUpdate.RunIntendedStaysSynced(StatusUpdate.Opened, actions);
    SyncedModalRecordsShownStatus(w, s, id, StatusUpdate.Run(StatusUpdate.Opened, actions, true), clientNow, serverNow, trackerFailure);
  }

  /** A custom status ("Custom: <detail>") is appended to the history but
      leaves `feedbackStatus` as it was. */
  lemma CustomStatusKeepsFeedbackStatus(w: Server.World, s: FeedbackStore.ClientState, id: Id, detail: string,
                                        clientNow: Time, serverNow: Time, trackerFailure: Option<string>)
    requires Server.WellFormed(w.store) && id in w.store && detail != ""
    ensures var m := StatusUpdate.Modal("Custom", "Custom", Some(detail));
            var step := SubmitModal(w, s, id, m, clientNow, serverNow, trackerFailure);
            && step.Some?
            && step.value.world.store[id].status == w.store[id].status + [StatusEntry("Custom: " + detail, clientNow)]
            && step.value.world.store[id].feedbackStatus == w.store[id].feedbackStatus
  {
    StatusUpdate.ComposedWithDetailIsNotRecognised("Custom", detail);
    ChangeStatusAppends(w, s, id, "Custom: " + detail, clientNow, serverNow, trackerFailure);
  }

  // ----- Submission -----

  /** The outcomes submission depends on besides the server: the clocks, the
      id the new document gets, the directory reply, the random ticket
      number, and a failure of the tracker call (`None` in the source, whose
      tracker is simulated). */
  datatype SubmitInputs = SubmitInputs(
    clientNow: Time, serverNow: Time, newId: Id,
    reply: Result<UserService.DirectoryReply, string>,
    ticketNumber: nat, trackerFailure: Option<string>)

  /** The server state after a submission, and the outcomes the client saw. */
  datatype Settled = Settled(world: Server.World, env: FeedbackStore.SubmitEnv)

  /** The server side of `submitFeedbackRequest(userId, applicationId)`: the
      POST, the ticket creation, and the PUTs that follow it. */
  function SubmitServer(w: Server.World, s: FeedbackStore.ClientState, userId: string, applicationId: string,
                        x: SubmitInputs): Settled
    requires x.newId !in w.store && x.ticketNumber < JiraService.TicketRange
  {
    var draft := FeedbackStore.DraftBody(s.formState, userId, applicationId, x.clientNow);
    var created := Server.HandleCreate(w, draft, x.serverNow, x.newId, x.reply);
    var posted := AsRecord(created.response);
    match posted
    case Failure(_) => Settled(created.world, FeedbackStore.SubmitEnv(posted, Failure(""), None, None))
    case Success(saved) =>
      var ticket := JiraService.CreateIssue(x.ticketNumber, x.trackerFailure);
      match ticket
      case Success(ticketId) =>
        var put := Server.HandleUpdate(created.world, saved.id, FeedbackStore.TicketBody(saved, ticketId, x.clientNow), x.serverNow);
        (match ThrownBy(put.response)
         case None => Settled(put.world, FeedbackStore.SubmitEnv(posted, ticket, None, None))
         case Some(m) =>
           var note := Server.HandleUpdate(put.world, saved.id, FeedbackStore.FailureNoteBody(saved, m, x.clientNow), x.serverNow);
           Settled(note.world, FeedbackStore.SubmitEnv(posted, ticket, Some(m), ThrownBy(note.response))))
      case Failure(m) =>
        var note := Server.HandleUpdate(created.world, saved.id, FeedbackStore.FailureNoteBody(saved, m, x.clientNow), x.serverNow);
        Settled(note.world, FeedbackStore.SubmitEnv(posted, ticket, None, ThrownBy(note.response)))
  }

  /** `submitFeedbackRequest(userId, applicationId)` against the server. */
  function Submit(w: Server.World, s: FeedbackStore.ClientState, userId: string, applicationId: string, x: SubmitInputs): Step
    requires x.newId !in w.store && x.ticketNumber < JiraService.TicketRange
  {
    var settled := SubmitServer(w, s, userId, applicationId, x);
    Step(settled.world, FeedbackStore.SubmitFeedbackRequest(s, userId, applicationId, x.clientNow, settled.env))
  }

  /** The form fields and ids a submission needs for the server to accept it. */
  predicate Submittable(form: FeedbackStore.FormState, userId: string, applicationId: string)
  {
    form.title != "" && form.description != "" && form.priority in Priorities && userId != "" && applicationId != ""
  }

  /** The stored record after a submission whose create was accepted, when the
      follow-up PUT appends `entry` and sets `ticket`. */
  predicate StoredAs(r: FeedbackRequest, w: Server.World, s: FeedbackStore.ClientState, userId: string, applicationId: string,
                     x: SubmitInputs, entry: string, ticket: Option<string>)
  {
    var info := UserService.GetUserInfo(w.cache, x.serverNow, Some(userId), x.reply).info;
    && r.id == x.newId
    && r.userId == userId && r.applicationId == applicationId
    && r.title == s.formState.title && r.description == s.formState.description && r.priority == s.formState.priority
    && r.userName == Some(info.userName) && r.userEmail == Some(info.email)
    && r.feedbackStatus == "Open"
    && r.jiraTicketId == ticket
    && r.status == [StatusEntry("Request created", x.serverNow), StatusEntry(entry, x.clientNow)]
  }

  /** Facts about the accepted create shared by the two submission lemmas. */
  lemma CreatedRecord(w: Server.World, s: FeedbackStore.ClientState, userId: string, applicationId: string, x: SubmitInputs)
    requires x.newId !in w.store && UserService.Coherent(w.cache, x.serverNow)
    requires Submittable(s.formState, userId, applicationId)
    ensures var draft := FeedbackStore.DraftBody(s.formState, userId, applicationId, x.clientNow);
            var created := Server.HandleCreate(w, draft, x.serverNow, x.newId, x.reply);
            var info := UserService.GetUserInfo(w.cache, x.serverNow, Some(userId), x.reply).info;
            && created.response.code == 201
            && created.response.body.Record?
            && var saved := created.response.body.record;
            && created.world.store == w.store[x.newId := saved]
            && Valid(saved)
            && saved.id == x.newId
            && saved.status == [StatusEntry("Request created", x.serverNow)]
            && saved.userName == Some(info.userName) && saved.userEmail == Some(info.email)
            && saved.feedbackStatus == "Open" && saved.jiraTicketId.None?
            && saved.userId == userId && saved.applicationId == applicationId
            && saved.title == s.formState.title && saved.description == s.formState.description
            && saved.priority == s.formState.priority
  {
    var draft := FeedbackStore.DraftBody(s.formState, userId, applicationId, x.clientNow);
    Server.CandidateFields(w.cache, draft, x.reply, x.newId, x.serverNow);
    var info := UserService.GetUserInfo(w.cache, x.serverNow, Some(userId), x.reply).info;
    var doc := Server.Candidate(draft, info, x.newId, x.serverNow);
    var p := Server.CreationPatch(draft, info);
    assert Get(doc, DescriptionKey) == Assigned(p, DescriptionKey, x.serverNow);
    assert Get(doc, ApplicationIdKey) == Assigned(p, ApplicationIdKey, x.serverNow);
    assert Valid(doc);
  }

  /** One follow-up PUT on a freshly stored record whose body carries the
      history plus one entry (and possibly a ticket id) is accepted, and
      stores exactly that. */
  lemma FollowUpPut(w: Server.World, saved: FeedbackRequest, body: Patch, text: string, clientNow: Time, serverNow: Time)
    requires Valid(saved) && saved.id in w.store && w.store[saved.id] == saved && text != ""
    requires body.status == Some(FeedbackStore.Appended(saved.status, text, clientNow)) && body.feedbackStatus.None?
    requires forall f :: Present(body, f) ==> f == StatusKey || f == JiraTicketIdKey
    ensures var put := Server.HandleUpdate(w, saved.id, body, serverNow);
            && put.response.code == 200
            && put.world.cache == w.cache
            && put.world.store == w.store[saved.id := saved.(
                 status := saved.status + [StatusEntry(text, clientNow)],
                 jiraTicketId := if body.jiraTicketId.Some? then body.jiraTicketId else saved.jiraTicketId)]
  {
    AppendAccepted(saved, body, text, clientNow, serverNow);
  }

  /** Once the create is accepted, the server side of a submission is the
      follow-up PUT its ticket outcome picks. */
  lemma SettledAfterCreate(w: Server.World, s: FeedbackStore.ClientState, userId: string, applicationId: string,
                           x: SubmitInputs, saved: FeedbackRequest)
    requires x.newId !in w.store && x.ticketNumber < JiraService.TicketRange
    requires var created := Server.HandleCreate(w, FeedbackStore.DraftBody(s.formState, userId, applicationId, x.clientNow),
                                                x.serverNow, x.newId, x.reply);
             created.response.code == 201 && created.response.body == Server.Record(saved)
    ensures var created := Server.HandleCreate(w, FeedbackStore.DraftBody(s.formState, userId, applicationId, x.clientNow),
                                               x.serverNow, x.newId, x.reply);
            var settled := SubmitServer(w, s, userId, applicationId, x);
            && settled.env.posted == Success(saved)
            && settled.env.ticket == JiraService.CreateIssue(x.ticketNumber, x.trackerFailure)
            && (x.trackerFailure.Some? ==>
                  var note := Server.HandleUpdate(created.world, saved.id,
                                FeedbackStore.FailureNoteBody(saved, settled.env.ticket.error, x.clientNow), x.serverNow);
                  settled.world == note.world && settled.env.notePut == ThrownBy(note.response))
            && (x.trackerFailure.None? ==>
                  var put := Server.HandleUpdate(created.world, saved.id,
                               FeedbackStore.TicketBody(saved, JiraService.MockTicketId(x.ticketNumber), x.clientNow), x.serverNow);
                  put.response.code == 200 ==> settled.world == put.world && settled.env.notePut.None?)
  {
    var created := Server.HandleCreate(w, FeedbackStore.DraftBody(s.formState, userId, applicationId, x.clientNow),
                                       x.serverNow, x.newId, x.reply);
    assert AsRecord(created.response) == Success(saved);
  }

  /** The client's side of a submission whose create was accepted and whose
      follow-up PUT succeeded: it returns the created record and reports success. */
  lemma ClientSeesSuccess(s: FeedbackStore.ClientState, userId: string, applicationId: string, clientNow: Time,
                          env: FeedbackStore.SubmitEnv)
    requires env.posted.Success? && env.notePut.None?
    ensures var r := FeedbackStore.SubmitFeedbackRequest(s, userId, applicationId, clientNow, env);
            r.returned == Some(env.posted.value) && r.state.message == FeedbackStore.SubmitSucceeded
  {
  }

  /** The server side of a submission whose create was accepted and whose
      follow-up PUT appends `entry` and sets `ticket`: what the store holds and
      what the client saw. */
  predicate SettledAs(settled: Settled, w: Server.World, s: FeedbackStore.ClientState, userId: string, applicationId: string,
                      x: SubmitInputs, entry: string, ticket: Option<string>)
  {
    && x.newId in settled.world.store
    && StoredAs(settled.world.store[x.newId], w, s, userId, applicationId, x, entry, ticket)
    && settled.env.posted.Success?
    && settled.env.posted.value.status == [StatusEntry("Request created", x.serverNow)]
    && settled.env.notePut.None?
  }

  /** The server side when the ticket is created. */
  lemma SettledWithTicket(w: Server.World, s: FeedbackStore.ClientState, userId: string, applicationId: string, x: SubmitInputs)
    requires x.newId !in w.store && x.ticketNumber < JiraService.TicketRange && x.trackerFailure.None?
    requires UserService.Coherent(w.cache, x.serverNow)
    requires Submittable(s.formState, userId, applicationId)
    ensures var ticketId := JiraService.MockTicketId(x.ticketNumber);
            SettledAs(SubmitServer(w, s, userId, applicationId, x), w, s, userId, applicationId, x,
                      "Jira ticket " + ticketId + " created", Some(ticketId))
  {
    CreatedRecord(w, s, userId, applicationId, x);
    var draft := FeedbackStore.DraftBody(s.formState, userId, applicationId, x.clientNow);
    var created := Server.HandleCreate(w, draft, x.serverNow, x.newId, x.reply);
    var saved := created.response.body.record;
    var ticketId := JiraService.MockTicketId(x.ticketNumber);
    var body := FeedbackStore.TicketBody(saved, ticketId, x.clientNow);
    var text := "Jira ticket " + ticketId + " created";
    FollowUpPut(created.world, saved, body, text, x.clientNow, x.serverNow);
    SettledAfterCreate(w, s, userId, applicationId, x, saved);
    var settled := SubmitServer(w, s, userId, applicationId, x);
    var stored := saved.(status := saved.status + [StatusEntry(text, x.clientNow)], jiraTicketId := Some(ticketId));
    assert settled.world.store == created.world.store[x.newId := stored];
    assert StoredAs(stored, w, s, userId, applicationId, x, text, Some(ticketId));
  }

  /** The server side when the tracker call fails. */
  lemma SettledWithoutTicket(w: Server.World, s: FeedbackStore.ClientState, userId: string, applicationId: string,
                             x: SubmitInputs)
    requires x.newId !in w.store && x.ticketNumber < JiraService.TicketRange && x.trackerFailure.Some?
    requires UserService.Coherent(w.cache, x.serverNow)
    requires Submittable(s.formState, userId, applicationId)
    ensures SettledAs(SubmitServer(w, s, userId, applicationId, x), w, s, userId, applicationId, x,
                      "Failed to create Jira ticket: " + ("Failed to create Jira issue: " + x.trackerFailure.value), None)
  {
    CreatedRecord(w, s, userId, applicationId, x);
    var draft := FeedbackStore.DraftBody(s.formState, userId, applicationId, x.clientNow);
    var created := Server.HandleCreate(w, draft, x.serverNow, x.newId, x.reply);
    var saved := created.response.body.record;
    var m := "Failed to create Jira issue: " + x.trackerFailure.value;
    var body := FeedbackStore.FailureNoteBody(saved, m, x.clientNow);
    var text := "Failed to create Jira ticket: " + m;
    FollowUpPut(created.world, saved, body, text, x.clientNow, x.serverNow);
    assert JiraService.CreateIssue(x.ticketNumber, x.trackerFailure) == Failure(m);
    SettledAfterCreate(w, s, userId, applicationId, x, saved);
    var settled := SubmitServer(w, s, userId, applicationId, x);
    var stored := saved.(status := saved.status + [StatusEntry(text, x.clientNow)]);
    assert settled.world.store == created.world.store[x.newId := stored];
    assert StoredAs(stored, w, s, userId, applicationId, x, text, None);
  }

  /** A submission whose ticket is created: the request is stored with the
      looked-up name and email, "Open", the ticket id "FEED-<n>", and a
      history of two entries ("Request created", "Jira ticket FEED-<n>
      created"); the client gets back the record as first created, with its
      one-entry history. */
  lemma SubmitRecordsTicket(w: Server.World, s: FeedbackStore.ClientState, userId: string, applicationId: string, x: SubmitInputs)
    requires x.newId !in w.store && x.ticketNumber < JiraService.TicketRange && x.trackerFailure.None?
    requires UserService.Coherent(w.cache, x.serverNow)
    requires Submittable(s.formState, userId, applicationId)
    ensures var step := Submit(w, s, userId, applicationId, x);
            var ticketId := JiraService.MockTicketId(x.ticketNumber);
            && x.newId in step.world.store
            && StoredAs(step.world.store[x.newId], w, s, userId, applicationId, x,
                        "Jira ticket " + ticketId + " created", Some(ticketId))
            && step.client.returned.Some?
            && step.client.returned.value.status == [StatusEntry("Request created", x.serverNow)]
            && step.client.state.message == FeedbackStore.SubmitSucceeded
  {
    SettledWithTicket(w, s, userId, applicationId, x);
    ClientSeesSuccess(s, userId, applicationId, x.clientNow, SubmitServer(w, s, userId, applicationId, x).env);
  }

  /** A submission whose tracker call fails with `m`: the request is still
      stored, "Open" and without a ticket id, with a history of two entries
      ending in "Failed to create Jira ticket: Failed to create Jira issue:
      <m>"; the client still reports success and returns the created record. */
  lemma SubmitRecordsTicketFailure(w: Server.World, s: FeedbackStore.ClientState, userId: string, applicationId: string,
                                   x: SubmitInputs)
    requires x.newId !in w.store && x.ticketNumber < JiraService.TicketRange && x.trackerFailure.Some?
    requires UserService.Coherent(w.cache, x.serverNow)
    requires Submittable(s.formState, userId, applicationId)
    ensures var step := Submit(w, s, userId, applicationId, x);
            && x.newId in step.world.store
            && StoredAs(step.world.store[x.newId], w, s, userId, applicationId, x,
                        "Failed to create Jira ticket: " + ("Failed to create Jira issue: " + x.trackerFailure.value), None)
            && step.client.returned.Some?
            && step.client.returned.value.status == [StatusEntry("Request created", x.serverNow)]
            && step.client.state.message == FeedbackStore.SubmitSucceeded
  {
    SettledWithoutTicket(w, s, userId, applicationId, x);
    ClientSeesSuccess(s, userId, applicationId, x.clientNow, SubmitServer(w, s, userId, applicationId, x).env);
  }

  // ----- Listing -----

  /** The value of the first parameter named `key`, as the server reads its query. */
  function ParamValue(params: seq<(string, string)>, key: string): Option<string>
    decreases |params|
  {
    if |params| == 0 then None
    else if params[0].0 == key then Some(params[0].1)
    else ParamValue(params[1..], key)
  }

  /** The filter the server builds from the client's list parameters
      constrains exactly the non-empty ids the client passed. */
  lemma ListFilterFromClient(userId: string, applicationId: string)
    ensures var params := FeedbackStore.QueryParams(userId, applicationId);
            Server.BuildFilter(ParamValue(params, "userId"), ParamValue(params, "applicationId")) ==
            Server.Filter(if userId != "" then Some(userId) else None,
                          if applicationId != "" then Some(applicationId) else None)
  {
  }
}
