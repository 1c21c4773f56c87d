# Feedback portal: a Dafny model

This project models the core of a feedback portal. Users submit feedback
requests (a title, a description and a priority) for an application. The
server stores each request with the submitter's name and email, looked up
in a user directory and cached for ten minutes. A simulated issue tracker
opens a ticket for every request. Staff then move a request through the
statuses Open, In Progress, Resolved and Closed, or record a free-text
custom status. Every change is appended to the request's status history.

The model is written as pure functions over immutable data:

- `Schema` models the persisted document: its fields, its defaults, the
  shallow assignment of a request body onto a document, and save-time
  validation with the validator's error message.
- `UserService` models the directory lookup and its ten-minute cache.
  The directory reply is a parameter. Expiry is modelled lazily: an entry
  stored at `t` is live while the clock is below `t + 600000`.
- `JiraService` models the simulated tracker: ticket ids `FEED-<n>`,
  wrapped errors, and the priority mapping.
- `Server` models the HTTP handlers as operations on a `World`, which holds
  the document store and the directory cache.
- `FeedbackStore` models the client store. Each action is a function of the
  store state and of the outcomes of its external calls. It returns what
  the action returned, the store state afterwards, and the calls it made,
  in order.
- `StatusUpdate` and `FeedbackList` model the pure logic of the status
  modal and of the feedback table.
- `Lifecycle` connects the client actions to the server handlers. A non-2xx
  answer becomes the client-side error "Request failed with status code N",
  as axios reports it. This is where the end-to-end properties are proved:
  what a submission stores, with and without a ticket; how status changes
  accumulate in the history; and what the status modal actually sends.
- `Wrappers`, `Js` and `Decimal` are support modules. They provide
  `Option`/`Result`, JavaScript truthiness, `||` and template
  interpolation, and the decimal printing of numbers.

Three behaviours of the source shape what the model promises:

- The create handler always replaces the body's `status` with the single
  entry "Request created" (server.js:37), whatever history the body
  carried.
- A failed directory lookup yields a record with the `userId`, the
  placeholder name, an empty `email` and the error (userService.js:36-41).
- `submitFeedbackRequest` returns the record as the POST answered it, with
  its one-entry history (feedbackStore.js:114). It does not return the
  record as it stands after the ticket PUT.

## Model

| member | source | states |
|---|---|---|
| Schema.CastHistory | src/models/FeedbackRequest.js:3-6 | Casting a body's history keeps every entry's description, in order. An entry sent without a date gets the save-time clock. |
| Schema.CastAsInputs | src/models/FeedbackRequest.js:3-6 | Sending a stored history back unchanged, as the client does, stores the same history. |
| Schema.Merge | server.js:113-115 | Assigning a body onto a document overwrites exactly the keys the body carries. A history is replaced wholesale, never merged. Every other key, and the id, is unchanged. |
| Schema.MergeIdempotent | server.js:113-115 | Assigning the same body twice gives the same document as assigning it once. |
| Schema.MergeLifecycleKeys | server.js:113-115 | A body carrying only the history, the ticket id and `feedbackStatus` changes those three keys and nothing else. |
| Schema.NewDocument | src/models/FeedbackRequest.js:16-19 | A new document has priority "Low", `feedbackStatus` "Open" and `submittedDate` now unless the body sets them, an empty history, and no name, email or ticket id. Every key the body carries is assigned. |
| Schema.HistoryViolationsEmpty | src/models/FeedbackRequest.js:5 | The history validators all pass exactly when every entry has a non-empty description. |
| Schema.HistoryViolationsCover | src/models/FeedbackRequest.js:5 | A history entry without a description is reported under its own path `status.<i>.description`. |
| Schema.ViolationsEmptyIffValid | src/models/FeedbackRequest.js:8-21 | The list of failed validators is empty exactly when the document satisfies the schema: required strings non-empty, both enums respected, every entry described. |
| Schema.ValidationMessageListsEach | server.js:46-47 | The message of a failed save, which the handlers answer with 400, contains the text of every failed validator. |
| Schema.Validate | src/models/FeedbackRequest.js:8-21 | Validation succeeds exactly on valid documents and returns them unchanged. Otherwise every missing required field, every value outside an enum and every undescribed history entry is reported. |
| UserService.FetchUserInfo | src/services/userService.js:11-43 | The lookup never fails and the name it gives is never empty. A falsy id gives the degraded record "User ID is required" without contacting the directory. A directory failure gives the degraded record with its message. A reply gives its name or "User <id>", and its email or "". |
| UserService.Sweep | src/services/userService.js:62-65 | At time `now` the cache holds exactly the entries whose 10-minute timer has not fired, with their stored values. |
| UserService.GetUserInfo | src/services/userService.js:50-68 | A live entry is returned as is, and no fetch happens. Otherwise the fetch result, degraded or not, is returned and stored under the id with the current time. |
| UserService.LookupKeepsCoherent | src/services/userService.js:26-41 | After any lookup, every cached result belongs to its key and has a non-empty name. The result returned carries the id that was asked for. |
| UserService.NoRefetchWithinTtl | src/services/userService.js:50-65 | Of two lookups of one id less than 10 minutes apart, at most one fetches. When the first fetched, the second returns the same result, whatever the directory would now reply. |
| UserService.HitWhileLive | src/services/userService.js:52-54 | An entry younger than 10 minutes is returned without a fetch. |
| UserService.RefetchAfterTtl | src/services/userService.js:56-65 | Once an entry's timer has fired, the next lookup fetches again and returns the new result. |
| UserService.FailureIsCached | src/services/userService.js:32-60 | A degraded result is cached like a success. For 10 minutes, later lookups return it even if the directory has recovered. |
| JiraService.MockTicketIdShape | src/services/jiraService.js:23-25 | Every simulated id is "FEED-" followed by a canonical numeral of at most four digits, and that numeral reads back as the random number. |
| JiraService.TicketIdIsMock | src/services/jiraService.js:23-25 | Conversely, every id of that shape is the simulated id of a number below 10000. The shape describes exactly the ids the service produces. |
| JiraService.CreateIssue | src/services/jiraService.js:12-33 | Creation yields a non-empty `FEED-<n>` id, or fails with "Failed to create Jira issue: " followed by the cause. |
| JiraService.UpdateIssue | src/services/jiraService.js:50-66 | An update yields `true`, or fails with "Failed to update Jira issue: " followed by the cause. |
| JiraService.MapPriority | src/services/jiraService.js:36-47 | High, Medium and Low map to themselves. Every other value maps to Medium. |
| JiraService.MapPriorityFixesSchemaPriorities | src/services/jiraService.js:36-47 | The mapping is idempotent. It fixes exactly the schema's priority values. |
| Server.CreationPatch | server.js:33-38 | The created document's name, email and history override whatever the body carried. The rest of the body is kept. |
| Server.HandleCreate | server.js:24-49 | The directory lookup, and its caching, happen even when the save then fails. A valid document is stored under the fresh id and answered with 201. Otherwise the answer is 400 with the validation message and the store is unchanged. A well-formed store stays well-formed. |
| Server.CandidateFields | server.js:30-38 | A created document has exactly the history ["Request created" at the server's clock]. It has the looked-up name and email, so the `User ${userId}` fallback never applies. Status, priority, title and user id come from the body or the schema default. |
| Server.CreateRequiresFields | server.js:40-47 | A create request whose user id, application id, title or description is falsy is answered 400 and stores nothing. |
| Server.BuildFilter | server.js:53-57 | The list filter constrains a field exactly when its query value is truthy. |
| Server.Find | server.js:59 | The list holds exactly the stored documents matching the filter, with no document twice. |
| Server.HandleList | server.js:51-64 | The list handler answers 200 with exactly the documents that agree with every truthy query field. |
| Server.HandleGet | server.js:67-79 | The get handler answers with the stored document, or 404 "Feedback request not found". |
| Server.HandleUpdate | server.js:104-122 | The update handler answers 404 for an unknown id and leaves everything unchanged. Otherwise it assigns the body and answers 200 with the saved document, or 400 with the validation message and the store unchanged. The cache is never touched. |
| Server.UpdateTouchesOnlyBodyKeys | server.js:113-117 | An accepted update keeps the set of ids and every other document. On the addressed document only the keys in the body change. |
| Server.UserInfoReply | server.js:91-100 | The lookup result is answered 200. The fallback answer is 500 with the message, the id and "User <id>". |
| Server.HandleUserInfo | server.js:82-101 | Without an id the answer is 400 "User ID is required". Otherwise it is the cached lookup's result. |
| Server.UserInfoNeverFails | server.js:91-99 | The handler only ever answers 200 or 400. A directory failure shows up as a degraded 200 body carrying the error. |
| FeedbackStore.UpdateFormField | src/store/feedbackStore.js:29-36 | The named form field takes the value. Every other field, and the rest of the store, is unchanged. |
| FeedbackStore.ResetForm | src/store/feedbackStore.js:38-48 | Resetting gives the empty form with priority "Medium", no error and no message, and keeps the list and the loading flag. |
| FeedbackStore.ResetForgetsEdits | src/store/feedbackStore.js:29-48 | Resetting after an edit is the same as resetting without it. |
| FeedbackStore.Appended | src/store/feedbackStore.js:176-178 | The history sent back is the fetched history, entry for entry, followed by one new entry. |
| FeedbackStore.DraftBody | src/store/feedbackStore.js:58-64 | The POST body carries the form fields, both ids, a one-entry history and "Open". It carries no name, email, date or ticket id. |
| FeedbackStore.TicketBody | src/store/feedbackStore.js:76-82 | The ticket PUT carries exactly the ticket id and the saved history plus "Jira ticket <id> created". |
| FeedbackStore.FailureNoteBody | src/store/feedbackStore.js:90-95 | The failure PUT carries exactly the saved history plus "Failed to create Jira ticket: <message>". |
| FeedbackStore.QueryParams | src/store/feedbackStore.js:131-134 | A list parameter is sent for each id exactly when that id is non-empty. |
| FeedbackStore.SubmitFeedbackRequest | src/store/feedbackStore.js:51-123 | Null is returned exactly when the POST fails or the failure-recording PUT fails. Otherwise the POSTed record is returned, the form is cleared, the success message is set and a list refresh starts. On failure the loading flag goes off, the message stays cleared as the action's start left it, the form and the list are kept, and the error is `error.message` or "Failed to submit feedback request". |
| FeedbackStore.SubmitCalls | src/store/feedbackStore.js:51-123 | A failed submission makes only the POST. An accepted one makes the calls `AcceptedCalls` lists, ending with the refresh when a record is returned. |
| FeedbackStore.AcceptedCallsOrder | src/store/feedbackStore.js:67-112 | The POST comes first and the ticket creation second. The ticket PUT comes third when an id came back. The failure PUT is made exactly when the ticket block threw. No PUT is made otherwise. The refresh comes last. |
| FeedbackStore.GetFeedbackRequests | src/store/feedbackStore.js:125-154 | On success the fetched list replaces the store's list and is returned. On failure the list is kept, the error is set and [] is returned. |
| FeedbackStore.StatusBody | src/store/feedbackStore.js:169-187 | The status PUT carries the history plus the new text. It sets `feedbackStatus` exactly when the text is Resolved, In Progress or Closed, never "Open". |
| FeedbackStore.UpdateFeedbackStatus | src/store/feedbackStore.js:157-214 | The action fetches, then PUTs. It returns the record as fetched exactly when both succeed. It updates the ticket only when that record has a truthy ticket id, and never after a failure. After a failed GET or PUT only the loading flag and the error change, the error being `error.message` or "Failed to update feedback status". |
| FeedbackStore.TicketUpdateIsBestEffort | src/store/feedbackStore.js:193-200 | The ticket update's outcome never changes the action's result. |
| FeedbackStore.TicketPutFailureNotedAsCreationFailure | src/store/feedbackStore.js:71-98 | When the ticket is created but the PUT recording its id fails, the failure note "Failed to create Jira ticket: <message>" is PUT next, as if creation had failed. The submission returns null exactly when that note cannot be stored either. |
| FeedbackStore.SubmitReturnsPostedRecord | src/store/feedbackStore.js:71-114 | Unless recording a ticket failure fails, an accepted submission returns the POSTed record, whatever the ticket outcome. |
| StatusUpdate.Choose | src/components/FeedbackStatusUpdate.jsx:25-27 | Choosing an option sets both the select's value and `selectedStatus`. |
| StatusUpdate.EnterDetail | src/components/FeedbackStatusUpdate.jsx:111-119 | The detail field can be typed into only while "Custom" is selected. |
| StatusUpdate.ComposeStatus | src/components/FeedbackStatusUpdate.jsx:32-34 | With a truthy detail the text is "<selected>: <detail>". Otherwise it is the selected status. |
| StatusUpdate.ComposedWithDetailIsNotRecognised | src/components/FeedbackStatusUpdate.jsx:32-34 | A text composed with a detail is never one of the four statuses, so it can never move `feedbackStatus`. |
| StatusUpdate.Submit | src/components/FeedbackStatusUpdate.jsx:29-36 | Submission goes ahead exactly when the select has a value and a shown detail field is filled. It sends `selectedStatus`, or "Custom: <detail>". |
| StatusUpdate.UntouchedSubmitSendsEmpty | src/components/FeedbackStatusUpdate.jsx:12 | As written, submitting the freshly opened modal sends the empty text, not the "In Progress" it shows. |
| StatusUpdate.AfterSend | src/components/FeedbackStatusUpdate.jsx:36-38 | After a submission that went ahead, the select shows "In Progress" again and the detail is cleared, whatever the server answered. As written, `selectedStatus` keeps the last choice. As intended, the modal is back in its opened state. |
| StatusUpdate.SendKeepsSelection | src/components/FeedbackStatusUpdate.jsx:37 | As written, after a submission the select shows "In Progress", yet the next untouched submit sends the choice made before. |
| StatusUpdate.StaleChoiceAfterSend | src/components/FeedbackStatusUpdate.jsx:37 | Even starting from the corrected opened state, choosing "Resolved" and submitting leaves a modal that shows "In Progress" but sends "Resolved". |
| StatusUpdate.RunIntendedStaysSynced | src/components/FeedbackStatusUpdate.jsx:25-38 | In the corrected modal, `selectedStatus` agrees with the option shown after any sequence of picks, typing and submissions. |
| StatusUpdate.SubmitSendsShownStatus | src/components/FeedbackStatusUpdate.jsx:29-38 | In the corrected modal, an untouched submit sends "In Progress". After any sequence of actions, every submission sends a non-empty text: the option shown, or "Custom: <detail>". |
| StatusUpdate.StatusColor | src/components/FeedbackStatusUpdate.jsx:15-23 | The four statuses are coloured blue, orange, green and gray. Any other name is blue, except the names inherited from `Object.prototype`. |
| FeedbackList.PriorityColor | src/components/FeedbackList.jsx:36-43 | Low is green, High is red, and any other name is blue, except the names inherited from `Object.prototype`. |
| FeedbackList.StatusColor | src/components/FeedbackList.jsx:80-85 | Open is blue, In Progress orange and Resolved green. Anything else is gray. |
| FeedbackList.StatusColorsAgreeOnEnumeration | src/components/FeedbackList.jsx:80-85 | The table and the modal colour a status alike exactly when it is one of the schema's four statuses. |
| FeedbackList.LatestOf | src/components/FeedbackList.jsx:97-105 | The column shows "No updates" exactly for a missing or empty history. Otherwise it shows the last entry. |
| FeedbackList.LatestShowsAppendedEntry | src/components/FeedbackList.jsx:97-105 | After an entry is appended, the column shows that entry. |
| FeedbackList.Submitter | src/components/FeedbackList.jsx:61 | The column shows the stored name when it is truthy, otherwise "User <id>". |
| FeedbackList.SubmitterNeverBlank | src/components/FeedbackList.jsx:61 | The "Submitted By" column is never blank. An empty stored name shows "User <id>". |
| FeedbackList.TicketCell | src/components/FeedbackList.jsx:111 | The column shows the ticket id when it is truthy, otherwise "Not created yet". |
| FeedbackList.TicketCellShowsCreatedTicket | src/components/FeedbackList.jsx:111 | Every id the tracker hands out is shown unchanged, and never looks like the placeholder. |
| Lifecycle.CastAppended | src/store/feedbackStore.js:176-178 | The history sent back with one more entry is stored as the old history with that entry appended, dates kept. |
| Lifecycle.AppendAccepted | server.js:113-117 | Appending a non-empty entry, and possibly a ticket id and a schema status, to a valid document gives a valid document that differs only in those keys. |
| Lifecycle.StatusChangeAppends | src/store/feedbackStore.js:157-190 | A status change with a non-empty text appends exactly one entry and moves `feedbackStatus` only for a recognised text. Every other key, every other request and the cache are unchanged. |
| Lifecycle.ChangeStatusAppends | src/store/feedbackStore.js:157-205 | The client sees the change succeed and gets back the record as it was before the change. |
| Lifecycle.EmptyStatusInvalid | src/models/FeedbackRequest.js:5 | A status body whose new entry is empty merges into an invalid document. |
| Lifecycle.EmptyStatusBodyRefused | server.js:117-120 | The server refuses such a body with 400 and changes nothing. |
| Lifecycle.ChangeStatusEmptyIsRejected | src/store/feedbackStore.js:170-190 | A status change with the empty text stores nothing. The client reports "Request failed with status code 400". |
| Lifecycle.LastRecognized | src/store/feedbackStore.js:181-187 | Over a sequence of changes, `feedbackStatus` is the last recognised text, or is unchanged when there was none. |
| Lifecycle.ChangeStatusManyAppends | src/store/feedbackStore.js:157-190 | Any sequence of status changes grows the history by one entry per change, in call order, keeping the earlier history as a prefix. `feedbackStatus` follows the last recognised text. Nothing else changes. |
| Lifecycle.ChangeStatusManyLength | src/store/feedbackStore.js:176-178 | The history grows by exactly the number of changes, and the old history is a prefix. |
| Lifecycle.UntouchedModalIsRejected | src/components/FeedbackStatusUpdate.jsx:12 | As written, submitting the untouched modal is refused by the server. Nothing is stored, the action returns null and the store's error is "Request failed with status code 400". The modal still resets to its opened state, as after a success. |
| Lifecycle.UntouchedModalSetsInProgress | src/components/FeedbackStatusUpdate.jsx:96 | With the corrected initial state, the untouched modal records "In Progress" in the history and in `feedbackStatus`. |
| Lifecycle.SyncedModalRecordsShownStatus | src/components/FeedbackStatusUpdate.jsx:29-36 | A modal whose `selectedStatus` agrees with the option shown records that option as the new entry and as `feedbackStatus`. For "Custom" it records "Custom: <detail>" and leaves `feedbackStatus` unchanged. |
| Lifecycle.IntendedModalRecordsShownStatus | src/components/FeedbackStatusUpdate.jsx:25-38 | In the corrected modal, whatever the user did since it opened, a submission records exactly the option the select shows. |
| Lifecycle.CustomStatusKeepsFeedbackStatus | src/components/FeedbackStatusUpdate.jsx:32-36 | A custom status "Custom: <detail>" is appended to the history and leaves `feedbackStatus` as it was. |
| Lifecycle.CreatedRecord | server.js:24-45 | A submittable form is accepted with 201. The stored record has the form's fields, the looked-up identity, "Open", no ticket and the one-entry history. |
| Lifecycle.FollowUpPut | src/store/feedbackStore.js:85 | A follow-up PUT appending one described entry to a freshly stored record is accepted, and stores exactly that entry (and the ticket id it carries). |
| Lifecycle.ClientSeesSuccess | src/store/feedbackStore.js:100-114 | When the POST succeeded and no failure PUT failed, the client returns the POSTed record and shows the success message. |
| Lifecycle.SettledWithTicket | src/store/feedbackStore.js:71-86 | When the ticket is created, the server ends with the record holding the ticket id and the entry "Jira ticket FEED-<n> created". |
| Lifecycle.SettledWithoutTicket | src/store/feedbackStore.js:87-98 | When the tracker fails, the server ends with the record holding no ticket id and the entry naming the wrapped error. |
| Lifecycle.SubmitRecordsTicket | src/store/feedbackStore.js:51-114 | End to end, with a ticket: the record is stored with the looked-up name and email, "Open", `FEED-<n>` and two entries. The client gets back the one-entry record and reports success. |
| Lifecycle.SubmitRecordsTicketFailure | src/store/feedbackStore.js:87-114 | End to end, with a tracker failure: the request is still stored, without a ticket id, and its second entry is "Failed to create Jira ticket: Failed to create Jira issue: <cause>". The client still reports success. |
| Lifecycle.ListFilterFromClient | src/store/feedbackStore.js:131-138 | The filter the server builds from the client's parameters constrains exactly the non-empty ids the client passed. |

## Left out

- React rendering, hooks and the selector wrapper (src/store/feedbackStore.js:8-14 and 217-237) are left out. They hold no logic beyond property access.
- HTTP, JSON, MongoDB and axios transport are left out. The store is a map from id to document, and each HTTP call becomes a handler call or a parameter holding its outcome.
- Clocks, the random ticket number, fresh ObjectIds and directory replies are parameters. One client clock is used for every `new Date()` within one action, and one server clock for every default within one request.
- Errors from the database other than validation failures are left out. That covers the 500 of the list and get handlers and a malformed id's cast error.
- Bodies carrying `null` values or keys outside the schema are not modelled. Strict mode drops unknown keys. `null` would clear a key, and that path is not modelled.
- Concurrency is left out: overlapping requests, the lost-update race between two status changes on one request, and two simultaneous cache misses for one id. Every action runs to completion before the next starts.
- Logging, environment configuration and the simulated delays are left out.
- Query parameters are not URL-encoded in the model. Each parameter is a key/value pair.
- In `updateFeedbackStatus`, the "Feedback request not found" throw is left out. It fires only for a falsy 2xx body, and the get handler always answers 404 instead.
- The user-info route always has a non-empty id, so its 400 branch is modelled but unreachable through routing.
- The validator's message lists failures in an order the model chooses, the schema's field order; Mongoose's own order follows its internal path state and is not modelled. `Schema.ValidationMessageListsEach` holds whatever the order. The wording is Mongoose's default. A history entry's missing description is reported under its full path, `status.<i>.description`, with a message naming the field `description` within the entry. Mongoose words subdocument errors this way.
- StatusUpdate.StatusColor: for a name inherited from `Object.prototype` ("toString", "constructor", "__proto__" and the like), `colors[status]` yields the inherited member, not a colour. The model returns "blue" for these names and its contract promises nothing about them. Callers only pass schema statuses.
- FeedbackList.PriorityColor: the same holds for `colors[priority]`. The model returns "blue" for the inherited names and its contract promises nothing about them. Callers only pass schema priorities.
- JiraService.UpdateIssue: the simulated tracker update cannot fail either. Its failure is a parameter, and the status change feeds the result to the store's best-effort ticket update.
- Closing the status modal without submitting (its cancel button) is left out. The modelled actions are picking, typing and submitting.
- The status modal assumes the form values include the detail only while the detail field is shown.
- JiraService.CreateIssue: the simulated tracker in the source cannot fail, so the failure is a parameter that models the `catch` path.
- Decimal numerals model the printing of integers only, which is all the source prints (ticket numbers and HTTP status codes).

## Findings

| source | as written | input that shows it | evidently intended | confidence | as-written member | corrected member |
|---|---|---|---|---|---|---|
| src/components/FeedbackStatusUpdate.jsx:12 | `selectedStatus` starts as the empty string, while the form shows "In Progress" (line 96). An untouched submit sends "". The server then refuses the new history entry, whose description is empty, with 400. The action returns null without throwing, so the modal resets and closes as on success, and the error shows only in the store. | Open the modal and press "Update Status" without touching the select. | `selectedStatus` starts at the value the select shows, "In Progress". | not executed | Lifecycle.UntouchedModalIsRejected | Lifecycle.UntouchedModalSetsInProgress |
| src/components/FeedbackStatusUpdate.jsx:37 | `form.resetFields()` puts the select back to "In Progress" but leaves `selectedStatus` at the last choice. The component stays mounted while a request is selected. | Choose "Resolved", submit, reopen the modal and submit without touching the select: "Resolved" is sent while "In Progress" is shown. | The reset also puts `selectedStatus` back to the value the select shows. | not executed | StatusUpdate.StaleChoiceAfterSend | Lifecycle.IntendedModalRecordsShownStatus |
