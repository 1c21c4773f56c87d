/** The pure render helpers of the feedback table (src/components/FeedbackList.jsx). */
module FeedbackList {
  import opened Wrappers
  import opened Js
  import Schema
  import StatusUpdate
  import JiraService

  /** `getPriorityColor`, with its "blue" default. As with the modal's
      colours, the contract says nothing about names inherited from
      `Object.prototype`. */
  function PriorityColor(priority: string): (color: string)
    ensures priority == "Low" ==> color == "green"
    ensures priority == "High" ==> color == "red"
    ensures priority != "Low" && priority != "High" && priority !in ObjectPrototypeKeys ==> color == "blue"
  {
    match priority
    case "Low" => "green"
    case "Medium" => "blue"
    case "High" => "red"
    case _ => "blue"
  }

  /** The status column's colour, with its "gray" default. */
  function StatusColor(status: string): (color: string)
    ensures status == "Open" ==> color == "blue"
    ensures status == "In Progress" ==> color == "orange"
    ensures status == "Resolved" ==> color == "green"
    ensures status != "Open" && status != "In Progress" && status != "Resolved" ==> color == "gray"
  {
    if status == "Open" then "blue"
    else if status == "In Progress" then "orange"
    else if status == "Resolved" then "green"
    else "gray"
  }

  /** The table and the modal colour every value of the schema's enumeration
      alike, and disagree on every value outside it. */
  lemma StatusColorsAgreeOnEnumeration(status: string)
    ensures StatusColor(status) == StatusUpdate.StatusColor(status) <==> status in Schema.FeedbackStatuses
  {
  }

  /** What the "Latest Update" column shows. */
  datatype LatestUpdate = NoUpdates | Latest(description: string, statusDate: Schema.Time)

  /** The last history entry, or "No updates" for a missing or empty history. */
  function LatestOf(history: Option<seq<Schema.StatusEntry>>): (shown: LatestUpdate)
    ensures shown.NoUpdates? <==> history.None? || |history.value| == 0
    ensures shown.Latest? ==>
              var h := history.value;
              shown == Latest(h[|h| - 1].description, h[|h| - 1].statusDate)
  {
    if history.None? || |history.value| == 0 then NoUpdates
    else
      var last := history.value[|history.value| - 1];
      Latest(last.description, last.statusDate)
  }

  /** After an entry is appended, the column shows exactly that entry. */
  lemma LatestShowsAppendedEntry(h: seq<Schema.StatusEntry>, e: Schema.StatusEntry)
    ensures LatestOf(Some(h + [e])) == Latest(e.description, e.statusDate)
  {
  }

  /** The "Submitted By" column: the stored name, or the placeholder. */
  function Submitter(userName: Option<string>, userId: Option<string>): (shown: string)
    ensures Truthy(userName) ==> shown == userName.value
    ensures !Truthy(userName) ==> shown == UserLabel(userId)
  {
    Or(userName, UserLabel(userId))
  }

  /** The column is never blank: a falsy name falls back to "User <id>". */
  lemma SubmitterNeverBlank(userName: Option<string>, userId: Option<string>)
    ensures Submitter(userName, userId) != ""
    ensures userName.Some? && userName.value == "" ==> Submitter(userName, userId) == UserLabel(userId)
  {
    assert UserLabel(userId)[0] == 'U';
  }

  /** The "Jira Ticket" column: the ticket id, or "Not created yet". */
  function TicketCell(jiraTicketId: Option<string>): (shown: string)
    ensures Truthy(jiraTicketId) ==> shown == jiraTicketId.value
    ensures !Truthy(jiraTicketId) ==> shown == "Not created yet"
  {
    Or(jiraTicketId, "Not created yet")
  }

  /** Every id the tracker hands out is shown as is, and a request without
      one shows the placeholder: the column tells the two apart. */
  lemma TicketCellShowsCreatedTicket(n: nat)
    requires n < JiraService.TicketRange
    ensures TicketCell(Some(JiraService.MockTicketId(n))) == JiraService.MockTicketId(n)
    ensures TicketCell(None) != JiraService.MockTicketId(n)
  {
    JiraService.MockTicketIdShape(n);
    assert "Not created yet"[0] != JiraService.MockTicketId(n)[0];
  }
}
