/** The issue-tracker helpers (src/services/jiraService.js). The tracker is
    simulated in the source; the random ticket number and the failure of the
    (would-be) tracker call are parameters here. */
module JiraService {
  import opened Wrappers
  import Decimal
  import Schema

  /** The project key, and the prefix `${projectKey}-` of every id. */
  const ProjectKey: string := "FEED"
  const TicketPrefix: string := ProjectKey + "-"

  /** The exclusive bound of `Math.floor(Math.random() * 10000)`. */
  const TicketRange: nat := 10000

  /** The shape of a ticket id this service hands out: "FEED-" and a numeral
      of at most four digits, printed without leading zeros. */
  predicate IsTicketId(s: string)
  {
    && 6 <= |s| <= 9
    && s[..5] == TicketPrefix
    && Decimal.Canonical(s[5..])
  }

  /** The number inside a ticket id. */
  function TicketNumber(s: string): nat
    requires IsTicketId(s)
  {
    Decimal.ToNat(s[5..])
  }

  /** The simulated id `${projectKey}-${randomNumber}`. */
  function MockTicketId(n: nat): string
    requires n < TicketRange
  {
    TicketPrefix + Decimal.FromNat(n)
  }

  /** Every mock id has the ticket shape and gives its number back. */
  lemma MockTicketIdShape(n: nat)
    requires n < TicketRange
    ensures IsTicketId(MockTicketId(n))
    ensures TicketNumber(MockTicketId(n)) == n
  {
    var s := MockTicketId(n);
    assert Decimal.Pow10(4) == TicketRange;
    Decimal.FromNatLength(n, 4);
    assert s[5..] == Decimal.FromNat(n);
    Decimal.ToNatFromNat(n);
  }

  /** Conversely, every id of the ticket shape is the mock id of a number in
      range: the ticket shape describes exactly the ids the service produces. */
  lemma TicketIdIsMock(s: string)
    requires IsTicketId(s)
    ensures TicketNumber(s) < TicketRange
    ensures MockTicketId(TicketNumber(s)) == s
  {
    Decimal.ToNatBound(s[5..]);
    assert Decimal.Pow10(|s[5..]|) <= Decimal.Pow10(4) == TicketRange by {
      PowMonotone(|s[5..]|, 4);
    }
    Decimal.FromNatToNat(s[5..]);
    assert s == s[..5] + s[5..];
  }

  lemma {:induction false} PowMonotone(j: nat, k: nat)
    requires j <= k
    ensures Decimal.Pow10(j) <= Decimal.Pow10(k)
    decreases k
  {
    if j < k {
      PowMonotone(j, k - 1);
    }
  }

  /** `createJiraIssueFromFeedback`: the mock id for ticket number `n`, or, when
      the tracker call fails with `failure`, an error whose message wraps the
      cause. A created id is never empty, so it is always truthy. */
  function CreateIssue(n: nat, failure: Option<string>): (r: Result<string, string>)
    requires n < TicketRange
    ensures r.Success? <==> failure.None?
    ensures r.Success? ==> IsTicketId(r.value) && r.value != "" && TicketNumber(r.value) == n
    ensures r.Failure? ==> r.error == "Failed to create Jira issue: " + failure.value
  {
    MockTicketIdShape(n);
    match failure
    case None => Success(MockTicketId(n))
    case Some(cause) => Failure("Failed to create Jira issue: " + cause)
  }

  /** `updateJiraIssue`: `true` on success, otherwise an error whose message
      wraps the cause. */
  function UpdateIssue(issueKey: string, update: Schema.StatusEntry, failure: Option<string>): (r: Result<bool, string>)
    ensures r.Success? <==> failure.None?
    ensures r.Success? ==> r.value
    ensures r.Failure? ==> r.error == "Failed to update Jira issue: " + failure.value
  {
    match failure
    case None => Success(true)
    case Some(cause) => Failure("Failed to update Jira issue: " + cause)
  }

  /** `mapPriorityToJira`. */
  function MapPriority(priority: string): (jira: string)
    ensures jira in ["High", "Medium", "Low"]
    ensures priority in ["High", "Medium", "Low"] ==> jira == priority
    ensures priority !in ["High", "Medium", "Low"] ==> jira == "Medium"
  {
    match priority
    case "High" => "High"
    case "Medium" => "Medium"
    case "Low" => "Low"
    case _ => "Medium"
  }

  /** Mapping is idempotent, and agrees with the schema's priority enumeration:
      it fixes exactly the values the schema accepts. */
  lemma MapPriorityFixesSchemaPriorities(priority: string)
    ensures MapPriority(MapPriority(priority)) == MapPriority(priority)
    ensures MapPriority(priority) == priority <==> priority in Schema.Priorities
  {
  }
}
