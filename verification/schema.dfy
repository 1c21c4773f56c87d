/** The persisted feedback-request document (src/models/FeedbackRequest.js):
    its fields, the defaults applied when a document is constructed, the
    shallow assignment of a request body onto a document, and the validation
    run when a document is saved. */
module Schema {
  import opened Wrappers
  import Decimal

  /** Milliseconds on some clock; `Date` values are modelled by this. */
  type Time = nat

  /** A document identifier (a MongoDB ObjectId in the source). */
  type Id = string

  /** One entry of a request's status history, as stored. */
  datatype StatusEntry = StatusEntry(description: string, statusDate: Time)

  /** One entry of a history as it arrives in a request body: the date may be
      left out, in which case the schema default (the time of the cast) applies. */
  datatype StatusInput = StatusInput(description: string, statusDate: Option<Time>)

  /** A feedback-request document. Required strings that were never given are
      held as "" (the schema's `required` rejects a missing and an empty string
      alike); optional strings are `Option`s. `priority` and `feedbackStatus`
      are plain strings because a body may carry any string there: whether it
      belongs to the enumeration is decided by validation. */
  datatype FeedbackRequest = FeedbackRequest(
    id: Id,
    userId: string,
    userName: Option<string>,
    userEmail: Option<string>,
    applicationId: string,
    title: string,
    description: string,
    priority: string,
    submittedDate: Time,
    jiraTicketId: Option<string>,
    feedbackStatus: string,
    status: seq<StatusEntry>)

  const Priorities: seq<string> := ["Low", "Medium", "High"]
  const FeedbackStatuses: seq<string> := ["Open", "In Progress", "Resolved", "Closed"]
  const DefaultPriority: string := "Low"
  const DefaultFeedbackStatus: string := "Open"

  /** A JSON request body restricted to the schema's keys (keys outside the
      schema are dropped by the schema's strict mode). `None` means the key is
      absent from the body. */
  datatype Patch = Patch(
    userId: Option<string>,
    userName: Option<string>,
    userEmail: Option<string>,
    applicationId: Option<string>,
    title: Option<string>,
    description: Option<string>,
    priority: Option<string>,
    submittedDate: Option<Time>,
    jiraTicketId: Option<string>,
    feedbackStatus: Option<string>,
    status: Option<seq<StatusInput>>)

  const EmptyPatch: Patch := Patch(None, None, None, None, None, None, None, None, None, None, None)

  /** Casting a body's history into stored entries: every entry keeps its
      description, and a missing date becomes `now`. */
  function CastHistory(entries: seq<StatusInput>, now: Time): (h: seq<StatusEntry>)
    ensures |h| == |entries|
    ensures forall i :: 0 <= i < |h| ==>
              h[i].description == entries[i].description &&
              h[i].statusDate == entries[i].statusDate.GetOr(now)
  {
    if |entries| == 0 then []
    else
      var last := entries[|entries| - 1];
      CastHistory(entries[..|entries| - 1], now) + [StatusEntry(last.description, last.statusDate.GetOr(now))]
  }

  /** A stored history as it travels back in JSON: every entry carries its date. */
  function AsInputs(h: seq<StatusEntry>): (entries: seq<StatusInput>)
    ensures |entries| == |h|
    ensures forall i :: 0 <= i < |h| ==> entries[i] == StatusInput(h[i].description, Some(h[i].statusDate))
  {
    seq(|h|, i requires 0 <= i < |h| => StatusInput(h[i].description, Some(h[i].statusDate)))
  }

  /** Sending a stored history back unchanged stores the same history. */
  lemma CastAsInputs(h: seq<StatusEntry>, now: Time)
    ensures CastHistory(AsInputs(h), now) == h
  {
  }

  // ----- Fields, and the shallow assignment of a body onto a document -----

  /** The assignable keys of a document (everything but its id). */
  datatype Field =
    | UserIdKey | UserNameKey | UserEmailKey | ApplicationIdKey | TitleKey | DescriptionKey
    | PriorityKey | SubmittedDateKey | JiraTicketIdKey | FeedbackStatusKey | StatusKey

  /** The value a document holds under one key. */
  datatype Value =
    | Text(text: string)
    | MaybeText(maybe: Option<string>)
    | Moment(time: Time)
    | History(history: seq<StatusEntry>)

  function Get(r: FeedbackRequest, f: Field): Value
  {
    match f
    case UserIdKey => Text(r.userId)
    case UserNameKey => MaybeText(r.userName)
    case UserEmailKey => MaybeText(r.userEmail)
    case ApplicationIdKey => Text(r.applicationId)
    case TitleKey => Text(r.title)
    case DescriptionKey => Text(r.description)
    case PriorityKey => Text(r.priority)
    case SubmittedDateKey => Moment(r.submittedDate)
    case JiraTicketIdKey => MaybeText(r.jiraTicketId)
    case FeedbackStatusKey => Text(r.feedbackStatus)
    case StatusKey => History(r.status)
  }

  /** Whether the body carries key `f`. */
  predicate Present(p: Patch, f: Field)
  {
    match f
    case UserIdKey => p.userId.Some?
    case UserNameKey => p.userName.Some?
    case UserEmailKey => p.userEmail.Some?
    case ApplicationIdKey => p.applicationId.Some?
    case TitleKey => p.title.Some?
    case DescriptionKey => p.description.Some?
    case PriorityKey => p.priority.Some?
    case SubmittedDateKey => p.submittedDate.Some?
    case JiraTicketIdKey => p.jiraTicketId.Some?
    case FeedbackStatusKey => p.feedbackStatus.Some?
    case StatusKey => p.status.Some?
  }

  /** The value key `f` receives from the body, after casting. */
  function Assigned(p: Patch, f: Field, now: Time): Value
    requires Present(p, f)
  {
    match f
    case UserIdKey => Text(p.userId.value)
    case UserNameKey => MaybeText(p.userName)
    case UserEmailKey => MaybeText(p.userEmail)
    case ApplicationIdKey => Text(p.applicationId.value)
    case TitleKey => Text(p.title.value)
    case DescriptionKey => Text(p.description.value)
    case PriorityKey => Text(p.priority.value)
    case SubmittedDateKey => Moment(p.submittedDate.value)
    case JiraTicketIdKey => MaybeText(p.jiraTicketId)
    case FeedbackStatusKey => Text(p.feedbackStatus.value)
    case StatusKey => History(CastHistory(p.status.value, now))
  }

  /** `Object.keys(body).forEach(key => doc[key] = body[key])`: every key the
      body carries is overwritten (a history is replaced wholesale, not merged),
      and every other key, and the id, keep their values. */
  function Merge(r: FeedbackRequest, p: Patch, now: Time): (m: FeedbackRequest)
    ensures m.id == r.id
    ensures forall f :: Present(p, f) ==> Get(m, f) == Assigned(p, f, now)
    ensures forall f :: !Present(p, f) ==> Get(m, f) == Get(r, f)
  {
    FeedbackRequest(
      r.id,
      p.userId.GetOr(r.userId),
      if p.userName.Some? then p.userName else r.userName,
      if p.userEmail.Some? then p.userEmail else r.userEmail,
      p.applicationId.GetOr(r.applicationId),
      p.title.GetOr(r.title),
      p.description.GetOr(r.description),
      p.priority.GetOr(r.priority),
      p.submittedDate.GetOr(r.submittedDate),
      if p.jiraTicketId.Some? then p.jiraTicketId else r.jiraTicketId,
      p.feedbackStatus.GetOr(r.feedbackStatus),
      if p.status.Some? then CastHistory(p.status.value, now) else r.status)
  }

  /** Assigning the same body twice is the same as assigning it once. */
  lemma MergeIdempotent(r: FeedbackRequest, p: Patch, now: Time)
    ensures Merge(Merge(r, p, now), p, now) == Merge(r, p, now)
  {
  }

  /** A body that carries only the history, the ticket id and the current
      status changes only those three keys. */
  lemma MergeLifecycleKeys(r: FeedbackRequest, p: Patch, now: Time)
    requires forall f :: Present(p, f) ==> f == StatusKey || f == JiraTicketIdKey || f == FeedbackStatusKey
    ensures Merge(r, p, now) ==
            r.(status := if p.status.Some? then CastHistory(p.status.value, now) else r.status,
               jiraTicketId := if p.jiraTicketId.Some? then p.jiraTicketId else r.jiraTicketId,
               feedbackStatus := p.feedbackStatus.GetOr(r.feedbackStatus))
  {
    assert !Present(p, UserIdKey) && !Present(p, UserNameKey) && !Present(p, UserEmailKey);
    assert !Present(p, ApplicationIdKey) && !Present(p, TitleKey) && !Present(p, DescriptionKey);
    assert !Present(p, PriorityKey) && !Present(p, SubmittedDateKey);
  }

  /** A document before any key is assigned: the schema defaults. */
  function Defaults(id: Id, now: Time): FeedbackRequest
  {
    FeedbackRequest(id, "", None, None, "", "", "", DefaultPriority, now, None, DefaultFeedbackStatus, [])
  }

  /** `new FeedbackRequest(body)`: the defaults, then the body's keys. */
  function NewDocument(id: Id, p: Patch, now: Time): (r: FeedbackRequest)
    ensures r.id == id
    ensures r.priority == p.priority.GetOr("Low")
    ensures r.feedbackStatus == p.feedbackStatus.GetOr("Open")
    ensures r.submittedDate == p.submittedDate.GetOr(now)
    ensures p.status.None? ==> r.status == []
    ensures p.userName.None? ==> r.userName.None?
    ensures p.userEmail.None? ==> r.userEmail.None?
    ensures p.jiraTicketId.None? ==> r.jiraTicketId.None?
    ensures forall f :: Present(p, f) ==> Get(r, f) == Assigned(p, f, now)
  {
    Merge(Defaults(id, now), p, now)
  }

  // ----- Validation at save time -----

  /** One failed validator, with the document path it failed on (the error
      key). A required validator also carries the field's name within its own
      (sub)document, which is what its message names: for a history entry
      that is "description", not the full path. */
  datatype Violation = Required(path: string, field: string) | NotInEnum(path: string, value: string)

  /** The document path of the description of history entry `i`. */
  function EntryPath(i: nat): string
  {
    "status." + Decimal.FromNat(i) + ".description"
  }

  /** A document the schema accepts. */
  predicate Valid(r: FeedbackRequest)
  {
    && r.userId != ""
    && r.applicationId != ""
    && r.title != ""
    && r.description != ""
    && r.priority in Priorities
    && r.feedbackStatus in FeedbackStatuses
    && forall i :: 0 <= i < |r.status| ==> r.status[i].description != ""
  }

  function RequiredText(path: string, field: string, v: string): seq<Violation>
  {
    if v == "" then [Required(path, field)] else []
  }

  function InEnum(path: string, v: string, allowed: seq<string>): seq<Violation>
  {
    if v in allowed then [] else [NotInEnum(path, v)]
  }

  /** The failed validators of history entries, the first of which is entry `from`. */
  function HistoryViolations(h: seq<StatusEntry>, from: nat): seq<Violation>
    decreases |h|
  {
    if |h| == 0 then []
    else RequiredText(EntryPath(from), "description", h[0].description) + HistoryViolations(h[1..], from + 1)
  }

  /** Every failed validator of a document, in schema order. */
  function Violations(r: FeedbackRequest): seq<Violation>
  {
    RequiredText("userId", "userId", r.userId)
    + RequiredText("applicationId", "applicationId", r.applicationId)
    + RequiredText("title", "title", r.title)
    + RequiredText("description", "description", r.description)
    + InEnum("priority", r.priority, Priorities)
    + InEnum("feedbackStatus", r.feedbackStatus, FeedbackStatuses)
    + HistoryViolations(r.status, 0)
  }

  /** The history validators all pass exactly when every entry has a description. */
  lemma {:induction false} HistoryViolationsEmpty(h: seq<StatusEntry>, from: nat)
    ensures HistoryViolations(h, from) == [] <==> forall i :: 0 <= i < |h| ==> h[i].description != ""
    decreases |h|
  {
    if |h| > 0 {
      HistoryViolationsEmpty(h[1..], from + 1);
      assert forall i :: 1 <= i < |h| ==> h[i] == h[1..][i - 1];
    }
  }

  /** An entry without a description is reported under its own path. */
  lemma {:induction false} HistoryViolationsCover(h: seq<StatusEntry>, from: nat, i: nat)
    requires i < |h| && h[i].description == ""
    ensures Required(EntryPath(from + i), "description") in HistoryViolations(h, from)
    decreases |h|
  {
    if i > 0 {
      assert h[1..][i - 1] == h[i];
      HistoryViolationsCover(h[1..], from + 1, i - 1);
    }
  }

  /** Validation passes exactly when the document is `Valid`. */
  lemma ViolationsEmptyIffValid(r: FeedbackRequest)
    ensures Violations(r) == [] <==> Valid(r)
  {
    HistoryViolationsEmpty(r.status, 0);
  }

  /** `doc.validate()`: the document itself, or every validator that failed. */
  function Validate(r: FeedbackRequest): (v: Result<FeedbackRequest, seq<Violation>>)
    ensures v.Success? <==> Valid(r)
    ensures v.Success? ==> v.value == r
    ensures v.Failure? ==> |v.error| > 0
    ensures v.Failure? && r.userId == "" ==> Required("userId", "userId") in v.error
    ensures v.Failure? && r.applicationId == "" ==> Required("applicationId", "applicationId") in v.error
    ensures v.Failure? && r.title == "" ==> Required("title", "title") in v.error
    ensures v.Failure? && r.description == "" ==> Required("description", "description") in v.error
    ensures v.Failure? && r.priority !in Priorities ==> NotInEnum("priority", r.priority) in v.error
    ensures v.Failure? && r.feedbackStatus !in FeedbackStatuses ==>
              NotInEnum("feedbackStatus", r.feedbackStatus) in v.error
    ensures v.Failure? ==> forall i :: 0 <= i < |r.status| && r.status[i].description == "" ==>
              Required(EntryPath(i), "description") in v.error
  {
    ViolationsEmptyIffValid(r);
    var vs := Violations(r);
    if vs == [] then Success(r)
    else
      assert forall i :: 0 <= i < |r.status| && r.status[i].description == "" ==>
               Required(EntryPath(i), "description") in vs by {
        forall i | 0 <= i < |r.status| && r.status[i].description == "" {
          HistoryViolationsCover(r.status, 0, i);
        }
      }
      Failure(vs)
  }

  /** The text of one failed validator, as Mongoose words it: the error key,
      then the message, which names the path within the (sub)document. */
  function ViolationText(v: Violation): string
  {
    match v
    case Required(p, field) => p + ": Path `" + field + "` is required."
    case NotInEnum(p, x) => p + ": `" + x + "` is not a valid enum value for path `" + p + "`."
  }

  /** The texts joined with ", ". */
  function Join(texts: seq<string>): string
    decreases |texts|
  {
    if |texts| == 0 then ""
    else if |texts| == 1 then texts[0]
    else texts[0] + ", " + Join(texts[1..])
  }

  /** The text of every failed validator, in order. */
  function Texts(vs: seq<Violation>): (texts: seq<string>)
    ensures |texts| == |vs| && forall i :: 0 <= i < |vs| ==> texts[i] == ViolationText(vs[i])
  {
    seq(|vs|, i requires 0 <= i < |vs| => ViolationText(vs[i]))
  }

  /** The message of the error a failed save throws. */
  function ValidationMessage(vs: seq<Violation>): string
  {
    "FeedbackRequest validation failed: " + Join(Texts(vs))
  }

  /** `t` occurs in `s` at offset `k`. */
  predicate Occurs(t: string, s: string, k: nat)
  {
    k + |t| <= |s| && s[k..k + |t|] == t
  }

  lemma OccursAfter(t: string, s: string, prefix: string, k: nat)
    requires Occurs(t, s, k)
    ensures Occurs(t, prefix + s, |prefix| + k)
  {
    assert (prefix + s)[|prefix| + k..|prefix| + k + |t|] == s[k..k + |t|];
  }

  lemma {:induction false} JoinListsEach(texts: seq<string>, i: nat)
    requires i < |texts|
    ensures exists k :: Occurs(texts[i], Join(texts), k)
    decreases |texts|
  {
    var t := texts[i];
    if |texts| == 1 {
      assert Occurs(t, Join(texts), 0);
    } else if i == 0 {
      var rest := ", " + Join(texts[1..]);
      assert Join(texts) == t + rest;
      assert (t + rest)[0..|t|] == t;
      assert Occurs(t, Join(texts), 0);
    } else {
      JoinListsEach(texts[1..], i - 1);
      assert texts[1..][i - 1] == t;
      var k :| Occurs(t, Join(texts[1..]), k);
      var head := texts[0] + ", ";
      assert Join(texts) == head + Join(texts[1..]);
      OccursAfter(t, Join(texts[1..]), head, k);
      assert Occurs(t, Join(texts), |head| + k);
    }
  }

  /** The message of a failed save lists the text of every failed validator. */
  lemma ValidationMessageListsEach(vs: seq<Violation>, i: nat)
    requires i < |vs|
    ensures exists k :: Occurs(ViolationText(vs[i]), ValidationMessage(vs), k)
  {
    var texts := Texts(vs);
    var prefix := "FeedbackRequest validation failed: ";
    JoinListsEach(texts, i);
    var k :| Occurs(texts[i], Join(texts), k);
    OccursAfter(texts[i], Join(texts), prefix, k);
    assert Occurs(ViolationText(vs[i]), ValidationMessage(vs), |prefix| + k);
  }
}
