/** The HTTP handlers of server.js for `/api/feedback-requests` and
    `/api/user-info`, as operations on an in-memory document store and the
    user-directory cache. Clocks, fresh ids and directory replies are
    parameters. */
module Server {
  import opened Wrappers
  import opened Js
  import opened Schema
  import UserService

  /** The collection of feedback requests, by id. */
  type Store = map<Id, FeedbackRequest>

  /** Everything the server keeps between requests. */
  datatype World = World(store: Store, cache: UserService.Cache)

  /** A JSON response body. */
  datatype Body =
    | Record(record: FeedbackRequest)
    | Records(records: seq<FeedbackRequest>)
    | Message(message: string)
    | UserInfoBody(info: UserService.UserInfo)
    | UserInfoFallback(message: string, userId: string, userName: string)

  datatype Response = Response(code: nat, body: Body)

  /** A response and the server state after the request. */
  datatype Served = Served(response: Response, world: World)

  /** Every stored document sits under its own id and passed validation. */
  predicate WellFormed(store: Store)
  {
    forall id :: id in store ==> store[id].id == id && Valid(store[id])
  }

  const NotFound: Response := Response(404, Message("Feedback request not found"))

  // ----- POST /api/feedback-requests -----

  /** `{...req.body, userName, userEmail, status}`: the directory name (or the
      placeholder), the directory email (or ""), and a history of one entry,
      all overriding whatever the body carried. */
  function CreationPatch(body: Patch, info: UserService.UserInfo): (p: Patch)
    ensures p.userName == Some(Or(Some(info.userName), UserLabel(body.userId)))
    ensures p.userEmail == Some(Or(Some(info.email), ""))
    ensures p.status == Some([StatusInput("Request created", None)])
    ensures p == body.(userName := p.userName, userEmail := p.userEmail, status := p.status)
  {
    body.(userName := Some(Or(Some(info.userName), UserLabel(body.userId))),
          userEmail := Some(Or(Some(info.email), "")),
          status := Some([StatusInput("Request created", None)]))
  }

  /** The document a create request builds before it is saved. */
  function Candidate(body: Patch, info: UserService.UserInfo, newId: Id, now: Time): FeedbackRequest
  {
    NewDocument(newId, CreationPatch(body, info), now)
  }

  /** The create handler. The directory lookup (and its caching) happens
      before the save and is kept even when the save fails. A document that
      passes validation is stored and answered with 201; otherwise the answer
      is 400 with the validation message and the store is unchanged. */
  function HandleCreate(w: World, body: Patch, now: Time, newId: Id,
                        reply: Result<UserService.DirectoryReply, string>): (s: Served)
    requires newId !in w.store
    ensures var lookup := UserService.GetUserInfo(w.cache, now, body.userId, reply);
            var doc := Candidate(body, lookup.info, newId, now);
            && s.world.cache == lookup.cache
            && (s.response.code == 201 <==> Valid(doc))
            && (Valid(doc) ==> s.response.body == Record(doc) && s.world.store == w.store[newId := doc])
            && (!Valid(doc) ==> s.response == Response(400, Message(ValidationMessage(Violations(doc))))
                                && s.world.store == w.store)
    ensures WellFormed(w.store) ==> WellFormed(s.world.store)
  {
    var lookup := UserService.GetUserInfo(w.cache, now, body.userId, reply);
    var doc := Candidate(body, lookup.info, newId, now);
    match Validate(doc)
    case Success(saved) => Served(Response(201, Record(saved)), World(w.store[newId := saved], lookup.cache))
    case Failure(vs) => Served(Response(400, Message(ValidationMessage(vs))), World(w.store, lookup.cache))
  }

  /** What a created document holds: exactly one history entry, "Request
      created" at the server's clock, whatever history the body carried; the
      looked-up name and email, whatever the body carried (the `User ${userId}`
      fallback never applies, since a lookup never yields an empty name); and
      every other key from the body or its schema default. */
  lemma CandidateFields(c: UserService.Cache, body: Patch, reply: Result<UserService.DirectoryReply, string>,
                        newId: Id, now: Time)
    requires UserService.Coherent(c, now)
    ensures var info := UserService.GetUserInfo(c, now, body.userId, reply).info;
            var doc := Candidate(body, info, newId, now);
            && doc.status == [StatusEntry("Request created", now)]
            && doc.userName == Some(info.userName)
            && doc.userEmail == Some(info.email)
            && doc.feedbackStatus == body.feedbackStatus.GetOr("Open")
            && doc.priority == body.priority.GetOr("Low")
            && doc.jiraTicketId == body.jiraTicketId
            && doc.title == body.title.GetOr("")
            && doc.userId == body.userId.GetOr("")
  {
    UserService.LookupKeepsCoherent(c, now, body.userId, reply, now);
    var info := UserService.GetUserInfo(c, now, body.userId, reply).info;
    var p := CreationPatch(body, info);
    assert Get(NewDocument(newId, p, now), StatusKey) == Assigned(p, StatusKey, now);
  }

  /** A create request missing a required field is refused with 400 and
      stores nothing. */
  lemma CreateRequiresFields(w: World, body: Patch, now: Time, newId: Id,
                             reply: Result<UserService.DirectoryReply, string>)
    requires newId !in w.store
    requires !Truthy(body.userId) || !Truthy(body.applicationId) || !Truthy(body.title) || !Truthy(body.description)
    ensures HandleCreate(w, body, now, newId, reply).response.code == 400
    ensures HandleCreate(w, body, now, newId, reply).world.store == w.store
  {
  }

  // ----- GET /api/feedback-requests -----

  /** The query filter: a field is constrained only when its query value is truthy. */
  datatype Filter = Filter(userId: Option<string>, applicationId: Option<string>)

  function BuildFilter(userIdQuery: Option<string>, applicationIdQuery: Option<string>): (f: Filter)
    ensures f.userId.Some? <==> Truthy(userIdQuery)
    ensures f.applicationId.Some? <==> Truthy(applicationIdQuery)
    ensures f.userId.Some? ==> f.userId == userIdQuery
    ensures f.applicationId.Some? ==> f.applicationId == applicationIdQuery
  {
    Filter(if Truthy(userIdQuery) then userIdQuery else None,
           if Truthy(applicationIdQuery) then applicationIdQuery else None)
  }

  /** A document matches when it agrees with every field the filter names. */
  predicate Matches(f: Filter, r: FeedbackRequest)
  {
    && (f.userId.Some? ==> r.userId == f.userId.value)
    && (f.applicationId.Some? ==> r.applicationId == f.applicationId.value)
  }

  ghost function MatchingIds(store: Store, f: Filter): set<Id>
  {
    set id | id in store && Matches(f, store[id])
  }

  /** The matching ids among `done`. */
  ghost function MatchingAmong(store: Store, f: Filter, done: set<Id>): set<Id>
  {
    set id | id in done && id in store && Matches(f, store[id])
  }

  lemma MatchingAmongStep(store: Store, f: Filter, done: set<Id>, id: Id)
    requires id in store && id !in done
    ensures Matches(f, store[id]) ==> MatchingAmong(store, f, done + {id}) == MatchingAmong(store, f, done) + {id}
    ensures !Matches(f, store[id]) ==> MatchingAmong(store, f, done + {id}) == MatchingAmong(store, f, done)
  {
  }

  /** `find(filter)`: every matching document, each stored document at most
      once, in an unspecified (storage) order. */
  method Find(store: Store, f: Filter) returns (rs: seq<FeedbackRequest>)
    ensures forall r :: r in rs <==> r in store.Values && Matches(f, r)
    ensures |rs| == |MatchingIds(store, f)|
  {
    rs := [];
    var todo := store.Keys;
    ghost var done: set<Id> := {};
    while todo != {}
      invariant todo !! done && todo + done == store.Keys
      invariant forall r :: r in rs ==> r in store.Values && Matches(f, r)
      invariant forall id :: id in done && Matches(f, store[id]) ==> store[id] in rs
      invariant |rs| == |MatchingAmong(store, f, done)|
      decreases |todo|
    {
      var id :| id in todo;
      MatchingAmongStep(store, f, done, id);
      if Matches(f, store[id]) {
        rs := rs + [store[id]];
      }
      todo := todo - {id};
      done := done + {id};
    }
    assert MatchingAmong(store, f, done) == MatchingIds(store, f);
    forall r | r in store.Values && Matches(f, r)
      ensures r in rs
    {
      var id :| id in store && store[id] == r;
      assert id in done;
    }
  }

  /** The list handler: 200 with the documents that match every truthy query field. */
  method HandleList(w: World, userIdQuery: Option<string>, applicationIdQuery: Option<string>) returns (r: Response)
    ensures r.code == 200 && r.body.Records?
    ensures forall d :: d in r.body.records <==>
              && d in w.store.Values
              && (Truthy(userIdQuery) ==> d.userId == userIdQuery.value)
              && (Truthy(applicationIdQuery) ==> d.applicationId == applicationIdQuery.value)
  {
    var rs := Find(w.store, BuildFilter(userIdQuery, applicationIdQuery));
    r := Response(200, Records(rs));
  }

  // ----- GET /api/feedback-requests/:id -----

  /** The get handler: the stored document, or 404. */
  function HandleGet(w: World, id: Id): (r: Response)
    ensures id in w.store ==> r == Response(200, Record(w.store[id]))
    ensures id !in w.store ==> r == NotFound
  {
    if id in w.store then Response(200, Record(w.store[id])) else NotFound
  }

  // ----- PUT /api/feedback-requests/:id -----

  /** The update handler: 404 for an unknown id; otherwise the body's keys are
      assigned onto the stored document and the result is saved (200) or
      refused by validation (400, store unchanged). The cache is untouched. */
  function HandleUpdate(w: World, id: Id, body: Patch, now: Time): (s: Served)
    ensures s.world.cache == w.cache
    ensures id !in w.store ==> s == Served(NotFound, w)
    ensures id in w.store ==>
              var doc := Merge(w.store[id], body, now);
              && (s.response.code == 200 <==> Valid(doc))
              && (Valid(doc) ==> s.response.body == Record(doc) && s.world.store == w.store[id := doc])
              && (!Valid(doc) ==> s.response == Response(400, Message(ValidationMessage(Violations(doc))))
                                  && s.world.store == w.store)
    ensures WellFormed(w.store) ==> WellFormed(s.world.store)
  {
    if id !in w.store then Served(NotFound, w)
    else
      var doc := Merge(w.store[id], body, now);
      match Validate(doc)
      case Success(saved) => Served(Response(200, Record(saved)), World(w.store[id := saved], w.cache))
      case Failure(vs) => Served(Response(400, Message(ValidationMessage(vs))), w)
  }

  /** An accepted update changes only the keys the body carries, and only on
      the addressed document. */
  lemma UpdateTouchesOnlyBodyKeys(w: World, id: Id, body: Patch, now: Time)
    requires id in w.store
    requires HandleUpdate(w, id, body, now).response.code == 200
    ensures var after := HandleUpdate(w, id, body, now).world.store;
            && after.Keys == w.store.Keys
            && (forall other :: other in w.store && other != id ==> after[other] == w.store[other])
            && (forall f :: !Present(body, f) ==> Get(after[id], f) == Get(w.store[id], f))
            && after[id].id == w.store[id].id
  {
  }

  // ----- GET /api/user-info/:userId -----

  /** The answer to a user-info request once the lookup has settled: the
      lookup result, or, had the lookup thrown, 500 with the placeholder name. */
  function UserInfoReply(userId: string, lookup: Result<UserService.UserInfo, string>): (r: Response)
    ensures lookup.Success? ==> r == Response(200, UserInfoBody(lookup.value))
    ensures lookup.Failure? ==>
              r.code == 500 && r.body == UserInfoFallback(lookup.error, userId, "User " + userId)
  {
    match lookup
    case Success(info) => Response(200, UserInfoBody(info))
    case Failure(message) => Response(500, UserInfoFallback(message, userId, "User " + userId))
  }

  /** The user-info handler: 400 without an id, otherwise the cached lookup. */
  function HandleUserInfo(w: World, userId: string, now: Time,
                          reply: Result<UserService.DirectoryReply, string>): (s: Served)
    ensures userId == "" ==> s == Served(Response(400, Message("User ID is required")), w)
    ensures userId != "" ==>
              var lookup := UserService.GetUserInfo(w.cache, now, Some(userId), reply);
              s == Served(UserInfoReply(userId, Success(lookup.info)), w.(cache := lookup.cache))
  {
    if userId == "" then Served(Response(400, Message("User ID is required")), w)
    else
      var lookup := UserService.GetUserInfo(w.cache, now, Some(userId), reply);
      Served(UserInfoReply(userId, Success(lookup.info)), w.(cache := lookup.cache))
  }

  /** The lookup never throws, so the 500 fallback is never sent: the handler
      answers 400 or 200, and a directory failure shows up only as a degraded
      200 body carrying the error. */
  lemma UserInfoNeverFails(w: World, userId: string, now: Time, reply: Result<UserService.DirectoryReply, string>)
    ensures HandleUserInfo(w, userId, now, reply).response.code in {200, 400}
    ensures userId != "" && reply.Failure? && Some(userId) !in UserService.Sweep(w.cache, now) ==>
              HandleUserInfo(w, userId, now, reply).response ==
                Response(200, UserInfoBody(UserService.Degraded(Some(userId), reply.error)))
  {
  }
}
