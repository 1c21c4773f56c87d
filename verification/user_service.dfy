/** The user-directory lookup (src/services/userService.js): deriving display
    data from a directory reply, and memoising lookups for ten minutes. The
    directory call itself is a parameter: its reply or its error message. */
module UserService {
  import opened Wrappers
  import opened Js
  import Schema

  /** The lifetime of a cache entry: 10 * 60 * 1000 milliseconds. */
  const TTL: nat := 600000

  /** The two fields of a directory reply the lookup reads. */
  datatype DirectoryReply = DirectoryReply(formattedName: Option<string>, officialEmail: Option<string>)

  /** What a lookup yields. `userId` is absent when the caller passed none;
      `error` is present exactly on a degraded result. */
  datatype UserInfo = UserInfo(
    userId: Option<string>,
    userName: string,
    email: string,
    rawData: Option<DirectoryReply>,
    error: Option<string>)

  /** The degraded result returned instead of throwing. */
  function Degraded(userId: Option<string>, message: string): UserInfo
  {
    UserInfo(userId, UserLabel(userId), "", None, Some(message))
  }

  /** Whether `fetchUserInfo` contacts the directory at all: only for a
      truthy user id. */
  predicate ContactsDirectory(userId: Option<string>)
  {
    Truthy(userId)
  }

  /** `fetchUserInfo`: it never throws. A missing id, or a failed directory
      call, gives the degraded result; a reply gives its name (or the
      placeholder when the name is falsy) and its email (or ""). */
  function FetchUserInfo(userId: Option<string>, reply: Result<DirectoryReply, string>): (info: UserInfo)
    ensures info.userId == userId
    ensures info.userName != ""
    ensures info.error.None? <==> ContactsDirectory(userId) && reply.Success?
    ensures !ContactsDirectory(userId) ==> info == Degraded(userId, "User ID is required")
    ensures ContactsDirectory(userId) && reply.Failure? ==> info == Degraded(userId, reply.error)
    ensures ContactsDirectory(userId) && reply.Success? ==>
              && info.userName == Or(reply.value.formattedName, "User " + userId.value)
              && info.email == Or(reply.value.officialEmail, "")
              && info.rawData == Some(reply.value)
  {
    if !Truthy(userId) then Degraded(userId, "User ID is required")
    else
      match reply
      case Failure(message) => Degraded(userId, message)
      case Success(data) =>
        UserInfo(userId, Or(data.formattedName, "User " + userId.value), Or(data.officialEmail, ""), Some(data), None)
  }

  // ----- The cache -----

  /** A cached result and the time it was stored; its expiry timer fires at
      `storedAt + TTL`. */
  datatype Entry = Entry(info: UserInfo, storedAt: Schema.Time)

  /** The process-wide cache, keyed by the id exactly as passed (possibly absent). */
  type Cache = map<Option<string>, Entry>

  predicate Live(e: Entry, now: Schema.Time)
  {
    now < e.storedAt + TTL
  }

  /** The cache as it stands at `now`: every entry whose timer has fired is gone. */
  function Sweep(c: Cache, now: Schema.Time): (live: Cache)
    ensures forall u :: u in live <==> u in c && Live(c[u], now)
    ensures forall u :: u in live ==> live[u] == c[u]
  {
    map u | u in c && Live(c[u], now) :: c[u]
  }

  /** The result of a lookup, the cache after it, and whether it missed (and
      therefore called `fetchUserInfo`). */
  datatype Lookup = Lookup(info: UserInfo, cache: Cache, missed: bool)

  /** `getUserInfo`: a live entry is returned as is, with no fetch; otherwise
      the fetch result, degraded or not, is returned and stored at `now`. */
  function GetUserInfo(c: Cache, now: Schema.Time, userId: Option<string>, reply: Result<DirectoryReply, string>): (r: Lookup)
    ensures var live := Sweep(c, now);
      userId in live ==> r == Lookup(live[userId].info, live, false)
    ensures var live := Sweep(c, now);
      userId !in live ==>
        && r.missed
        && r.info == FetchUserInfo(userId, reply)
        && r.cache == live[userId := Entry(r.info, now)]
  {
    var live := Sweep(c, now);
    if userId in live then Lookup(live[userId].info, live, false)
    else
      var info := FetchUserInfo(userId, reply);
      Lookup(info, live[userId := Entry(info, now)], true)
  }

  /** Every cached result belongs to the id it is stored under, carries a
      non-empty name, and was stored no later than `now`. */
  predicate Coherent(c: Cache, now: Schema.Time)
  {
    forall u :: u in c ==> c[u].info.userId == u && c[u].info.userName != "" && c[u].storedAt <= now
  }

  /** A lookup keeps the cache coherent as the clock moves forward. */
  lemma LookupKeepsCoherent(c: Cache, t: Schema.Time, u: Option<string>, reply: Result<DirectoryReply, string>, t': Schema.Time)
    requires Coherent(c, t) && t <= t'
    ensures Coherent(GetUserInfo(c, t, u, reply).cache, t')
    ensures GetUserInfo(c, t, u, reply).info.userId == u
    ensures GetUserInfo(c, t, u, reply).info.userName != ""
  {
  }

  /** Two lookups of one id inside the window `[t1, t1 + TTL)` fetch at most
      once: when the first one fetched, the second does not, whatever the
      directory would now reply, and returns the same result. */
  lemma NoRefetchWithinTtl(c: Cache, t1: Schema.Time, t2: Schema.Time, u: Option<string>,
                           reply1: Result<DirectoryReply, string>, reply2: Result<DirectoryReply, string>)
    requires t1 <= t2 < t1 + TTL
    ensures var first := GetUserInfo(c, t1, u, reply1);
            var second := GetUserInfo(first.cache, t2, u, reply2);
            first.missed ==> !second.missed && second.info == first.info
  {
    var first := GetUserInfo(c, t1, u, reply1);
    if first.missed {
      assert first.cache[u] == Entry(first.info, t1);
      assert u in Sweep(first.cache, t2);
    }
  }

  /** A hit returns the stored result, with no fetch, as long as the stored
      entry is younger than the TTL. */
  lemma HitWhileLive(c: Cache, t: Schema.Time, u: Option<string>, reply: Result<DirectoryReply, string>)
    requires u in c && t < c[u].storedAt + TTL
    ensures GetUserInfo(c, t, u, reply) == Lookup(c[u].info, Sweep(c, t), false)
  {
  }

  /** Once an entry's timer has fired, the next lookup fetches again and its
      result is the new fetch, not the old entry. */
  lemma RefetchAfterTtl(c: Cache, t: Schema.Time, u: Option<string>, reply: Result<DirectoryReply, string>)
    requires u in c && t >= c[u].storedAt + TTL
    ensures GetUserInfo(c, t, u, reply).missed
    ensures GetUserInfo(c, t, u, reply).info == FetchUserInfo(u, reply)
  {
  }

  /** A failed directory call is cached like a success: for the whole window,
      later lookups return the degraded result even if the directory has
      recovered. */
  lemma FailureIsCached(c: Cache, t1: Schema.Time, t2: Schema.Time, u: string, message: string, reply2: Result<DirectoryReply, string>)
    requires Some(u) !in Sweep(c, t1) && u != ""
    requires t1 <= t2 < t1 + TTL
    ensures var first := GetUserInfo(c, t1, Some(u), Failure(message));
            var second := GetUserInfo(first.cache, t2, Some(u), reply2);
            second.info == Degraded(Some(u), message) && !second.missed
  {
    NoRefetchWithinTtl(c, t1, t2, Some(u), Failure(message), reply2);
  }
}
