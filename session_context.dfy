/**
 * The client-side session cache of the web application
 * (src/context/SessionContext.jsx): the signed-in user, the token kept in
 * local storage and the list of sessions, updated from the server's replies.
 * Each HTTP reply is an input to the operation that awaits it.
 */
module SessionContext {
  import opened Wrappers
  import opened SessionData

  /** A server reply: a 2xx status with its record, or an error status with its message. */
  datatype ServerReply<T> = Accepted(record: T) | Rejected(message: string)

  /** What signup and login read from a successful reply. */
  datatype Credentials = Credentials(token: string, name: string, email: string, userId: string)

  datatype User = User(name: string, email: string, userId: string)

  /** `sessions.filter(s => (s._id || s.id) !== sessionId)`. */
  function RemoveId(sessions: seq<Session>, sessionId: string): (r: seq<Session>)
    ensures |r| <= |sessions|
    ensures forall s :: s in r <==> s in sessions && IdOf(s) != Some(sessionId)
  {
    if sessions == [] then []
    else
      var rest := RemoveId(sessions[..|sessions| - 1], sessionId);
      var last := sessions[|sessions| - 1];
      assert sessions == sessions[..|sessions| - 1] + [last];
      if IdOf(last) == Some(sessionId) then rest else rest + [last]
  }

  /** Filtering distributes over concatenation, so the kept sessions stay in their order. */
  lemma {:induction false} RemoveIdAppend(a: seq<Session>, b: seq<Session>, sessionId: string)
    decreases |b|
    ensures RemoveId(a + b, sessionId) == RemoveId(a, sessionId) + RemoveId(b, sessionId)
  {
    if b == [] {
      assert a + b == a;
    } else {
      var b' := b[..|b| - 1];
      assert (a + b)[..|a + b| - 1] == a + b';
      assert (a + b)[|a + b| - 1] == b[|b| - 1];
      RemoveIdAppend(a, b', sessionId);
    }
  }

  /** Deleting an id twice is the same as deleting it once. */
  lemma {:induction false} RemoveIdIdempotent(sessions: seq<Session>, sessionId: string)
    decreases |sessions|
    ensures RemoveId(RemoveId(sessions, sessionId), sessionId) == RemoveId(sessions, sessionId)
  {
    if sessions != [] {
      var init := sessions[..|sessions| - 1];
      var last := sessions[|sessions| - 1];
      RemoveIdIdempotent(init, sessionId);
      if IdOf(last) != Some(sessionId) {
        RemoveIdAppend(RemoveId(init, sessionId), [last], sessionId);
        assert RemoveId([last], sessionId) == RemoveId([], sessionId) + [last];
      }
    }
  }

  /** Deleting the id of a session just added removes it again, and nothing else changes. */
  lemma AddThenRemove(record: Session, sessions: seq<Session>, sessionId: string)
    requires IdOf(record) == Some(sessionId)
    ensures RemoveId([record] + sessions, sessionId) == RemoveId(sessions, sessionId)
  {
    RemoveIdAppend([record], sessions, sessionId);
    assert RemoveId([record], sessionId) == RemoveId([], sessionId);
  }

  /** The provider's state: `token` is the value in local storage. */
  class SessionStore {
    var sessions: seq<Session>
    var user: Option<User>
    var loading: bool
    var token: Option<string>

    constructor(stored: Option<string>)
      ensures sessions == [] && user == None && !loading && token == stored
    {
      sessions := [];
      user := None;
      loading := false;
      token := stored;
    }

    /** `if (!token)`: a missing or empty token is falsy. */
    predicate HasToken()
      reads this
    {
      token.Some? && token.value != []
    }

    /** `logout`: forget the token, the user and the cached sessions. */
    method Logout()
      modifies this
      ensures token == None && user == None && sessions == []
      ensures loading == old(loading)
    {
      token := None;
      user := None;
      sessions := [];
    }

    /** `fetchSessions`: with a token, replace the list on success and log out on failure. */
    method FetchSessions(reply: ServerReply<seq<Session>>)
      modifies this
      ensures !old(HasToken()) ==>
        sessions == old(sessions) && user == old(user) && token == old(token) && loading == old(loading)
      ensures old(HasToken()) ==> !loading
      ensures old(HasToken()) && reply.Accepted? ==>
        sessions == reply.record && user == old(user) && token == old(token)
      ensures old(HasToken()) && reply.Rejected? ==> token == None && user == None && sessions == []
    {
      if !HasToken() {
        return;
      }
      loading := true;
      if reply.Accepted? {
        sessions := reply.record;
      } else {
        Logout();
      }
      loading := false;
    }

    /** `signup` and `login` share this success path: store the token, set the user, then refetch. The result is `ok`; the data returned is `reply` itself. */
    method SignIn(reply: ServerReply<Credentials>, fetched: ServerReply<seq<Session>>) returns (ok: bool)
      modifies this
      ensures ok <==> reply.Accepted?
      ensures !ok ==>
        sessions == old(sessions) && user == old(user) && token == old(token) && loading == old(loading)
      ensures ok && (reply.record.token == [] || fetched.Accepted?) ==>
        token == Some(reply.record.token)
        && user == Some(User(reply.record.name, reply.record.email, reply.record.userId))
      ensures ok && reply.record.token != [] ==>
        !loading && (if fetched.Accepted? then sessions == fetched.record else token == None && user == None && sessions == [])
      ensures ok && reply.record.token == [] ==> sessions == old(sessions)
    {
      ok := reply.Accepted?;
      if ok {
        token := Some(reply.record.token);
        user := Some(User(reply.record.name, reply.record.email, reply.record.userId));
        FetchSessions(fetched);
      }
    }

    /** `addSession`: without a token it throws; on success the returned record is put first. */
    method AddSession(sessionObj: Session, reply: ServerReply<Session>) returns (r: Result<bool, string>)
      modifies this
      ensures user == old(user) && token == old(token) && loading == old(loading)
      ensures !old(HasToken()) ==> r == Err("Not authenticated") && sessions == old(sessions)
      ensures old(HasToken()) ==> r == Ok(reply.Accepted?)
      ensures old(HasToken()) && reply.Accepted? ==> sessions == [reply.record] + old(sessions)
      ensures reply.Rejected? ==> sessions == old(sessions)
    {
      if !HasToken() {
        return Err("Not authenticated");
      }
      if reply.Accepted? {
        sessions := [reply.record] + sessions;
        return Ok(true);
      }
      return Ok(false);
    }

    /** `deleteSession`: without a token it throws; on success every session with that id is dropped. */
    method DeleteSession(sessionId: string, reply: ServerReply<()>) returns (r: Result<bool, string>)
      modifies this
      ensures user == old(user) && token == old(token) && loading == old(loading)
      ensures !old(HasToken()) ==> r == Err("Not authenticated") && sessions == old(sessions)
      ensures old(HasToken()) ==> r == Ok(reply.Accepted?)
      ensures old(HasToken()) && reply.Accepted? ==> sessions == RemoveId(old(sessions), sessionId)
      ensures reply.Rejected? ==> sessions == old(sessions)
    {
      if !HasToken() {
        return Err("Not authenticated");
      }
      if reply.Accepted? {
        sessions := RemoveId(sessions, sessionId);
        return Ok(true);
      }
      return Ok(false);
    }
  }
}
