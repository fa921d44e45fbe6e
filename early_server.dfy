/** The earlier request handler of server.py. Its session table and cookie removal work as in
    ComposteServer.py, but it has no project pool: subscribe only records a session,
    unsubscribe is cookie removal, cookie lookup is a bare dictionary access, and `__handle`
    is an if-chain with no exception handling that answers an update with ("?", "?") after
    broadcasting it. */
module EarlyServer {
  import opened Outcomes
  import opened PyCore
  import opened ComposteServer

  /** The state server.py keeps: the session table and the requests broadcast. */
  datatype EarlyState = EarlyState(sessions: Sessions, broadcasts: seq<Rpc>)

  /** `cookie_to_session(cookie)`: `self.sessions[cookie]`. The keys are UUID objects, so a
      cookie is found only as a UUID; a list cannot be hashed. */
  function SessionOf(sessions: Sessions, cookie: Value): (r: Result<Session>)
    ensures r.Ok? <==> cookie.VUuid? && cookie.u in sessions
  {
    if cookie.VList? then Raise(TypeError)
    else if cookie.VUuid? && cookie.u in sessions then Ok(sessions[cookie.u])
    else Raise(KeyError)
  }

  /** A cookie that comes back as its string form is never found: the lookup raises
      KeyError even for a live session. */
  lemma StringCookieNotFound(sessions: Sessions, u: Uuid)
    requires ValidUuid(u) && u in sessions
    ensures SessionOf(sessions, VStr(UuidStr(u))) == Raise(KeyError)
    ensures SessionOf(sessions, VUuid(u)) == Ok(sessions[u])
  {
  }

  /** `subscribe(username, pid)`: a session for a contributor, nothing for anyone else. */
  function EarlySubscribed(sessions: Sessions, username: Value, pid: Value, contributors: seq<Value>, newCookie: Uuid): (Reply, Sessions) {
    if username in contributors then (Reply("ok", VUuid(newCookie)), sessions[newCookie := Session(username, pid)])
    else (Fail("You are not a contributor"), sessions)
  }

  lemma EarlySubscribeCases(sessions: Sessions, username: Value, pid: Value, contributors: seq<Value>, newCookie: Uuid)
    ensures username in contributors ==>
      var (r, after) := EarlySubscribed(sessions, username, pid, contributors, newCookie);
      r == Reply("ok", VUuid(newCookie)) && after.Keys == sessions.Keys + {newCookie} &&
      after[newCookie] == Session(username, pid) &&
      (forall u :: u in sessions && u != newCookie ==> after[u] == sessions[u])
    ensures username !in contributors ==>
      EarlySubscribed(sessions, username, pid, contributors, newCookie) == (Fail("You are not a contributor"), sessions)
  {
  }

  /** `musicWrapper.performMusicFun(*args)` as server.py calls it. Fewer than three or more
      than six arguments is a TypeError; otherwise the fetchProject it calls first is None or
      a decoded JSON value, neither of which can be called, so it raises TypeError too. */
  function PerformWithoutFetch(args: Value): (r: Result<()>)
    ensures r.Raise?
  {
    match Spread(args)
    case Raise(e) => Raise(e)
    case Ok(items) => Raise(TypeError)
  }

  /** `do_update(args)`: any exception reaches `except e:`, where the unbound `e` raises
      NameError. */
  function EarlyUpdate(args: Value): (r: Result<Reply>)
    ensures r == Raise(NameError)
  {
    var out := PerformWithoutFetch(args);
    if out.Raise? then Raise(NameError) else Ok(OkEmpty)
  }

  /** `__handle(_, rpc)`. `db` is the reply (or exception) of a database-backed handler. */
  function EarlyHandled(s: EarlyState, version: Value, rpc: Rpc, db: Result<Reply>,
                        contributors: seq<Value>, newCookie: Uuid): (Result<Reply>, EarlyState) {
    if "fName" !in rpc.fields then (Raise(KeyError), s)
    else
      var f := rpc.fields["fName"];
      if f == VStr("update") then (Ok(Reply("?", VStr("?"))), s.(broadcasts := s.broadcasts + [rpc]))
      else if !(f in {VStr("register"), VStr("login"), VStr("create_project"), VStr("list_projects"),
                      VStr("get_project"), VStr("subscribe"), VStr("unsubscribe"), VStr("handshake")}) then
        (Ok(Fail("Unrecognized command")), s)
      else if "args" !in rpc.fields then (Raise(KeyError), s)
      else match Spread(rpc.fields["args"])
        case Raise(e) => (Raise(e), s)
        case Ok(args) =>
          if f == VStr("subscribe") then
            if |args| != 2 then (Raise(TypeError), s)
            else
              var (r, sessions) := EarlySubscribed(s.sessions, args[0], args[1], contributors, newCookie);
              (Ok(r), s.(sessions := sessions))
          else if f == VStr("unsubscribe") then
            if |args| != 1 then (Raise(TypeError), s)
            else
              var (r, sessions) := RemovedCookie(s.sessions, args[0]);
              (r, s.(sessions := sessions))
          else if f == VStr("handshake") then
            if |args| != 1 then (Raise(TypeError), s) else (Ok(CompareVersions(version, args[0])), s)
          else (db, s)
  }

  /** An update is broadcast every time, whatever follows, and answered ("?", "?") without
      touching the sessions; an unknown name is answered "Unrecognized command"; nothing
      but an update is ever broadcast. */
  lemma EarlyHandleOutcomes(s: EarlyState, version: Value, rpc: Rpc, db: Result<Reply>,
                            contributors: seq<Value>, newCookie: Uuid)
    requires "fName" in rpc.fields
    ensures var (r, t) := EarlyHandled(s, version, rpc, db, contributors, newCookie);
      (rpc.fields["fName"] == VStr("update") ==>
         r == Ok(Reply("?", VStr("?"))) && t == s.(broadcasts := s.broadcasts + [rpc])) &&
      (rpc.fields["fName"] != VStr("update") ==> t.broadcasts == s.broadcasts)
    ensures !(rpc.fields["fName"].VStr? &&
              rpc.fields["fName"].s in ["register", "login", "create_project", "list_projects", "get_project",
                                        "subscribe", "unsubscribe", "update", "handshake"]) ==>
      EarlyHandled(s, version, rpc, db, contributors, newCookie) == (Ok(Fail("Unrecognized command")), s)
  {
  }

  /** unsubscribe is exactly remove_cookie. */
  lemma EarlyUnsubscribeIsRemoveCookie(s: EarlyState, version: Value, cookie: Value, db: Result<Reply>,
                                       contributors: seq<Value>, newCookie: Uuid)
    ensures var rpc := Rpc(map["fName" := VStr("unsubscribe"), "args" := VList([cookie])]);
      EarlyHandled(s, version, rpc, db, contributors, newCookie) ==
      (RemovedCookie(s.sessions, cookie).0, s.(sessions := RemovedCookie(s.sessions, cookie).1))
  {
    var rpc := Rpc(map["fName" := VStr("unsubscribe"), "args" := VList([cookie])]);
    assert rpc.fields["fName"] == VStr("unsubscribe") && rpc.fields["args"] == VList([cookie]);
  }

  class EarlyServer {
    var sessions: Sessions
    ghost var broadcasts: seq<Rpc>
    const version: Value

    ghost function St(): EarlyState
      reads this
    {
      EarlyState(sessions, broadcasts)
    }

    constructor (version: Value)
      ensures St() == EarlyState(map[], []) && this.version == version
    {
      this.version := version;
      sessions := map[];
      broadcasts := [];
    }

    method GenerateCookieFor(user: Value, project: Value, newCookie: Uuid) returns (cookie: Uuid)
      modifies this
      ensures cookie == newCookie
      ensures St() == old(St()).(sessions := old(sessions)[newCookie := Session(user, project)])
    {
      sessions := sessions[newCookie := Session(user, project)];
      cookie := newCookie;
    }

    method CookieToSession(cookie: Value) returns (r: Result<Session>)
      ensures r == SessionOf(sessions, cookie)
    {
      if cookie.VList? {
        return Raise(TypeError);
      }
      if cookie.VUuid? && cookie.u in sessions {
        return Ok(sessions[cookie.u]);
      }
      return Raise(KeyError);
    }

    method RemoveCookie(cookie: Value) returns (r: Result<Reply>)
      modifies this
      ensures (r, sessions) == RemovedCookie(old(sessions), cookie)
      ensures St() == old(St()).(sessions := sessions)
    {
      var u := ParseCookie(cookie);
      if u.Raise? {
        if u.exc == ValueError {
          return Ok(Fail(NotACookieReason));
        }
        return Raise(u.exc);
      }
      if u.value !in sessions {
        return Ok(Fail("Who are you"));
      }
      sessions := sessions - {u.value};
      return Ok(OkEmpty);
    }

    method Subscribe(username: Value, pid: Value, contributors: seq<Value>, newCookie: Uuid) returns (r: Reply)
      modifies this
      ensures (r, sessions) == EarlySubscribed(old(sessions), username, pid, contributors, newCookie)
      ensures St() == old(St()).(sessions := sessions)
    {
      if username in contributors {
        var cookie := GenerateCookieFor(username, pid, newCookie);
        return Reply("ok", VUuid(cookie));
      }
      return Fail("You are not a contributor");
    }

    method Handle(rpc: Rpc, db: Result<Reply>, contributors: seq<Value>, newCookie: Uuid) returns (r: Result<Reply>)
      modifies this
      ensures (r, St()) == EarlyHandled(old(St()), version, rpc, db, contributors, newCookie)
    {
      if "fName" !in rpc.fields {
        return Raise(KeyError);
      }
      var f := rpc.fields["fName"];
      if f == VStr("update") {
        broadcasts := broadcasts + [rpc];
        return Ok(Reply("?", VStr("?")));
      }
      if !(f in {VStr("register"), VStr("login"), VStr("create_project"), VStr("list_projects"),
                 VStr("get_project"), VStr("subscribe"), VStr("unsubscribe"), VStr("handshake")}) {
        return Ok(Fail("Unrecognized command"));
      }
      if "args" !in rpc.fields {
        return Raise(KeyError);
      }
      var args := Spread(rpc.fields["args"]);
      if args.Raise? {
        return Raise(args.exc);
      }
      var a := args.value;
      if f == VStr("subscribe") {
        if |a| != 2 {
          return Raise(TypeError);
        }
        var reply := Subscribe(a[0], a[1], contributors, newCookie);
        return Ok(reply);
      } else if f == VStr("unsubscribe") {
        if |a| != 1 {
          return Raise(TypeError);
        }
        r := RemoveCookie(a[0]);
      } else if f == VStr("handshake") {
        if |a| != 1 {
          return Raise(TypeError);
        }
        return Ok(CompareVersions(version, a[0]));
      } else {
        return db;
      }
    }
  }
}
