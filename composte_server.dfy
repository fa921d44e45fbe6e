/** The request side of ComposteServer.py: the session table of subscription cookies, the
    project pool the subscriptions pin, the `update` path into the edit dispatcher, and the
    `__handle` dispatcher that maps exceptions to failure replies and broadcasts successful
    updates. The databases, the file system and the network are parameters: `World` holds
    what they answer for one request. */
module ComposteServer {
  import opened Outcomes
  import opened PyCore
  import opened Bookkeeping
  import MusicWrapper

  /** `(user, project)` as a session stores it. */
  datatype Session = Session(user: Value, project: Value)

  /** What the pool holds for a project id: `get_project(pid)[1]`, a project read back, or
      the reason string "Project not found" when the database does not know the id. */
  datatype Pooled = Loaded(projectID: Uuid, partCount: nat) | NotFound

  /** A reply tuple `(status, other)`. */
  datatype Reply = Reply(status: string, other: Value)

  function Fail(reason: string): Reply {
    Reply("fail", VStr(reason))
  }

  const OkEmpty: Reply := Reply("ok", VStr(""))

  const NotACookieReason: string := "That doesn't look like a cookie"

  type Sessions = map<Uuid, Session>
  type ProjectPool = map<Value, Entry<Pooled>>

  /** A request as the network layer hands it over: a decoded JSON object. */
  datatype Rpc = Rpc(fields: map<string, Value>)

  /** The server's state: the session table, the project pool, the projects written back
      (`write_project`) and the requests broadcast, in order. */
  datatype State = State(sessions: Sessions, pool: ProjectPool, written: seq<Pooled>, broadcasts: seq<Rpc>)

  /** What the outside world answers for one request: the reply of a database-backed
      handler, the contributors of the project, what reading the project yields, a fresh
      UUID, the decoded edit arguments and the outcome of the music function. */
  datatype World = World(
    db: Result<Reply>,
    contributors: seq<Value>,
    loaded: Pooled,
    newCookie: Uuid,
    decoded: Result<Value>,
    run: MusicWrapper.MusicCall -> Result<Value>)

  // ---------------------------------------------------------------------------
  // Cookies
  // ---------------------------------------------------------------------------

  /** `uuid.UUID(cookie)`: a string must spell a UUID (else ValueError); None is a TypeError
      and any other value has no `replace` (AttributeError). */
  function ParseCookie(cookie: Value): (r: Result<Uuid>)
    ensures r.Ok? ==> ValidUuid(r.value)
    ensures r == Raise(ValueError) <==> cookie.VStr? && ParseUuid(cookie.s).None?
  {
    match cookie
    case VStr(s) => (match ParseUuid(s) case Some(u) => Ok(u) case None => Raise(ValueError))
    case VNone => Raise(TypeError)
    case _ => Raise(AttributeError)
  }

  /** What `cookie_to_session` returns: the not-a-cookie failure, None, or the session. */
  datatype Lookup = NotACookie | NoSession | Found(session: Session)

  function LookupCookie(sessions: Sessions, cookie: Value): Result<Lookup> {
    match ParseCookie(cookie)
    case Raise(e) => if e == ValueError then Ok(NotACookie) else Raise(e)
    case Ok(u) => if u in sessions then Ok(Found(sessions[u])) else Ok(NoSession)
  }

  /** `remove_cookie(cookie)`: the reply and the session table it leaves. */
  function RemovedCookie(sessions: Sessions, cookie: Value): (Result<Reply>, Sessions) {
    match ParseCookie(cookie)
    case Raise(e) => if e == ValueError then (Ok(Fail(NotACookieReason)), sessions) else (Raise(e), sessions)
    case Ok(u) => if u in sessions then (Ok(OkEmpty), sessions - {u}) else (Ok(Fail("Who are you")), sessions)
  }

  /** A cookie the lookup calls malformed is left alone by remove_cookie, and one the lookup
      finds is removed with an ok reply. */
  lemma LookupThenRemove(sessions: Sessions, cookie: Value)
    ensures LookupCookie(sessions, cookie) == Ok(NotACookie) ==>
      RemovedCookie(sessions, cookie) == (Ok(Fail(NotACookieReason)), sessions)
    ensures LookupCookie(sessions, cookie).Ok? && LookupCookie(sessions, cookie).value.Found? ==>
      RemovedCookie(sessions, cookie) == (Ok(OkEmpty), sessions - {ParseCookie(cookie).value})
  {
  }

  /** The lookup's three outcomes on strings: not a UUID, a UUID without a session, and a
      UUID with one, which comes back as stored. */
  lemma LookupCookieCases(sessions: Sessions, s: string)
    ensures ParseUuid(s).None? ==> LookupCookie(sessions, VStr(s)) == Ok(NotACookie)
    ensures ParseUuid(s).Some? && ParseUuid(s).value !in sessions ==> LookupCookie(sessions, VStr(s)) == Ok(NoSession)
    ensures ParseUuid(s).Some? && ParseUuid(s).value in sessions ==>
      LookupCookie(sessions, VStr(s)) == Ok(Found(sessions[ParseUuid(s).value]))
  {
  }

  /** remove_cookie fails on a malformed cookie and on an unknown one, changing nothing;
      a known cookie is deleted, with every other session kept; and removing it a second
      time is answered "Who are you". */
  lemma RemoveCookieCases(sessions: Sessions, cookie: Value)
    ensures cookie.VStr? && ParseUuid(cookie.s).None? ==> RemovedCookie(sessions, cookie) == (Ok(Fail(NotACookieReason)), sessions)
    ensures ParseCookie(cookie).Ok? && ParseCookie(cookie).value !in sessions ==>
      RemovedCookie(sessions, cookie) == (Ok(Fail("Who are you")), sessions)
    ensures ParseCookie(cookie).Ok? && ParseCookie(cookie).value in sessions ==>
      var (r, after) := RemovedCookie(sessions, cookie);
      r == Ok(OkEmpty) && after.Keys == sessions.Keys - {ParseCookie(cookie).value} &&
      (forall u :: u in after ==> after[u] == sessions[u]) &&
      RemovedCookie(after, cookie) == (Ok(Fail("Who are you")), after)
  {
  }

  /** A cookie handed out by generate_cookie_for, sent back in its printed form, finds its
      session; removing it then restores the table that was there before. */
  lemma CookieRoundTrip(sessions: Sessions, cookie: Uuid, s: Session)
    requires ValidUuid(cookie) && cookie !in sessions
    ensures LookupCookie(sessions[cookie := s], VStr(UuidStr(cookie))) == Ok(Found(s))
    ensures RemovedCookie(sessions[cookie := s], VStr(UuidStr(cookie))) == (Ok(OkEmpty), sessions)
  {
    CookieParses(cookie);
    assert sessions[cookie := s] - {cookie} == sessions;
  }

  lemma CookieParses(cookie: Uuid)
    requires ValidUuid(cookie)
    ensures ParseCookie(VStr(UuidStr(cookie))) == Ok(cookie)
  {
    UuidRoundTrip(cookie);
  }

  // ---------------------------------------------------------------------------
  // Subscriptions
  // ---------------------------------------------------------------------------

  /** `subscribe(username, pid)`: a contributor pins the project with one checkout and gets
      a new session under the fresh cookie. */
  function Subscribed(s: State, username: Value, pid: Value, w: World): (Result<Reply>, State) {
    if username in w.contributors then
      (Ok(Reply("ok", VUuid(w.newCookie))),
       s.(pool := Checkout(s.pool, pid, w.loaded), sessions := s.sessions[w.newCookie := Session(username, pid)]))
    else (Ok(Fail("You are not a contributor")), s)
  }

  lemma SubscribeCases(s: State, username: Value, pid: Value, w: World)
    ensures username !in w.contributors ==> Subscribed(s, username, pid, w) == (Ok(Fail("You are not a contributor")), s)
    ensures username in w.contributors ==>
      var (r, t) := Subscribed(s, username, pid, w);
      r == Ok(Reply("ok", VUuid(w.newCookie))) &&
      t.sessions == s.sessions[w.newCookie := Session(username, pid)] &&
      pid in t.pool && t.pool[pid].count == (if pid in s.pool then s.pool[pid].count + 1 else 1) &&
      (forall k :: k in s.pool && k != pid ==> k in t.pool && t.pool[k] == s.pool[k]) &&
      t.written == s.written && t.broadcasts == s.broadcasts
  {
  }

  /** `unsubscribe(cookie)`. After the session is removed the project is checked out again
      under the session's project id with a one-argument constructor (a miss raises
      TypeError), and released under the project object's `projectID`, with write_project
      run when that release is the last one. The two keys are not the same kind of value. */
  function Unsubscribed(s: State, cookie: Value): (Result<Reply>, State) {
    match LookupCookie(s.sessions, cookie)
    case Raise(e) => (Raise(e), s)
    case Ok(NoSession) => (Ok(Fail("You are not subscribed")), s)
    case Ok(NotACookie) => (RemovedCookie(s.sessions, cookie).0, s)
    case Ok(Found(session)) =>
      var (reply, sessions) := RemovedCookie(s.sessions, cookie);
      if reply != Ok(OkEmpty) then (reply, s.(sessions := sessions))
      else Unpinned(s.(sessions := sessions), session.project)
  }

  /** The pool part of unsubscribe: `put(project_id, lambda x: ...)`, then `.projectID`,
      then `remove(pid, write_project)`. */
  function Unpinned(s: State, key: Value): (Result<Reply>, State) {
    if key !in s.pool then (Raise(TypeError), s)
    else
      var obj := s.pool[key].obj;
      var s1 := s.(pool := Checkout(s.pool, key, obj));
      if obj.NotFound? then (Raise(AttributeError), s1)
      else (Ok(OkEmpty), ReleasedWith(s1, VUuid(obj.projectID)))
  }

  /** `remove(pid, write_project)`: one release, writing the project back when it was the
      last checkout. */
  function ReleasedWith(s: State, pid: Value): State {
    var last := pid in s.pool && s.pool[pid].count == 1;
    s.(pool := Release(s.pool, pid), written := s.written + (if last then [s.pool[pid].obj] else []))
  }

  /** Keys the pool holds when every checkout came from subscribe: the string project ids. */
  predicate StringKeys(pool: ProjectPool) {
    forall k :: k in pool ==> k.VStr?
  }

  /** unsubscribe of a cookie without a session, or of a malformed one, changes nothing. */
  lemma UnsubscribeRefused(s: State, cookie: Value)
    requires ParseCookie(cookie) == Raise(ValueError) || (ParseCookie(cookie).Ok? && ParseCookie(cookie).value !in s.sessions)
    ensures Unsubscribed(s, cookie).1 == s
    ensures ParseCookie(cookie).Ok? ==> Unsubscribed(s, cookie).0 == Ok(Fail("You are not subscribed"))
    ensures ParseCookie(cookie).Raise? ==> Unsubscribed(s, cookie).0 == Ok(Fail(NotACookieReason))
  {
  }

  /** unsubscribe of a known cookie whose project is pinned removes the session and replies
      ok, but its release is keyed by the UUID object while the pin is keyed by the string
      id: the count under the string id goes up by one instead of down, and nothing is
      written back. */
  lemma UnsubscribeLeaksPin(s: State, cookie: Value)
    requires ParseCookie(cookie).Ok? && ParseCookie(cookie).value in s.sessions
    requires s.sessions[ParseCookie(cookie).value].project in s.pool
    requires s.pool[s.sessions[ParseCookie(cookie).value].project].obj.Loaded?
    requires StringKeys(s.pool)
    ensures var key := s.sessions[ParseCookie(cookie).value].project;
      var (r, t) := Unsubscribed(s, cookie);
      r == Ok(OkEmpty) && t.sessions == s.sessions - {ParseCookie(cookie).value} &&
      t.pool == s.pool[key := Entry(s.pool[key].obj, s.pool[key].count + 1)] &&
      t.written == s.written
  {
    var u := ParseCookie(cookie).value;
    var session := s.sessions[u];
    assert LookupCookie(s.sessions, cookie) == Ok(Found(session));
    assert RemovedCookie(s.sessions, cookie) == (Ok(OkEmpty), s.sessions - {u});
    var s1 := s.(sessions := s.sessions - {u});
    UnsubscribedFound(s, cookie, session, s.sessions - {u});
    UnpinnedLeaks(s1, session.project);
  }

  /** unsubscribe of a cookie whose session is found and removed goes on to the pool. */
  lemma UnsubscribedFound(s: State, cookie: Value, session: Session, sessions: Sessions)
    requires LookupCookie(s.sessions, cookie) == Ok(Found(session))
    requires RemovedCookie(s.sessions, cookie) == (Ok(OkEmpty), sessions)
    ensures Unsubscribed(s, cookie) == Unpinned(s.(sessions := sessions), session.project)
  {
  }

  /** The pool part of unsubscribe on a pinned string key: the checkout raises the count,
      and the release under the UUID key misses. */
  lemma UnpinnedLeaks(s: State, key: Value)
    requires key in s.pool && s.pool[key].obj.Loaded? && StringKeys(s.pool)
    ensures Unpinned(s, key) == (Ok(OkEmpty), s.(pool := s.pool[key := Entry(s.pool[key].obj, s.pool[key].count + 1)]))
  {
    var obj := s.pool[key].obj;
    var pool := Checkout(s.pool, key, obj);
    assert pool == s.pool[key := Entry(obj, s.pool[key].count + 1)];
    var pid := VUuid(obj.projectID);
    assert pid !in pool;
    assert Release(pool, pid) == pool;
    var s1 := s.(pool := pool);
    assert s1.written + [] == s.written;
    assert ReleasedWith(s1, pid) == s1;
  }

  /** unsubscribe of a known cookie whose project is not pinned removes the session and
      then raises TypeError, leaving the pool alone. */
  lemma UnsubscribeUnpinned(s: State, cookie: Value)
    requires ParseCookie(cookie).Ok? && ParseCookie(cookie).value in s.sessions
    requires s.sessions[ParseCookie(cookie).value].project !in s.pool
    ensures Unsubscribed(s, cookie) == (Raise(TypeError), s.(sessions := s.sessions - {ParseCookie(cookie).value}))
  {
  }

  // ---------------------------------------------------------------------------
  // Updates
  // ---------------------------------------------------------------------------

  /** `*args`: a list spreads into its items and a string into its characters; anything
      else is not iterable. */
  function Spread(v: Value): (r: Result<seq<Value>>)
    ensures v.VList? ==> r == Ok(v.items)
    ensures v.VStr? ==> r.Ok? && |r.value| == |v.s|
  {
    match v
    case VList(items) => Ok(items)
    case VStr(s) => Ok(seq(|s|, i requires 0 <= i < |s| => VStr([s[i]])))
    case _ => Raise(TypeError)
  }

  /** How the util dispatcher sees a pooled object, whose first step reads `project.parts`.
      A ComposteProject keeps its parts under `score` and has no `parts` of its own, and the
      string "Project not found" has none either, so as written (`viaScore` false) every
      object is seen without parts. With `viaScore` the dispatcher reads
      `project.score.parts`, as evidently intended. */
  function PartsOf(obj: Pooled, viaScore: bool): (r: MusicWrapper.Fetched)
    ensures r.WithParts? <==> viaScore && obj.Loaded?
    ensures r.WithParts? ==> r.partCount == obj.partCount
  {
    if viaScore && obj.Loaded? then MusicWrapper.WithParts(obj.partCount) else MusicWrapper.WithoutParts
  }

  /** The project get_fun hands to the dispatcher: the pooled object on a hit, else what
      reading it yields. */
  function Fetched(pool: ProjectPool, pid: Value, loaded: Pooled, viaScore: bool): MusicWrapper.Fetched {
    PartsOf(if pid in pool then pool[pid].obj else loaded, viaScore)
  }

  /** A string operation name; any other value matches no entry of the table. */
  function NameOf(v: Value): string {
    if v.VStr? then v.s else ""
  }

  function ToReply(r: MusicWrapper.Reply<Value>): Reply {
    match r
    case Failed(reason) => Fail(reason)
    case OkEmpty => OkEmpty
    case OkWith(v) => Reply("ok", v)
  }

  /** `do_update(args)`: `performMusicFun(*args, fetchProject = get_fun)` of the util
      dispatcher, with the object seen through PartsOf. Every exception on the way reaches
      `except e:`, whose name is unbound, so it leaves as NameError. */
  function UpdateReply(pool: ProjectPool, args: Value, w: World, viaScore: bool): (r: Result<Reply>)
    ensures r.Raise? ==> r.exc == NameError
  {
    match Spread(args)
    case Raise(_) => Raise(NameError)
    case Ok(items) =>
      if |items| < 3 || |items| > 5 then Raise(NameError)
      else
        var partIndex := if |items| > 3 then items[3] else VNone;
        var offset := if |items| > 4 then items[4] else VNone;
        var fetched := Fetched(pool, items[0], w.loaded, viaScore);
        match MusicWrapper.PerformMusicFun(Ok(fetched), w.decoded, NameOf(items[1]), partIndex, offset, w.run).0
        case Raise(_) => Raise(NameError)
        case Ok(reply) => Ok(ToReply(reply))
  }

  // ---------------------------------------------------------------------------
  // Dispatch
  // ---------------------------------------------------------------------------

  datatype Handler =
    | Register | Login | CreateProject | ListProjects | GetProject
    | Subscribe | Unsubscribe | Update | Handshake | Share

  /** The ten-entry `rpc_funs` table. */
  function HandlerOf(f: Value): Option<Handler> {
    if f == VStr("register") then Some(Register)
    else if f == VStr("login") then Some(Login)
    else if f == VStr("create_project") then Some(CreateProject)
    else if f == VStr("list_projects") then Some(ListProjects)
    else if f == VStr("get_project") then Some(GetProject)
    else if f == VStr("subscribe") then Some(Subscribe)
    else if f == VStr("unsubscribe") then Some(Unsubscribe)
    else if f == VStr("update") then Some(Update)
    else if f == VStr("handshake") then Some(Handshake)
    else if f == VStr("share") then Some(Share)
    else None
  }

  /** The number of positional arguments each handler takes. */
  function Arity(h: Handler): nat {
    match h
    case Register => 3
    case Login => 2
    case CreateProject => 3
    case ListProjects => 1
    case GetProject => 1
    case Subscribe => 2
    case Unsubscribe => 1
    case Update => 1
    case Handshake => 1
    case Share => 2
  }

  /** `compare_versions(client_version)`: the server's version is whatever the version
      lookup produced, printed with `str.format` in the failure. */
  function CompareVersions(version: Value, client: Value): (r: Reply)
    ensures r == OkEmpty <==> client == version
    ensures r.status == "fail" <==> client != version
  {
    if client != version then Fail("Mismatched versions. This server uses version " + PyStr(version))
    else OkEmpty
  }

  /** One handler applied to its arguments. */
  function Call(h: Handler, args: seq<Value>, s: State, version: Value, w: World): (Result<Reply>, State)
    requires |args| == Arity(h)
  {
    match h
    case Subscribe => Subscribed(s, args[0], args[1], w)
    case Unsubscribe => Unsubscribed(s, args[0])
    case Update => (UpdateReply(s.pool, args[0], w, false), s)
    case Handshake => (Ok(CompareVersions(version, args[0])), s)
    case _ => (w.db, s)
  }

  /** The reply for an exception out of a handler. */
  function ErrorReply(e: Exc): Reply {
    if e == GenericError then Fail("Internal server error") else Fail("Internal server error (Developer error)")
  }

  /** The call inside `__handle`'s try block: `do_rpc(*rpc["args"])`. */
  function Dispatched(s: State, version: Value, f: Value, rpc: Rpc, w: World): (Result<Reply>, State) {
    if "args" !in rpc.fields then (Raise(KeyError), s)
    else match Spread(rpc.fields["args"])
      case Raise(e) => (Raise(e), s)
      case Ok(args) =>
        match HandlerOf(f)
        case None => (Ok(Fail("I don't know what you want me to do")), s)
        case Some(h) => if |args| != Arity(h) then (Raise(TypeError), s) else Call(h, args, s, version, w)
  }

  /** The handler's outcome mapped to a reply, broadcasting the request iff it was a
      successful update. */
  function Answered(f: Value, rpc: Rpc, out: Result<Reply>, t: State): (Result<Reply>, State) {
    var reply := if out.Raise? then ErrorReply(out.exc) else out.value;
    var broadcast := f == VStr("update") && reply.status == "ok";
    (Ok(reply), t.(broadcasts := t.broadcasts + (if broadcast then [rpc] else [])))
  }

  /** `__handle(_, rpc)`: the reply or the exception it lets escape, and the state after. */
  function Handled(s: State, version: Value, rpc: Rpc, w: World): (Result<Reply>, State) {
    if "fName" !in rpc.fields then (Raise(KeyError), s)
    else
      var f := rpc.fields["fName"];
      if f.VList? then (Raise(TypeError), s)
      else
        var (out, t) := Dispatched(s, version, f, rpc, w);
        Answered(f, rpc, out, t)
  }

  /** A handler's outcome always becomes a reply: an exception becomes one of the two
      internal-error replies, by whether it is GenericError; a reply passes unchanged; and
      the request is broadcast once exactly when it is an update answered "ok", the state
      being otherwise the handler's. */
  lemma AnsweredFacts(f: Value, rpc: Rpc, out: Result<Reply>, t: State)
    ensures var (r, u) := Answered(f, rpc, out, t);
      r.Ok? &&
      (out.Ok? ==> r.value == out.value) &&
      (out == Raise(GenericError) ==> r.value == Fail("Internal server error")) &&
      (out.Raise? && out.exc != GenericError ==> r.value == Fail("Internal server error (Developer error)")) &&
      u.(broadcasts := t.broadcasts) == t &&
      (f == VStr("update") && r.value.status == "ok" ==> u.broadcasts == t.broadcasts + [rpc]) &&
      (!(f == VStr("update") && r.value.status == "ok") ==> u.broadcasts == t.broadcasts)
  {
  }

  /** A name outside the table is answered with the fixed failure and changes nothing, as
      long as the arguments spread; a request without arguments is a developer error. */
  lemma DispatchRefusals(s: State, version: Value, f: Value, rpc: Rpc, w: World)
    ensures "args" in rpc.fields && Spread(rpc.fields["args"]).Ok? && HandlerOf(f).None? ==>
      Dispatched(s, version, f, rpc, w) == (Ok(Fail("I don't know what you want me to do")), s)
    ensures "args" !in rpc.fields ==> Dispatched(s, version, f, rpc, w) == (Raise(KeyError), s)
    ensures "args" in rpc.fields && Spread(rpc.fields["args"]).Ok? && HandlerOf(f).Some? &&
            |Spread(rpc.fields["args"]).value| != Arity(HandlerOf(f).value) ==>
      Dispatched(s, version, f, rpc, w) == (Raise(TypeError), s)
  {
  }

  /** A database handler's exception is answered with the internal-error reply it maps to,
      and nothing is broadcast or changed. */
  lemma HandleErrors(s: State, version: Value, f: string, args: seq<Value>, w: World)
    requires HandlerOf(VStr(f)).Some? && |args| == Arity(HandlerOf(VStr(f)).value)
    requires HandlerOf(VStr(f)).value in {Register, Login, CreateProject, ListProjects, GetProject, Share}
    requires w.db.Raise?
    ensures Handled(s, version, Rpc(map["fName" := VStr(f), "args" := VList(args)]), w) == (Ok(ErrorReply(w.db.exc)), s)
  {
    var rpc := Rpc(map["fName" := VStr(f), "args" := VList(args)]);
    assert rpc.fields["fName"] == VStr(f) && rpc.fields["args"] == VList(args);
    assert Spread(VList(args)) == Ok(args);
    var h := HandlerOf(VStr(f)).value;
    assert Call(h, args, s, version, w) == (w.db, s);
    assert Dispatched(s, version, VStr(f), rpc, w) == (w.db, s);
    assert Handled(s, version, rpc, w) == Answered(VStr(f), rpc, w.db, s);
    assert ErrorReply(w.db.exc).status == "fail";
    assert s.broadcasts + [] == s.broadcasts;
  }

  /** As written every update raises NameError: either its arguments do not spread into
      three to five items, or the dispatcher meets an object without `parts`. */
  lemma UpdateAsWrittenRaises(pool: ProjectPool, args: Value, w: World)
    ensures UpdateReply(pool, args, w, false) == Raise(NameError)
  {
    match Spread(args)
    case Raise(_) =>
    case Ok(items) =>
      if 3 <= |items| <= 5 {
        var partIndex := if |items| > 3 then items[3] else VNone;
        var offset := if |items| > 4 then items[4] else VNone;
        assert Fetched(pool, items[0], w.loaded, false) == MusicWrapper.WithoutParts;
        MusicWrapper.NoPartsRaises(w.decoded, NameOf(items[1]), partIndex, offset, w.run);
      }
  }

  /** Every update request is answered with the developer-error reply and changes nothing,
      so it is never broadcast: a missing or unspreadable argument list and a wrong count
      raise KeyError or TypeError, and a well-formed one raises NameError. */
  lemma UpdateAlwaysDeveloperError(s: State, version: Value, rpc: Rpc, w: World)
    requires "fName" in rpc.fields && rpc.fields["fName"] == VStr("update")
    ensures Handled(s, version, rpc, w) == (Ok(Fail("Internal server error (Developer error)")), s)
  {
    HandledIsAnswered(s, version, rpc, w);
    var (out, t) := Dispatched(s, version, VStr("update"), rpc, w);
    DispatchedUpdateRaises(s, version, rpc, w);
    AnsweredFacts(VStr("update"), rpc, out, t);
    assert s.broadcasts + [] == s.broadcasts;
  }

  lemma DispatchedUpdateRaises(s: State, version: Value, rpc: Rpc, w: World)
    ensures var (out, t) := Dispatched(s, version, VStr("update"), rpc, w);
      out.Raise? && out.exc != GenericError && t == s
  {
    if "args" in rpc.fields && Spread(rpc.fields["args"]).Ok? {
      var args := Spread(rpc.fields["args"]).value;
      HandlerOfUpdate();
      if |args| == 1 {
        UpdateAsWrittenRaises(s.pool, args[0], w);
        assert Call(Update, args, s, version, w) == (Raise(NameError), s);
      }
    }
  }

  /** With the parts read through `score`, an update whose reply is a failure fails only
      with "INVALID OPERATION". */
  lemma UpdateReplyFailures(pool: ProjectPool, args: Value, w: World)
    ensures var r := UpdateReply(pool, args, w, true);
      r.Ok? && r.value.status == "fail" ==> r.value == Fail("INVALID OPERATION")
  {
    match Spread(args)
    case Raise(_) =>
    case Ok(items) =>
      if 3 <= |items| <= 5 {
        var partIndex := if |items| > 3 then items[3] else VNone;
        var offset := if |items| > 4 then items[4] else VNone;
        MusicWrapper.OnlyInvalidOperationFails(Ok(Fetched(pool, items[0], w.loaded, true)), w.decoded, NameOf(items[1]), partIndex, offset, w.run);
      }
  }

  /** With the parts read through `score`, a chat update on a pooled project is answered
      "ok" and its answer broadcasts the request, as the server's design intends. */
  lemma ScoreUpdateBroadcasts(s: State, rpc: Rpc, pid: Value, body: Value, w: World)
    requires pid in s.pool && s.pool[pid].obj.Loaded? && w.decoded.Ok?
    ensures var out := UpdateReply(s.pool, VList([pid, VStr("chat"), body]), w, true);
      out == Ok(OkEmpty) &&
      Answered(VStr("update"), rpc, out, s) == (Ok(OkEmpty), s.(broadcasts := s.broadcasts + [rpc]))
  {
    var items := [pid, VStr("chat"), body];
    assert Spread(VList(items)) == Ok(items);
    var fetched := Fetched(s.pool, pid, w.loaded, true);
    assert fetched == MusicWrapper.WithParts(s.pool[pid].obj.partCount);
    MusicWrapper.ChatOnParts(fetched, w.decoded.value, w.run);
  }

  lemma DispatchUpdate(s: State, version: Value, rpc: Rpc, w: World)
    requires "args" in rpc.fields && rpc.fields["args"].VList? && |rpc.fields["args"].items| == 1
    ensures Dispatched(s, version, VStr("update"), rpc, w) == (UpdateReply(s.pool, rpc.fields["args"].items[0], w, false), s)
  {
    var args := rpc.fields["args"].items;
    assert Spread(rpc.fields["args"]) == Ok(args);
    HandlerOfUpdate();
    assert Call(Update, args, s, version, w) == (UpdateReply(s.pool, args[0], w, false), s);
  }

  lemma HandlerOfUpdate()
    ensures HandlerOf(VStr("update")) == Some(Update)
  {
    assert "update" != "register" && "update" != "login" && "update" != "create_project";
    assert "update" != "list_projects" && "update" != "get_project" && "update" != "subscribe";
    assert "update" != "unsubscribe";
  }

  lemma HandledIsAnswered(s: State, version: Value, rpc: Rpc, w: World)
    requires "fName" in rpc.fields && !rpc.fields["fName"].VList?
    ensures var f := rpc.fields["fName"];
      Handled(s, version, rpc, w) ==
      Answered(f, rpc, Dispatched(s, version, f, rpc, w).0, Dispatched(s, version, f, rpc, w).1)
  {
  }

  // ---------------------------------------------------------------------------
  // The server object
  // ---------------------------------------------------------------------------

  class Server {
    var sessions: Sessions
    var pool: ProjectPool
    ghost var written: seq<Pooled>
    ghost var broadcasts: seq<Rpc>
    const version: Value

    ghost function St(): State
      reads this
    {
      State(sessions, pool, written, broadcasts)
    }

    ghost predicate Valid()
      reads this
    {
      Counted(pool)
    }

    /** `__init__`: no sessions and an empty pool. */
    constructor (version: Value)
      ensures Valid() && St() == State(map[], map[], [], []) && this.version == version
    {
      this.version := version;
      sessions := map[];
      pool := map[];
      written := [];
      broadcasts := [];
    }

    /** `generate_cookie_for(user, project)`: `newCookie` is the new `uuid.uuid4()`; freshness
        is not checked, as the source does not check it. */
    method GenerateCookieFor(user: Value, project: Value, newCookie: Uuid) returns (cookie: Uuid)
      modifies this
      ensures cookie == newCookie
      ensures St() == old(St()).(sessions := old(sessions)[newCookie := Session(user, project)])
    {
      sessions := sessions[newCookie := Session(user, project)];
      cookie := newCookie;
    }

    /** `cookie_to_session(cookie)`; reads the table only. */
    method CookieToSession(cookie: Value) returns (r: Result<Lookup>)
      ensures r == LookupCookie(sessions, cookie)
    {
      var u := ParseCookie(cookie);
      if u.Raise? {
        if u.exc == ValueError {
          return Ok(NotACookie);
        }
        return Raise(u.exc);
      }
      if u.value in sessions {
        return Ok(Found(sessions[u.value]));
      }
      return Ok(NoSession);
    }

    method RemoveCookie(cookie: Value) returns (r: Result<Reply>)
      modifies this
      ensures (r, sessions) == RemovedCookie(old(sessions), cookie)
      ensures St() == old(St()).(sessions := sessions)
    {
      var u := ParseCookie(cookie);
      if u.Raise? {
        if u.exc == ValueError {
          return Ok(Fail(NotACookieReason));
        }
        return Raise(u.exc);
      }
      if u.value !in sessions {
        return Ok(Fail("Who are you"));
      }
      sessions := sessions - {u.value};
      return Ok(OkEmpty);
    }

    method DoSubscribe(username: Value, pid: Value, w: World) returns (r: Result<Reply>)
      requires Valid()
      modifies this
      ensures Valid()
      ensures (r, St()) == Subscribed(old(St()), username, pid, w)
    {
      if username in w.contributors {
        CountedPreserved(pool, pid, w.loaded);
        pool := Checkout(pool, pid, w.loaded);
        var cookie := GenerateCookieFor(username, pid, w.newCookie);
        return Ok(Reply("ok", VUuid(cookie)));
      }
      return Ok(Fail("You are not a contributor"));
    }

    method DoUnsubscribe(cookie: Value) returns (r: Result<Reply>)
      requires Valid()
      modifies this
      ensures Valid()
      ensures (r, St()) == Unsubscribed(old(St()), cookie)
    {
      ghost var s0 := St();
      var session := CookieToSession(cookie);
      if session.Raise? {
        return Raise(session.exc);
      }
      if session.value.NoSession? {
        return Ok(Fail("You are not subscribed"));
      }
      LookupThenRemove(sessions, cookie);
      r := RemoveCookie(cookie);
      if session.value.NotACookie? || r != Ok(OkEmpty) {
        return;
      }
      assert St() == s0.(sessions := sessions);
      r := Unpin(session.value.session.project);
    }

    method Unpin(key: Value) returns (r: Result<Reply>)
      requires Valid()
      modifies this
      ensures Valid()
      ensures (r, St()) == Unpinned(old(St()), key)
    {
      if key !in pool {
        return Raise(TypeError);
      }
      var obj := pool[key].obj;
      CountedPreserved(pool, key, obj);
      pool := Checkout(pool, key, obj);
      if obj.NotFound? {
        return Raise(AttributeError);
      }
      ReleaseWith(VUuid(obj.projectID));
      r := Ok(OkEmpty);
    }

    method ReleaseWith(pid: Value)
      requires Valid()
      modifies this
      ensures Valid()
      ensures St() == ReleasedWith(old(St()), pid)
    {
      if pid in pool && pool[pid].count == 1 {
        written := written + [pool[pid].obj];
      }
      CountedPreserved(pool, pid, NotFound);
      pool := Release(pool, pid);
    }

    /** `get_fun(pid)`: a checkout followed at once by a release, returning the project. */
    method GetFun(pid: Value, loaded: Pooled) returns (obj: Pooled)
      requires Valid()
      modifies this
      ensures Valid()
      ensures obj == (if pid in old(pool) then old(pool)[pid].obj else loaded)
      ensures St() == old(St())
    {
      ReleaseUndoesCheckout(pool, pid, loaded);
      var p := Checkout(pool, pid, loaded);
      obj := p[pid].obj;
      pool := Release(p, pid);
    }

    method DoUpdate(args: Value, w: World) returns (r: Result<Reply>)
      requires Valid()
      modifies this
      ensures Valid()
      ensures r == UpdateReply(old(pool), args, w, false)
      ensures St() == old(St())
    {
      var items := Spread(args);
      if items.Raise? || |items.value| < 3 || |items.value| > 5 {
        return Raise(NameError);
      }
      var a := items.value;
      var obj := GetFun(a[0], w.loaded);
      var fetched := PartsOf(obj, false);
      var partIndex := if |a| > 3 then a[3] else VNone;
      var offset := if |a| > 4 then a[4] else VNone;
      var out := MusicWrapper.PerformMusicFun(Ok(fetched), w.decoded, NameOf(a[1]), partIndex, offset, w.run).0;
      if out.Raise? {
        return Raise(NameError);
      }
      return Ok(ToReply(out.value));
    }

    method Handle(rpc: Rpc, w: World) returns (r: Result<Reply>)
      requires Valid()
      modifies this
      ensures Valid()
      ensures (r, St()) == Handled(old(St()), version, rpc, w)
    {
      if "fName" !in rpc.fields {
        return Raise(KeyError);
      }
      var f := rpc.fields["fName"];
      if f.VList? {
        return Raise(TypeError);
      }
      ghost var before := old(St());
      var out := Dispatch(f, rpc, w);
      ghost var t := St();
      assert Handled(before, version, rpc, w) == Answered(f, rpc, out, t);
      var reply := if out.Raise? then ErrorReply(out.exc) else out.value;
      if f == VStr("update") && reply.status == "ok" {
        broadcasts := broadcasts + [rpc];
      } else {
        assert broadcasts + [] == broadcasts;
      }
      r := Ok(reply);
      assert (r, St()) == Answered(f, rpc, out, t);
    }

    method Dispatch(f: Value, rpc: Rpc, w: World) returns (out: Result<Reply>)
      requires Valid()
      modifies this
      ensures Valid()
      ensures (out, St()) == Dispatched(old(St()), version, f, rpc, w)
    {
      if "args" !in rpc.fields {
        return Raise(KeyError);
      }
      var args := Spread(rpc.fields["args"]);
      var h := HandlerOf(f);
      if args.Raise? {
        return Raise(args.exc);
      }
      if h.None? {
        return Ok(Fail("I don't know what you want me to do"));
      }
      if |args.value| != Arity(h.value) {
        return Raise(TypeError);
      }
      var a := args.value;
      ghost var s0 := St();
      assert Dispatched(s0, version, f, rpc, w) == Call(h.value, a, s0, version, w);
      match h.value
      case Subscribe => out := DoSubscribe(a[0], a[1], w);
      case Unsubscribe => out := DoUnsubscribe(a[0]);
      case Update => out := DoUpdate(a[0], w);
      case Handshake => out := Ok(CompareVersions(version, a[0]));
      case _ => out := w.db;
    }
  }
}
