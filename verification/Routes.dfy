/** The shipped routes: StudentMangeServer::Init of example/app/student_mange_server.cpp, with
    app_process_exception and app_token_parse of example/app/app_business.cpp. */
module Routes {
  import opened Bytes
  import opened Dispatch
  import Token
  import Base64

  const STATIC_PATH := Ascii("./static")
  const TOKEN_KEY := Ascii("calabash_token_password")

  /** The "token" member of the request's JSON. */
  datatype Credentials = Missing | NotText | Text(token: Bytes)

  /** What the two shared handlers meet: the request, and whether the text of an exception can be
      printed as JSON.  A body that is not JSON leaves the JSON value empty. */
  datatype Facts = Facts(isPost: bool, isJson: bool, parses: bool, credentials: Credentials, reports: bool)

  function Presented(f: Facts): Credentials {
    if f.isJson then f.credentials else Missing
  }

  /** The user of a token that opens with the server's key and is still in time. */
  function AcceptedUser(c: Credentials, due: Bytes -> bool): Option<Bytes> {
    match c
    case Missing => None
    case NotText => None
    case Text(token) =>
      match Token.Opened(token, TOKEN_KEY)
      case None => None
      case Some(claims) => if due(claims.time) then Some(claims.user) else None
  }

  /** A token text that decodes to the masked, sealed payload of this user and time. */
  ghost predicate Genuine(c: Credentials, user: Bytes, time: Bytes) {
    && c.Text? && Token.NoBar(user)
    && Base64.Decoded(c.token) == Token.Masked(Token.Sealed(Token.Payload(user, time)), TOKEN_KEY)
  }

  /** The user is accepted exactly on a genuine token that is in time; without a token text nobody is. */
  lemma AcceptedUserIff(c: Credentials, due: Bytes -> bool, user: Bytes)
    ensures AcceptedUser(c, due) == Some(user) <==> exists time :: Genuine(c, user, time) && due(time)
  {
    hide Token.Opened, Token.Masked, Token.Sealed, Base64.Decoded, Token.NoBar;
    if c.Text? {
      if time :| Genuine(c, user, time) && due(time) {
        Token.AcceptedIff(c.token, TOKEN_KEY, Token.Claims(user, time));
      }
      if Token.Opened(c.token, TOKEN_KEY).Some? {
        Token.AcceptedIff(c.token, TOKEN_KEY, Token.Opened(c.token, TOKEN_KEY).value);
      }
    }
  }

  /** A token made with the server's key for a user without a bar is accepted for that user until its time. */
  lemma IssuedIsAccepted(user: Bytes, time: Bytes, due: Bytes -> bool)
    requires Token.NoBar(user) && due(time)
    ensures AcceptedUser(Text(Token.TokenText(user, time, TOKEN_KEY)), due) == Some(user)
  {
    hide Token.Opened, Token.TokenText, Token.NoBar;
    Token.TokenRoundTrip(user, time, TOKEN_KEY);
  }

  /** The request carries a genuine token that is in time. */
  ghost predicate InTime(f: Facts, due: Bytes -> bool) {
    f.isJson && exists user, time :: Genuine(f.credentials, user, time) && due(time)
  }

  lemma InTimeIff(f: Facts, due: Bytes -> bool)
    ensures InTime(f, due) <==> AcceptedUser(Presented(f), due).Some?
  {
    hide AcceptedUser, Genuine;
    if AcceptedUser(Presented(f), due).Some? {
      AcceptedUserIff(Presented(f), due, AcceptedUser(Presented(f), due).value);
      MissingIsNotGenuine();
    }
    if InTime(f, due) {
      var user, time :| Genuine(f.credentials, user, time) && due(time);
      AcceptedUserIff(Presented(f), due, user);
    }
  }

  lemma MissingIsNotGenuine()
    ensures forall user, time :: !Genuine(Missing, user, time)
  {
  }

  const ACCEPTED: nat := 1
  const ANSWERED: nat := 2
  const REPORTED: nat := 3

  function TokenParse(c: Credentials, due: Bytes -> bool): Program {
    if c.NotText? then Throw(Json)
    else if AcceptedUser(c, due).None? then Throw(Http)
    else Effect(ACCEPTED, CallNext(Done))
  }

  /** The body of the try statement. */
  function Protected(f: Facts): Program {
    if !f.isPost then Throw(Http)
    else if f.isJson && !f.parses then Throw(Json)
    else CallNext(Effect(ANSWERED, Done))
  }

  /** An HTTP or JSON exception is reported with its own text, which may fail to print; any other
      standard exception with a constant, which does not, so its clause can stand inside. */
  function ProcessException(f: Facts): Program {
    Try(Try(Protected(f), {Standard}, Effect(REPORTED, Done), Done),
        {Http, Json},
        if f.reports then Effect(REPORTED, Done) else Throw(Json),
        Done)
  }

  datatype Endpoint = Login | Self | Leave | Release | StudentInfo | SearchLeave | SearchLeaveNum | Approval

  function PathOf(e: Endpoint): Bytes {
    match e
    case Login => Ascii("/login")
    case Self => Ascii("/self")
    case Leave => Ascii("/leave")
    case Release => Ascii("/release")
    case StudentInfo => Ascii("/student_info")
    case SearchLeave => Ascii("/search_leave")
    case SearchLeaveNum => Ascii("/search_leave_num")
    case Approval => Ascii("/approval")
  }

  /** The handlers of a route, for one request; app gives what the application handlers do in it. */
  function RouteOf(e: Endpoint, f: Facts, due: Bytes -> bool, app: Endpoint -> Program): seq<Program> {
    if e == Login then [app(Login)] else [TokenParse(Presented(f), due), app(e)]
  }

  lemma PathsDiffer(d: Endpoint, e: Endpoint)
    requires d != e
    ensures PathOf(d) != PathOf(e)
  {
    assert PathOf(Login)[2] == 'o' as int && PathOf(Leave)[2] == 'e' as int;
    assert PathOf(StudentInfo)[2] == 't' as int && PathOf(SearchLeave)[2] == 'e' as int;
    assert |PathOf(Login)| == |PathOf(Leave)| == 6;
    assert |PathOf(StudentInfo)| == |PathOf(SearchLeave)| == 13;
    assert |PathOf(Self)| == 5 && |PathOf(Release)| == 8 && |PathOf(SearchLeaveNum)| == 17 && |PathOf(Approval)| == 9;
  }

  /** Exactly these endpoints are bound, each with its handlers. */
  ghost predicate Bound(server: Server, done: set<Endpoint>, f: Facts, due: Bytes -> bool, app: Endpoint -> Program)
    reads server
  {
    (forall e :: server.At(PathOf(e)) == if e in done then RouteOf(e, f, due, app) else [])
    && (forall path :: path in server.handlers ==> exists e :: e in done && PathOf(e) == path)
    && (forall e :: e in done ==> PathOf(e) in server.handlers)
  }

  method BindRoute(server: Server, e: Endpoint, ghost done: set<Endpoint>, f: Facts, due: Bytes -> bool,
                   app: Endpoint -> Program)
    requires Bound(server, done, f, due, app) && e !in done
    modifies server`handlers
    ensures Bound(server, done + {e}, f, due, app)
  {
    hide PathOf, RouteOf;
    forall d | d != e
      ensures PathOf(d) != PathOf(e)
    {
      PathsDiffer(d, e);
    }
    RouteIsNotEmpty(e, f, due, app);
    server.BindAll(PathOf(e), RouteOf(e, f, due, app));
  }

  lemma RouteIsNotEmpty(e: Endpoint, f: Facts, due: Bytes -> bool, app: Endpoint -> Program)
    ensures RouteOf(e, f, due, app) != []
  {
  }

  /** After Init every endpoint has its handlers, and no other path is bound. */
  method Init(f: Facts, due: Bytes -> bool, app: Endpoint -> Program) returns (server: Server)
    ensures fresh(server)
    ensures server.processHandles == [ProcessException(f)] && server.staticPath == STATIC_PATH != []
    ensures forall e :: PathOf(e) in server.handlers && server.handlers[PathOf(e)] == RouteOf(e, f, due, app)
    ensures forall path :: path in server.handlers ==> exists e :: PathOf(e) == path
  {
    hide PathOf, RouteOf, ProcessException, Bound;
    server := new Server();
    server.StaticPath(STATIC_PATH);
    server.ProcessBind(ProcessException(f));
    NothingBound(server, f, due, app);
    ghost var done: set<Endpoint> := {};
    BindRoute(server, Login, done, f, due, app);
    done := done + {Login};
    BindRoute(server, Self, done, f, due, app);
    done := done + {Self};
    BindRoute(server, Leave, done, f, due, app);
    done := done + {Leave};
    BindRoute(server, Release, done, f, due, app);
    done := done + {Release};
    BindRoute(server, StudentInfo, done, f, due, app);
    done := done + {StudentInfo};
    BindRoute(server, SearchLeave, done, f, due, app);
    done := done + {SearchLeave};
    BindRoute(server, SearchLeaveNum, done, f, due, app);
    done := done + {SearchLeaveNum};
    BindRoute(server, Approval, done, f, due, app);
    done := done + {Approval};
    forall e: Endpoint
      ensures e in done
    {
      EveryEndpoint(e);
    }
    AllBound(server, done, f, due, app);
  }

  lemma EveryEndpoint(e: Endpoint)
    ensures e == Login || e == Self || e == Leave || e == Release || e == StudentInfo
         || e == SearchLeave || e == SearchLeaveNum || e == Approval
  {
    match e
    case Login =>
    case Self =>
    case Leave =>
    case Release =>
    case StudentInfo =>
    case SearchLeave =>
    case SearchLeaveNum =>
    case Approval =>
  }

  lemma NothingBound(server: Server, f: Facts, due: Bytes -> bool, app: Endpoint -> Program)
    requires server.handlers == map[]
    ensures Bound(server, {}, f, due, app)
  {
  }

  lemma AllBound(server: Server, all: set<Endpoint>, f: Facts, due: Bytes -> bool, app: Endpoint -> Program)
    requires Bound(server, all, f, due, app) && forall e: Endpoint :: e in all
    ensures forall e :: PathOf(e) in server.handlers && server.handlers[PathOf(e)] == RouteOf(e, f, due, app)
    ensures forall path :: path in server.handlers ==> exists e :: PathOf(e) == path
  {
    hide PathOf, RouteOf;
    forall e
      ensures PathOf(e) in server.handlers && server.handlers[PathOf(e)] == RouteOf(e, f, due, app)
    {
      assert e in all;
    }
  }

  // The guard.

  /** The handlers of a guarded route in starting order. */
  function Guarded(e: Endpoint, f: Facts, due: Bytes -> bool, app: Endpoint -> Program): seq<Program> {
    [ProcessException(f)] + RouteOf(e, f, due, app)
  }

  lemma ExceptionCallsOnce(f: Facts)
    ensures NextCount(ProcessException(f)) <= 1
  {
  }

  lemma TokenParseShape(c: Credentials, due: Bytes -> bool)
    ensures var p := TokenParse(c, due);
      if AcceptedUser(c, due).Some? then p == Effect(ACCEPTED, CallNext(Done)) else !p.Effect? && NextCount(p) == 0
  {
  }

  /** Whatever the application handlers do, one of a guarded route starts only after the token check
      accepted in the same request: its mark comes earlier, and the token is genuine and in time. */
  lemma TokenBeforeHandler(e: Endpoint, f: Facts, due: Bytes -> bool, app: Endpoint -> Program, j: nat, n: nat)
    requires e != Login && j >= 2
    requires var t := Exec(Guarded(e, f, due, app), ENTRY, 0).trace; n < |t| && t[n] == Started(j)
    ensures InTime(f, due)
    ensures exists m :: 0 <= m < n && Exec(Guarded(e, f, due, app), ENTRY, 0).trace[m] == Did(ACCEPTED)
  {
    hide Exec, ProcessException, TokenParse, AcceptedUser, NextCount, InTime;
    InTimeIff(f, due);
    var hs := Guarded(e, f, due, app);
    ExceptionCallsOnce(f);
    TokenParseShape(Presented(f), due);
    assert hs[1] == TokenParse(Presented(f), due);
    NothingBeforeMark(hs, 1, j, n);
  }

  /** An application handler of a guarded route starts exactly in a POST request with a readable JSON
      body and a genuine token that is in time. */
  lemma HandlerStartsIff(e: Endpoint, f: Facts, due: Bytes -> bool, app: Endpoint -> Program)
    requires e != Login
    ensures Exec(Guarded(e, f, due, app), ENTRY, 0).started == 3 <==>
      f.isPost && f.isJson && f.parses && InTime(f, due)
  {
    hide TokenParse, Token.Opened, Exec, NextCount, Genuine;
    InTimeIff(f, due);
    var hs := Guarded(e, f, due, app);
    TokenParseShape(Presented(f), due);
    assert hs[1] == TokenParse(Presented(f), due);
    EntryUnfold(hs, 0);
    TryStarts(hs, f, 1);
    if AcceptedUser(Presented(f), due).Some? {
      StartsThrough(hs, Effect(ANSWERED, Done));
    } else {
      ExceptionCallsOnce(f);
      EntryCallsOnce();
      ClosedGate(hs, ENTRY, 0, 1);
    }
  }

  /** The handler of the login route needs no token: it starts exactly in a POST request whose body is
      readable, or is not JSON. */
  lemma LoginStartsIff(f: Facts, due: Bytes -> bool, app: Endpoint -> Program)
    ensures Exec(Guarded(Login, f, due, app), ENTRY, 0).started == 2 <==> f.isPost && (f.isJson ==> f.parses)
  {
    hide Exec;
    var hs := Guarded(Login, f, due, app);
    EntryUnfold(hs, 0);
    TryStarts(hs, f, 1);
    LastStarts(hs, Effect(ANSWERED, Done));
  }

  lemma LastStarts(hs: seq<Program>, rest: Program)
    requires |hs| == 2
    ensures Exec(hs, CallNext(rest), 1).started == 2
  {
  }

  // What the client is told.

  ghost predicate EndsWith(t: seq<Event>, tag: nat) {
    t != [] && t[|t| - 1] == Did(tag)
  }

  /** When the protected part throws an HTTP or JSON exception that can be printed, or another standard
      one, the report is the last thing that happens and nothing escapes. */
  lemma CaughtIsReported(e: Endpoint, f: Facts, due: Bytes -> bool, app: Endpoint -> Program)
    requires var o := Exec(Guarded(e, f, due, app), Protected(f), 1);
      o.thrown == Some(Standard) || (o.thrown in {Some(Http), Some(Json)} && f.reports)
    ensures var o := Exec(Guarded(e, f, due, app), ENTRY, 0); o.thrown == None && EndsWith(o.trace, REPORTED)
  {
    hide Exec, ProcessException, Protected, TokenParse;
    var hs := Guarded(e, f, due, app);
    assert hs[0] == ProcessException(f);
    EntryUnfold(hs, 0);
    ReportIsLast(hs, f);
  }

  lemma ReportIsLast(hs: seq<Program>, f: Facts)
    requires |hs| > 0
    requires var o := Exec(hs, Protected(f), 1);
      o.thrown == Some(Standard) || (o.thrown in {Some(Http), Some(Json)} && f.reports)
    ensures var o := Exec(hs, ProcessException(f), 1); o.thrown == None && EndsWith(o.trace, REPORTED)
  {
    hide Protected;
    var p := ProcessException(f);
    var o := Exec(hs, Protected(f), 1);
    DidOnly(hs, o.started);
    TryUnfold(hs, Protected(f), {Standard}, Effect(REPORTED, Done), Done, 1);
    TryUnfold(hs, p.body, {Http, Json}, p.handler, Done, 1);
    hide Exec;
  }

  lemma DidOnly(hs: seq<Program>, k: nat)
    requires k <= |hs|
    ensures Exec(hs, Effect(REPORTED, Done), k) == Outcome(k, [Did(REPORTED)], None)
    ensures Exec(hs, Done, k) == Outcome(k, [], None)
  {
    assert Exec(hs, Done, k) == Outcome(k, [], None);
  }

  /** When the handler of an accepted request returns, the last thing that happens is the good answer. */
  lemma ReturnIsAnswered(e: Endpoint, f: Facts, due: Bytes -> bool, app: Endpoint -> Program)
    requires e != Login && f.isPost && f.isJson && f.parses && InTime(f, due)
    requires Exec(Guarded(e, f, due, app), app(e), 3).thrown == None
    ensures var o := Exec(Guarded(e, f, due, app), ENTRY, 0); o.thrown == None && EndsWith(o.trace, ANSWERED)
  {
    hide AcceptedUser, InTime;
    InTimeIff(f, due);
    var hs := Guarded(e, f, due, app);
    TokenParseShape(Presented(f), due);
    assert hs[1] == TokenParse(Presented(f), due) && hs[2] == app(e);
    EntryUnfold(hs, 2);
    AnswerIsLast(hs, e, f);
  }

  lemma AnswerIsLast(hs: seq<Program>, e: Endpoint, f: Facts)
    requires |hs| == 3 && hs[0] == ProcessException(f) && hs[1] == Effect(ACCEPTED, CallNext(Done))
    requires f.isPost && f.isJson && f.parses && Exec(hs, CallNext(Done), 2).thrown == None
    ensures var o := Exec(hs, ENTRY, 0); o.thrown == None && EndsWith(o.trace, ANSWERED)
  {
    var o := Exec(hs, hs[1], 2);
    var p := ProcessException(f);
    assert Exec(hs, Done, o.started) == Outcome(o.started, [], None);
    assert Exec(hs, Effect(ANSWERED, Done), o.started) == Outcome(o.started, [Did(ANSWERED)], None);
    var b := Exec(hs, Protected(f), 1);
    assert b.thrown == None && EndsWith(b.trace, ANSWERED) && b.started == o.started;
    hide Exec;
    TryUnfold(hs, Protected(f), {Standard}, Effect(REPORTED, Done), Done, 1);
    TryUnfold(hs, p.body, {Http, Json}, p.handler, Done, 1);
    EntryUnfold(hs, 0);
  }

  /** A request without a genuine token in time ends in the protected part with an HTTP exception, or with a
      JSON one when the token is not a text. */
  lemma RejectionThrows(e: Endpoint, f: Facts, due: Bytes -> bool, app: Endpoint -> Program)
    requires e != Login && f.isPost && (f.isJson ==> f.parses) && !InTime(f, due)
    ensures Exec(Guarded(e, f, due, app), Protected(f), 1).thrown
         == Some(if f.isJson && f.credentials.NotText? then Json else Http)
  {
    hide AcceptedUser, InTime;
    InTimeIff(f, due);
    var hs := Guarded(e, f, due, app);
    assert hs[1] == TokenParse(Presented(f), due);
    assert Exec(hs, hs[1], 2).thrown == Some(if f.isJson && f.credentials.NotText? then Json else Http);
  }

  lemma EntryCallsOnce()
    ensures NextCount(ENTRY) == 1
  {
  }

  /** The exception handler starts as many handlers as what it runs under protection. */
  lemma TryStarts(hs: seq<Program>, f: Facts, k: nat)
    requires k <= |hs|
    ensures Exec(hs, ProcessException(f), k).started
         == if !f.isPost || (f.isJson && !f.parses) then k else Exec(hs, CallNext(Effect(ANSWERED, Done)), k).started
  {
    var p := ProcessException(f);
    StartsOfTry(hs, p.body, k);
    StartsOfTry(hs, p, k);
  }

  lemma StartsOfTry(hs: seq<Program>, p: Program, k: nat)
    requires k <= |hs| && p.Try? && p.rest == Done && NextCount(p.handler) == 0
    ensures Exec(hs, p, k).started == Exec(hs, p.body, k).started
  {
    var o := Exec(hs, p.body, k);
    NoCallNoStart(hs, p.handler, o.started);
    NoCallNoStart(hs, Done, o.started);
  }

  lemma StartsThrough(hs: seq<Program>, rest: Program)
    requires |hs| == 3 && hs[1] == Effect(ACCEPTED, CallNext(Done))
    ensures Exec(hs, CallNext(rest), 1).started == 3
  {
    assert Exec(hs, CallNext(Done), 2).started == 3;
  }

  /** What leaves app_process_exception when this leaves its protected part. */
  function LeavesTry(thrown: Option<Kind>, reports: bool): Option<Kind> {
    match thrown
    case None => None
    case Some(Foreign) => Some(Foreign)
    case Some(Standard) => None
    case Some(_) => if reports then None else Some(Json)
  }

  /** What leaves the handlers of a shipped route: an exception that is not a standard one, or the failure
      to print the text of an HTTP or JSON one; every other exception becomes a response. */
  lemma WhatEscapes(e: Endpoint, f: Facts, due: Bytes -> bool, app: Endpoint -> Program)
    ensures var hs := Guarded(e, f, due, app);
      Exec(hs, ENTRY, 0).thrown == LeavesTry(Exec(hs, Protected(f), 1).thrown, f.reports)
  {
    hide Exec, ProcessException, TokenParse;
    var hs := Guarded(e, f, due, app);
    assert hs[0] == ProcessException(f);
    EntryUnfold(hs, 0);
    TryEscapes(hs, f, 1);
  }

  lemma TryEscapes(hs: seq<Program>, f: Facts, k: nat)
    requires k <= |hs|
    ensures Exec(hs, ProcessException(f), k).thrown == LeavesTry(Exec(hs, Protected(f), k).thrown, f.reports)
  {
    var p := ProcessException(f);
    ThrownByTry(hs, p.body, k);
    ThrownByTry(hs, p, k);
    var o := Exec(hs, p.body, k);
    EffectThrowsNothing(hs, Exec(hs, Protected(f), k).started);
    EffectThrowsNothing(hs, o.started);
  }

  lemma ThrownByTry(hs: seq<Program>, p: Program, k: nat)
    requires k <= |hs| && p.Try? && p.rest == Done
    ensures var o := Exec(hs, p.body, k);
      Exec(hs, p, k).thrown
        == if o.thrown.Some? && o.thrown.value in p.catches then Exec(hs, p.handler, o.started).thrown else o.thrown
  {
    var o := Exec(hs, p.body, k);
    assert Exec(hs, Done, o.started).thrown == None;
    assert Exec(hs, Done, Exec(hs, p.handler, o.started).started).thrown == None;
  }

  lemma EffectThrowsNothing(hs: seq<Program>, k: nat)
    requires k <= |hs|
    ensures Exec(hs, Effect(REPORTED, Done), k).thrown == None
  {
    assert Exec(hs, Done, k).thrown == None;
  }

  /** The guard rests on the shared handler calling next once: one that calls it again after an
      exception starts the guarded handler although the token was rejected. */
  lemma RepeatedNextSlipsPast(handler: Program)
    ensures var hs := [Try(CallNext(Done), {Http}, Done, CallNext(Done)), TokenParse(Missing, _ => true), handler];
      Started(2) in Exec(hs, ENTRY, 0).trace
  {
    var retry := Try(CallNext(Done), {Http}, Done, CallNext(Done));
    var hs := [retry, TokenParse(Missing, _ => true), handler];
    assert Exec(hs, hs[1], 2) == Outcome(2, [], Some(Http));
    assert Exec(hs, CallNext(Done), 1) == Outcome(2, [Called, Started(1)], Some(Http));
    EntryUnfold(hs, 2);
    EntryUnfold(hs, 0);
  }
}
