/** A worker's task: HttpTask::operator() of src/web/http_task.cpp, from the bytes received to what
    becomes of the socket.  Sending the response is Response. */
module HttpTask {
  import opened Bytes
  import opened RequestHead
  import RequestBody
  import RequestRoundTrip
  import UrlCoding
  import Dispatch
  import Routes
  import Sockets
  import opened Connection
  import opened ConnectionSafety

  /** How a task ends for its socket.  A scan past the bytes received reads memory nobody wrote, so
      nothing is said about what follows it. */
  datatype Ending = Attaches | Removes | Throws | Undefined

  /** The path the request is dispatched by. */
  function PathIn(script: seq<Bytes>): Bytes {
    match ParseHead(RequestBody.Piece(script, 0))
    case Ok(h) => h.path
    case Err(_) => []
  }

  /** files is what the look-up of a static file throws, for a path that is not bound. */
  function EndOf(script: seq<Bytes>, process: seq<Dispatch.Program>, handlers: map<Bytes, seq<Dispatch.Program>>,
                 files: Option<Dispatch.Kind>): Ending
  {
    match RequestBody.Receive(script).outcome
    case Refused => Removes
    case Failed(e) => if e == Overrun then Undefined else Throws
    case Accepted(_) => if Dispatch.Escaped(process, handlers, PathIn(script), files).Some? then Throws else Attaches
  }

  /** The task itself: parse, dispatch, and keep, remove or lose the socket. */
  method Serve(server: Dispatch.Server, socket: RequestBody.Socket, raised: Option<Dispatch.Kind>)
    returns (ending: Ending)
    requires socket.taken == 0
    modifies socket
    ensures ending == EndOf(socket.script, server.processHandles, server.handlers,
                            Dispatch.Lookup(server.staticPath, raised))
  {
    hide ParseHead, Dispatch.Escaped;
    var req := new Request();
    var outcome := RequestBody.Parse(socket, req);
    match outcome
    case Refused => return Removes;
    case Failed(e) => return if e == Overrun then Undefined else Throws;
    case Accepted(_) =>
      var log, thrown := server.Handle(req.path, raised);
      ending := if thrown.Some? then Throws else Attaches;
  }

  // What it means for the socket.

  /** The first step a worker takes when its task ends. */
  function StepOf(w: nat, ending: Ending): Step
    requires ending != Undefined
  {
    match ending
    case Attaches => Attach(Worker(w))
    case Removes => CloseFd(Worker(w))
    case Throws => Throw(w)
  }

  /** A socket whose task ended is armed again, is being removed by its worker, or is abandoned, as the
      task ended; no other socket is moved. */
  lemma EndingDecides(s: State, w: nat, ending: Ending)
    requires Inv(s) && Holding(s, Worker(w), Serving) && ending != Undefined
    ensures Enabled(s, StepOf(w, ending))
    ensures var q, x := Exec(s, StepOf(w, ending)), s.hands[Worker(w)].slot;
      && q.place == s.place[x := match ending
                                 case Attaches => Armed
                                 case Removes => Held(Worker(w))
                                 case Throws => Abandoned]
      && (Worker(w) in q.hands <==> ending == Removes)
  {
    hide Sockets.LinkOf, Sockets.WorldOk, Refs, Sides, PoolOk, Sockets.Add, Sockets.Close;
    var x := s.hands[Worker(w)].slot;
    HolderOwns(s, Worker(w));
    if ending == Attaches {
      Sockets.AddWorks(s.k, x);
    }
  }

  // Which requests lose their socket.

  /** On the shipped server a socket is lost exactly when the head cannot be parsed (an unfinished escape,
      a word that starts on a blank, a head that ends past the first receive), or the path is not bound
      and the look-up of a static file throws, or what the handlers throw is not a standard exception or
      is an HTTP or JSON one whose text cannot be printed. */
  lemma ShippedTaskLost(script: seq<Bytes>, e: Routes.Endpoint, f: Routes.Facts, due: Bytes -> bool,
                        app: Routes.Endpoint -> Dispatch.Program, handlers: map<Bytes, seq<Dispatch.Program>>,
                        files: Option<Dispatch.Kind>)
    requires PathIn(script) in handlers ==> handlers[PathIn(script)] == Routes.RouteOf(e, f, due, app)
    ensures EndOf(script, [Routes.ProcessException(f)], handlers, files) == Throws <==>
      var outcome := RequestBody.Receive(script).outcome;
      || outcome == RequestBody.Failed(InvalidUrl)
      || outcome == RequestBody.Failed(LengthError)
      || (&& outcome.Accepted?
          && if PathIn(script) !in handlers then files.Some?
             else Lost(Dispatch.Exec(Routes.Guarded(e, f, due, app), Routes.Protected(f), 1).thrown, f.reports))
  {
    hide Dispatch.Exec, Routes.ProcessException, Routes.RouteOf, Routes.Protected, PathIn, RequestBody.Receive;
    Routes.WhatEscapes(e, f, due, app);
  }

  /** On the shipped server the connection is kept exactly for the complete requests that are not lost,
      and closed exactly when the connection ends before the request does. */
  lemma ShippedTaskKept(script: seq<Bytes>, e: Routes.Endpoint, f: Routes.Facts, due: Bytes -> bool,
                        app: Routes.Endpoint -> Dispatch.Program, handlers: map<Bytes, seq<Dispatch.Program>>,
                        files: Option<Dispatch.Kind>)
    requires PathIn(script) in handlers ==> handlers[PathIn(script)] == Routes.RouteOf(e, f, due, app)
    ensures EndOf(script, [Routes.ProcessException(f)], handlers, files) == Attaches <==>
      && RequestBody.Receive(script).outcome.Accepted?
      && if PathIn(script) !in handlers then files.None?
         else !Lost(Dispatch.Exec(Routes.Guarded(e, f, due, app), Routes.Protected(f), 1).thrown, f.reports)
    ensures EndOf(script, [Routes.ProcessException(f)], handlers, files) == Removes
      <==> RequestBody.Receive(script).outcome.Refused?
  {
    hide Dispatch.Exec, Routes.ProcessException, Routes.RouteOf, Routes.Protected, PathIn, RequestBody.Receive;
    Routes.WhatEscapes(e, f, due, app);
  }

  /** A rendered request that declares its body's length, for a bound path whose handlers let nothing
      escape: however it is cut, the connection is kept and the socket is armed again. */
  lemma CompleteRequestKept(verb: Bytes, target: Bytes, version: Bytes, fs: seq<Field>, body: Bytes, chunks: seq<Bytes>,
                            process: seq<Dispatch.Program>, handlers: map<Bytes, seq<Dispatch.Program>>,
                            files: Option<Dispatch.Kind>, s: State, w: nat)
    requires RequestBody.Declares(verb, target, version, fs, body)
    requires RequestBody.Cut(chunks, RequestRoundTrip.Render(verb, target, version, fs), body)
    requires var path := TargetOf(target).value.path;
      path in handlers && Dispatch.Exec(process + handlers[path], Dispatch.ENTRY, 0).thrown == None
    requires Inv(s) && Holding(s, Worker(w), Serving)
    ensures EndOf(chunks, process, handlers, files) == Attaches
    ensures var step := StepOf(w, EndOf(chunks, process, handlers, files));
      Enabled(s, step) && s.hands[Worker(w)].slot in Exec(s, step).place
      && Exec(s, step).place[s.hands[Worker(w)].slot] == Armed
  {
    hide Dispatch.Exec, ParseHead, TargetOf, RequestBody.Receive, RequestBody.Cut, Inv, RequestBody.Declares;
    hide Enabled, Exec;
    CutHasPieces(chunks, RequestRoundTrip.Render(verb, target, version, fs), body);
    RequestBody.RenderedRequestReceived(verb, target, version, fs, body, chunks);
    EndingDecides(s, w, Attaches);
  }

  lemma CutHasPieces(chunks: seq<Bytes>, head: Bytes, rest: Bytes)
    requires RequestBody.Cut(chunks, head, rest)
    ensures |chunks| > 0 && RequestBody.Piece(chunks, 0) == chunks[0]
  {
  }

  /** When the connection ends before the declared body has come, or before anything has, the socket is
      removed. */
  lemma ShortRequestRemoved(verb: Bytes, target: Bytes, version: Bytes, fs: seq<Field>, body: Bytes, sent: Bytes,
                            chunks: seq<Bytes>, process: seq<Dispatch.Program>,
                            handlers: map<Bytes, seq<Dispatch.Program>>, files: Option<Dispatch.Kind>)
    requires RequestBody.Declares(verb, target, version, fs, body) && |sent| < |body|
    requires RequestBody.Cut(chunks, RequestRoundTrip.Render(verb, target, version, fs), sent)
    ensures EndOf(chunks, process, handlers, files) == Removes
    ensures EndOf([], process, handlers, files) == Removes
  {
    hide Dispatch.Exec, ParseHead, RequestBody.Cut, RequestBody.Declares;
    RequestBody.ShortRequestRefused(verb, target, version, fs, body, sent, chunks);
  }

  /** For a path that is not bound, a server with a static path loses the socket of a complete request exactly
      when looking up the file throws; one without a static path never does. */
  lemma UnboundPathEnds(script: seq<Bytes>, process: seq<Dispatch.Program>,
                        handlers: map<Bytes, seq<Dispatch.Program>>, raised: Option<Dispatch.Kind>)
    requires RequestBody.Receive(script).outcome.Accepted? && PathIn(script) !in handlers
    ensures EndOf(script, process, handlers, Dispatch.Lookup(Routes.STATIC_PATH, raised)) == Throws <==> raised.Some?
    ensures EndOf(script, process, handlers, Dispatch.Lookup(Routes.STATIC_PATH, raised)) == Attaches <==> raised.None?
    ensures EndOf(script, process, handlers, Dispatch.Lookup([], raised)) == Attaches
  {
    hide RequestBody.Receive, PathIn;
    assert |Routes.STATIC_PATH| == 8;
  }

  /** An exception that app_process_exception does not turn into a response. */
  predicate Lost(thrown: Option<Dispatch.Kind>, reports: bool) {
    && thrown.Some?
    && (thrown.value == Dispatch.Foreign || (thrown.value in {Dispatch.Http, Dispatch.Json} && !reports))
  }

  /** So a request whose path has an unfinished escape loses its socket, whatever server it meets. */
  lemma UnfinishedEscapeLost(verb: Bytes, target: Bytes, version: Bytes, fs: seq<Field>, body: Bytes, later: seq<Bytes>,
                             process: seq<Dispatch.Program>, handlers: map<Bytes, seq<Dispatch.Program>>,
                             files: Option<Dispatch.Kind>)
    requires RequestRoundTrip.Plain(verb) && RequestRoundTrip.Plain(target) && RequestRoundTrip.Plain(version)
    requires fs != [] && RequestRoundTrip.AllWellFormed(fs)
    requires UrlCoding.UrlDecoded(target[..First(target, QUESTION)]) == None
    ensures var script := [RequestRoundTrip.Render(verb, target, version, fs) + body] + later;
      EndOf(script, process, handlers, files) == Throws
  {
    hide ParseHead, TargetOf, UrlCoding.UrlDecoded;
    var first := RequestRoundTrip.Render(verb, target, version, fs) + body;
    PathIsDecodedFront(target);
    RequestRoundTrip.HeadRoundTrip(verb, target, version, fs, body);
    assert RequestBody.Piece([first] + later, 0) == first;
    assert first != [] by {
      assert ParseHead(first) == Err(InvalidUrl);
      EmptyOverruns();
    }
  }

  lemma EmptyOverruns()
    ensures ParseHead([]) == Err(Overrun)
  {
  }
}
