/** One HTTP request on the server: the response flags of the connection and the callbacks that
    drive them. Fixed to the branches for libwebsockets 3.1 and later. */
module HttpConnection {
  import opened Wrappers
  import opened JsonModel
  import opened HttpRegistry
  import opened HttpRouting

  datatype Response = Response(code: nat, body: string, allow: string, contentType: string)

  function Plain(code: nat): Response {
    Response(code, "", "", "")
  }

  const OK := 200
  const NOT_FOUND := 404
  const NOT_SUPPORTED := 405
  const INTERNAL_SERVER_ERROR := 500

  datatype Cors = NoCors | AnyOrigin | Preflight(methods: string)

  // a future that is ready from the start, or the one a handler returned when asked
  datatype Future = Ready(response: Response) | Asked(func: Func, path: string, body: string)

  // what a handler's future holds when it is looked at
  datatype Resolution = Unresolved | Value(response: Response) | BrokenPromise | Raised

  datatype Wire = Headers(code: nat, length: nat, allow: string, contentType: string, cors: Cors) | Body(text: string)

  datatype Conn = Conn(
    verb: Method, path: string, body: string, contentLength: nat, corsHeaders: bool,
    cors: Cors, delayed: Option<Future>, finalized: bool, response: Response,
    headersSent: bool, bodySent: bool,
    wantsWrite: bool,     // a writable callback was requested and has not come yet
    completed: bool,      // the body completion callback has come
    calls: nat,           // how often a handler was called
    trace: seq<Wire>)     // what went out

  // the registry and the filter as they are when a callback comes
  datatype Env = Env(table: Table, filtered: Option<Response>, dump: Json -> string)

  datatype Outcome = Fine | LogicError | HandlerException

  datatype Event =
    | Data(chunk: string)
    | Completion(env: Env)
    | Writeable(resolution: Resolution, delivered: bool)

  function New(verb: Method, path: string, contentLength: nat, hasOrigin: bool, corsHeaders: bool): Conn {
    Conn(verb, path, "", contentLength, corsHeaders, if hasOrigin then AnyOrigin else NoCors,
         None, false, Plain(OK), false, false, false, false, 0, [])
  }

  predicate CanHaveBody(c: Conn) {
    (c.verb == POST || c.verb == PUT || c.verb == PATCH) && c.contentLength > 0
  }

  predicate IsPreflight(c: Conn) {
    c.verb == OPTIONS && c.corsHeaders
  }

  predicate IsSet(c: Conn) {
    c.delayed.Some? || c.finalized
  }

  function WithoutLeadingSlash(path: string): string {
    if path != "" && path[0] == '/' then path[1..] else path
  }

  // _generateResponse: a handler sees the rest of the path and the body received so far
  function Generate(env: Env, c: Conn): (Future, Conn)
    requires Ordered(env.table)
  {
    match Decide(env.table, env.filtered.Some?, c.verb, WithoutLeadingSlash(c.path))
    case Filtered => (Ready(if env.filtered.Some? then env.filtered.value else Plain(OK)), c)
    case ListRegistry => (Ready(Response(OK, env.dump(RegistryJson(env.table)), "", "application/json")), c)
    case Call(endpoint, rest, func) => (Asked(func, rest, c.body), c.(path := rest, calls := c.calls + 1))
    case NotSupported(allow) => (Ready(Response(NOT_SUPPORTED, "", allow, "")), c)
    case NotFound => (Ready(Plain(NOT_FOUND)), c)
  }

  function Prepare(env: Env, c: Conn): (Outcome, Conn)
    requires Ordered(env.table)
  {
    if !CanHaveBody(c) && IsSet(c) then (Fine, c)
    else
      var (future, c') := Generate(env, c);
      if IsSet(c) then (LogicError, c')
      else (Fine, c'.(delayed := Some(future), wantsWrite := true))
  }

  function Open(env: Env, c: Conn): (Outcome, Conn)
    requires Ordered(env.table)
  {
    if IsPreflight(c) then
      if IsSet(c) then (LogicError, c)
      else
        (Fine, c.(cors := Preflight(Join(Allowed(env.table, WithoutLeadingSlash(c.path)))),
                  finalized := true, wantsWrite := true))
    else if !CanHaveBody(c) then Prepare(env, c)
    else (Fine, c)
  }

  predicate IsReady(c: Conn, resolution: Resolution) {
    c.finalized || (c.delayed.Some? && (c.delayed.value.Ready? || resolution != Unresolved))
  }

  // get() on the future; None when it rethrows the handler's own exception
  function Final(c: Conn, resolution: Resolution): Option<Response>
    requires IsReady(c, resolution)
  {
    if c.finalized then Some(c.response)
    else if c.delayed.value.Ready? then Some(c.delayed.value.response)
    else
      match resolution
      case Value(response) => Some(response)
      case BrokenPromise => Some(Plain(INTERNAL_SERVER_ERROR))
      case _ => None
  }

  function HeadersOf(c: Conn): Wire {
    Headers(c.response.code, |c.response.body|, c.response.allow, c.response.contentType, c.cors)
  }

  function WriteHeaders(c: Conn, resolution: Resolution, delivered: bool): (Outcome, Conn)
    requires IsReady(c, resolution)
  {
    if c.headersSent || c.bodySent then (LogicError, c)
    else
      match Final(c, resolution)
      case None => (HandlerException, c)
      case Some(response) =>
        var c' := c.(response := response, finalized := true, headersSent := true);
        (Fine, if delivered
               then c'.(trace := c.trace + [HeadersOf(c')], wantsWrite := response.body != "")
               else c')
  }

  function WriteBody(c: Conn, delivered: bool): (Outcome, Conn) {
    if !c.headersSent || c.bodySent || c.response.body == "" then (LogicError, c)
    else
      var c' := c.(bodySent := true);
      (Fine, if delivered then c'.(trace := c.trace + [Body(c.response.body)]) else c')
  }

  function Write(c: Conn, resolution: Resolution, delivered: bool): (Outcome, Conn) {
    if !IsSet(c) then (LogicError, c)
    else if !IsReady(c, resolution) then (Fine, c.(wantsWrite := true))
    else if !c.headersSent then WriteHeaders(c, resolution, delivered)
    else WriteBody(c, delivered)
  }

  function Step(c: Conn, e: Event): (Outcome, Conn)
    requires e.Completion? ==> Ordered(e.env.table)
  {
    match e
    case Data(chunk) => (Fine, c.(body := c.body + chunk))
    case Completion(env) =>
      var (outcome, c') := Prepare(env, c);
      (outcome, c'.(completed := true))
    case Writeable(resolution, delivered) => Write(c.(wantsWrite := false), resolution, delivered)
  }

  /** What libwebsockets promises: the completion of a body comes at most once, and a writable
      callback only when it was asked for. Data may come at any time, also for a request that has
      no body. */
  ghost predicate Disciplined(c: Conn, e: Event) {
    match e
    case Data(_) => true
    case Completion(env) => Ordered(env.table) && !c.completed
    case Writeable(_, _) => c.wantsWrite
  }

  // ---- the invariant ----

  // everything there is to send
  function FullTrace(c: Conn): seq<Wire> {
    [HeadersOf(c)] + if c.response.body == "" then [] else [Body(c.response.body)]
  }

  predicate AllSent(c: Conn) {
    c.headersSent && (c.bodySent || c.response.body == "")
  }

  // a handler that was called was given all of the body received so far
  predicate HandlerSawBody(c: Conn) {
    match c.delayed
    case Some(Asked(_, _, body)) => body == c.body
    case _ => true
  }

  predicate HandlerCalled(c: Conn) {
    c.delayed.Some? && c.delayed.value.Asked?
  }

  ghost predicate Safe(c: Conn) {
    && (c.headersSent ==> c.finalized)
    && (c.bodySent ==> c.headersSent && c.response.body != "")
    && (c.wantsWrite ==> IsSet(c) && !AllSent(c))
    && (IsSet(c) <==> !CanHaveBody(c) || c.completed)
    && c.calls == (if c.delayed.Some? && c.delayed.value.Asked? then 1 else 0)
    && (c.headersSent && c.wantsWrite ==> c.trace == [HeadersOf(c)])
    && (!c.headersSent ==> c.trace == [])
    && c.trace <= FullTrace(c)
  }

  lemma OpenedIsSafe(env: Env, verb: Method, path: string, contentLength: nat, hasOrigin: bool, corsHeaders: bool)
    requires Ordered(env.table)
    ensures var (outcome, c) := Open(env, New(verb, path, contentLength, hasOrigin, corsHeaders));
            && outcome == Fine && Safe(c)
            && HandlerSawBody(c) && !c.completed
            && IsSet(c) == !CanHaveBody(New(verb, path, contentLength, hasOrigin, corsHeaders))
  {
  }

  /** From a safe state, each callback throws a logic_error exactly in one situation: a second
      completion of a request with a body, or a writable callback before the response is set or
      after all of it was sent. */
  lemma ThrowsIff(c: Conn, e: Event)
    requires Safe(c) && (e.Completion? ==> Ordered(e.env.table))
    ensures Step(c, e).0 == LogicError <==>
              match e
              case Data(_) => false
              case Completion(_) => CanHaveBody(c) && c.completed
              case Writeable(_, _) => !IsSet(c) || AllSent(c)
  {
  }

  lemma WriteHeadersIsSafe(c: Conn, resolution: Resolution, delivered: bool)
    requires Safe(c) && c.wantsWrite && !c.headersSent
    requires Step(c, Writeable(resolution, delivered)).0 == Fine
    ensures var c' := Step(c, Writeable(resolution, delivered)).1;
            Safe(c') && c'.delayed == c.delayed && c.trace <= c'.trace
  {
  }

  lemma WriteBodyIsSafe(c: Conn, resolution: Resolution, delivered: bool)
    requires Safe(c) && c.wantsWrite && c.headersSent
    requires Step(c, Writeable(resolution, delivered)).0 == Fine
    ensures var c' := Step(c, Writeable(resolution, delivered)).1;
            Safe(c') && c'.delayed == c.delayed && c.trace <= c'.trace
  {
  }

  lemma StepIsSafe(c: Conn, e: Event)
    requires Safe(c) && Disciplined(c, e)
    requires Step(c, e).0 == Fine
    ensures Safe(Step(c, e).1)
    ensures IsSet(c) ==> Step(c, e).1.delayed == c.delayed
    ensures c.trace <= Step(c, e).1.trace
    ensures CanHaveBody(Step(c, e).1) == CanHaveBody(c)
    ensures Step(c, e).1.completed == (c.completed || e.Completion?)
  {
    if e.Writeable? {
      if c.headersSent {
        WriteBodyIsSafe(c, e.resolution, e.delivered);
      } else {
        WriteHeadersIsSafe(c, e.resolution, e.delivered);
      }
    }
  }

  // a run that throws nothing, or stops at a handler's own exception
  ghost predicate DisciplinedRun(c: Conn, events: seq<Event>)
    decreases events
  {
    events == [] ||
    (&& Disciplined(c, events[0])
     && (Step(c, events[0]).0 == Fine ==> DisciplinedRun(Step(c, events[0]).1, events[1..])))
  }

  function Run(c: Conn, events: seq<Event>): (Outcome, Conn)
    requires forall i :: 0 <= i < |events| && events[i].Completion? ==> Ordered(events[i].env.table)
    decreases events
  {
    if events == [] then (Fine, c)
    else
      var (outcome, c') := Step(c, events[0]);
      if outcome == Fine then Run(c', events[1..]) else (outcome, c')
  }

  // a handler's own exception leaves the response unsent
  predicate NothingSent(c: Conn) {
    !c.headersSent && !c.bodySent && c.trace == []
  }

  lemma ExceptionSendsNothing(c: Conn, e: Event)
    requires Safe(c) && Disciplined(c, e)
    ensures Step(c, e).0 == HandlerException ==> NothingSent(Step(c, e).1) && Step(c, e).1.calls <= 1
  {
  }

  lemma {:induction false} RunIsSafe(c: Conn, events: seq<Event>)
    requires forall i :: 0 <= i < |events| && events[i].Completion? ==> Ordered(events[i].env.table)
    requires Safe(c) && DisciplinedRun(c, events)
    ensures Run(c, events).0 != LogicError
    ensures Run(c, events).0 == Fine ==> Safe(Run(c, events).1)
    ensures Run(c, events).0 == HandlerException ==> NothingSent(Run(c, events).1) && Run(c, events).1.calls <= 1
    ensures IsSet(c) ==> Run(c, events).1.delayed == c.delayed
    decreases events
  {
    if events == [] {
    } else {
      ThrowsIff(c, events[0]);
      ExceptionSendsNothing(c, events[0]);
      if Step(c, events[0]).0 == Fine {
        StepIsSafe(c, events[0]);
        RunIsSafe(Step(c, events[0]).1, events[1..]);
      }
    }
  }

  /** Data comes once the response is set: for an announced body after its completion, for any other
      request at all. */
  predicate LateData(isSet: bool, events: seq<Event>)
    decreases events
  {
    events != [] &&
    (|| (isSet && events[0].Data? && events[0].chunk != "")
     || LateData(isSet || events[0].Completion?, events[1..]))
  }

  // once a handler was called, its body stays what it was and the received one only grows
  lemma {:induction false} CalledHandlerKeepsBody(c: Conn, events: seq<Event>)
    requires forall i :: 0 <= i < |events| && events[i].Completion? ==> Ordered(events[i].env.table)
    requires Safe(c) && DisciplinedRun(c, events) && IsSet(c) && Run(c, events).0 == Fine
    ensures Run(c, events).1.delayed == c.delayed
    ensures |Run(c, events).1.body| >= |c.body|
    ensures Run(c, events).1.body == c.body <==> !LateData(true, events)
    decreases events
  {
    if events == [] {
    } else {
      var c' := Step(c, events[0]).1;
      StepIsSafe(c, events[0]);
      BodyOnlyGrows(c, events[0]);
      CalledHandlerKeepsBody(c', events[1..]);
    }
  }

  lemma WritingKeepsBody(c: Conn, resolution: Resolution, delivered: bool)
    requires Step(c, Writeable(resolution, delivered)).0 == Fine
    ensures Step(c, Writeable(resolution, delivered)).1.body == c.body
    ensures IsSet(c) && IsSet(Step(c, Writeable(resolution, delivered)).1)
  {
  }

  lemma BodyOnlyGrows(c: Conn, e: Event)
    requires Safe(c) && Disciplined(c, e) && Step(c, e).0 == Fine
    ensures Step(c, e).1.body == c.body + (if e.Data? then e.chunk else "")
    ensures IsSet(c) ==> IsSet(Step(c, e).1)
    ensures !IsSet(c) ==> IsSet(Step(c, e).1) == e.Completion? && HandlerSawBody(Step(c, e).1)
  {
    if e.Writeable? {
      hide *;
      WritingKeepsBody(c, e.resolution, e.delivered);
    }
  }

  /** A handler has seen all of the body that was received in the end exactly when no data came once
      the response was set. */
  lemma {:induction false} HandlerSawBodyIff(c: Conn, events: seq<Event>)
    requires forall i :: 0 <= i < |events| && events[i].Completion? ==> Ordered(events[i].env.table)
    requires Safe(c) && DisciplinedRun(c, events) && HandlerSawBody(c) && Run(c, events).0 == Fine
    requires HandlerCalled(Run(c, events).1)
    ensures HandlerSawBody(Run(c, events).1) <==> !LateData(IsSet(c), events)
    decreases events
  {
    if IsSet(c) {
      CalledHandlerKeepsBody(c, events);
    } else if events == [] {
      assert false;
    } else {
      StepIsSafe(c, events[0]);
      BodyOnlyGrows(c, events[0]);
      HandlerSawBodyIff(Step(c, events[0]).1, events[1..]);
    }
  }

  /** The failing input: a POST without a length is handled at once, with an empty body, and what is
      sent after it reaches no handler. */
  lemma BodyWithoutLengthIsMissed(env: Env, f: Func, chunk: string)
    requires Ordered(env.table) && env.filtered.None? && Registered(env.table, POST, "a") == Some(f)
    requires chunk != ""
    ensures var c := Open(env, New(POST, "a", 0, false, false)).1;
            var events := [Data(chunk), Completion(env)];
            && DisciplinedRun(c, events)
            && Run(c, events).0 == Fine
            && Run(c, events).1.body == chunk
            && Run(c, events).1.delayed == Some(Asked(f, "", ""))
  {
    RegisteredIsReached(env.table, POST, "a");
    var c := Open(env, New(POST, "a", 0, false, false)).1;
    assert c.delayed == Some(Asked(f, "", ""));
    var events := [Data(chunk), Completion(env)];
    var c1 := Step(c, Data(chunk)).1;
    assert c1.body == "" + chunk == chunk;
    assert events[1..] == [Completion(env)] && [Completion(env)][1..] == [];
    var c2 := c1.(completed := true);
    assert Step(c1, Completion(env)) == (Fine, c2);
    assert Run(c, events) == Run(c1, [Completion(env)]);
    assert Run(c1, [Completion(env)]) == Run(c2, []) == (Fine, c2);
  }

  /** Whole runs: no logic_error is ever thrown, a handler is called at most once, and what went out
      is a beginning of the headers followed by the body, the latter only if there is one; nothing
      went out before a handler's own exception. A handler was given all of the body that was received
      exactly when none of it came once the response was set; for a request without a length that is
      from the start. */
  lemma ConnectionIsSafe(env: Env, verb: Method, path: string, contentLength: nat, hasOrigin: bool,
                         corsHeaders: bool, events: seq<Event>)
    requires Ordered(env.table)
    requires forall i :: 0 <= i < |events| && events[i].Completion? ==> Ordered(events[i].env.table)
    requires DisciplinedRun(Open(env, New(verb, path, contentLength, hasOrigin, corsHeaders)).1, events)
    ensures var (outcome, c) := Run(Open(env, New(verb, path, contentLength, hasOrigin, corsHeaders)).1, events);
            && outcome != LogicError
            && c.calls <= 1
            && (outcome == HandlerException ==> NothingSent(c))
            && (outcome == Fine ==>
                  && c.trace <= [HeadersOf(c)] + (if c.response.body == "" then [] else [Body(c.response.body)])
                  && (HandlerCalled(c) ==>
                        (HandlerSawBody(c) <==>
                           !LateData(!CanHaveBody(New(verb, path, contentLength, hasOrigin, corsHeaders)), events))))
  {
    OpenedIsSafe(env, verb, path, contentLength, hasOrigin, corsHeaders);
    var c := Open(env, New(verb, path, contentLength, hasOrigin, corsHeaders)).1;
    hide Open, Step, Safe, HandlerSawBody;
    RunIsSafe(c, events);
    SafeMeans(Run(c, events).1);
    if Run(c, events).0 == Fine && HandlerCalled(Run(c, events).1) {
      HandlerSawBodyIff(c, events);
    }
  }

  lemma SafeMeans(c: Conn)
    ensures Safe(c) ==> c.calls <= 1 && c.trace <= FullTrace(c)
  {
  }

  /** A set response whose future is resolved goes out completely with the callbacks that were
      asked for: one for the headers, one more for the body if there is one. */
  lemma ResolvedResponseIsSent(c: Conn, resolution: Resolution)
    requires Safe(c) && c.wantsWrite && !c.headersSent
    requires IsReady(c, resolution) && Final(c, resolution).Some?
    ensures var (first, c1) := Step(c, Writeable(resolution, true));
            && first == Fine
            && c1.response == Final(c, resolution).value
            && (c1.wantsWrite <==> c1.response.body != "")
            && (!c1.wantsWrite ==> c1.trace == FullTrace(c1) && AllSent(c1))
            && (c1.wantsWrite ==>
                  var (second, c2) := Step(c1, Writeable(resolution, true));
                  second == Fine && c2.trace == FullTrace(c1) && AllSent(c2) && !c2.wantsWrite)
  {
  }

  // ---- what the client gets ----

  /** Writable callbacks that are delivered send r: its status line and headers with the length of its
      body, and then the body if there is one. */
  ghost predicate Sends(c: Conn, resolution: Resolution, r: Response) {
    var (first, c1) := Step(c, Writeable(resolution, true));
    var headers := Headers(r.code, |r.body|, r.allow, r.contentType, c.cors);
    && first == Fine
    && c1.trace == [headers]
    && (c1.wantsWrite <==> r.body != "")
    && (r.body != "" ==>
          var (second, c2) := Step(c1, Writeable(resolution, true));
          second == Fine && c2.trace == [headers, Body(r.body)] && !c2.wantsWrite)
  }

  /** The client gets exactly what the handler's future holds. */
  lemma HandlerAnswerIsSent(c: Conn, r: Response)
    requires Safe(c) && c.wantsWrite && !c.headersSent && !c.finalized && HandlerCalled(c)
    ensures Sends(c, Value(r), r)
  {
  }

  /** A handler that breaks its promise is answered for with code 500. */
  lemma BrokenPromiseIsSent(c: Conn)
    requires Safe(c) && c.wantsWrite && !c.headersSent && !c.finalized && HandlerCalled(c)
    ensures Sends(c, BrokenPromise, Response(500, "", "", ""))
  {
  }

  lemma ReadyAnswerIsSent(c: Conn, resolution: Resolution, r: Response)
    requires Safe(c) && c.wantsWrite && !c.headersSent && !c.finalized && c.delayed == Some(Ready(r))
    ensures Sends(c, resolution, r)
  {
  }

  /** Another exception of the handler leaves writeResponse, and nothing is sent. */
  lemma RaisedIsRethrown(c: Conn, delivered: bool)
    requires Safe(c) && c.wantsWrite && !c.headersSent && !c.finalized && HandlerCalled(c)
    ensures Step(c, Writeable(Raised, delivered)) == (HandlerException, c.(wantsWrite := false))
  {
  }

  /** What could not be written is not tried again, and counts as sent. */
  lemma FailedWriteIsFinal(c: Conn, r: Response)
    requires Safe(c) && c.wantsWrite && !c.headersSent && !c.finalized && HandlerCalled(c)
    ensures var (outcome, c') := Step(c, Writeable(Value(r), false));
            outcome == Fine && c'.headersSent && c'.trace == [] && !c'.wantsWrite
  {
  }

  // while the future is not ready, nothing is sent and another callback is asked for
  lemma UnresolvedAnswerWaits(c: Conn, delivered: bool)
    requires Safe(c) && c.wantsWrite && !c.headersSent && !c.finalized && HandlerCalled(c)
    ensures Step(c, Writeable(Unresolved, delivered)) == (Fine, c)
  {
  }

  // the bodies of POST, PUT and PATCH are waited for if their length is announced
  predicate AwaitsBody(verb: Method, contentLength: nat) {
    (verb == POST || verb == PUT || verb == PATCH) && contentLength > 0
  }

  function Stripped(path: string): string {
    if path != "" && path[0] == '/' then path[1..] else path
  }

  /** A preflight is answered at once, with the methods of its path. */
  lemma PreflightIsAnswered(env: Env, path: string, contentLength: nat, hasOrigin: bool, resolution: Resolution)
    requires Ordered(env.table)
    ensures var c := Open(env, New(OPTIONS, path, contentLength, hasOrigin, true)).1;
            && c.delayed == None && c.wantsWrite && c.calls == 0 && c.cors.Preflight?
            && Split(c.cors.methods) == Allowed(env.table, Stripped(path))
            && Sends(c, resolution, Response(200, "", "", ""))
  {
    AllowNamesRegistered(env.table, Stripped(path), OPTIONS);
    hide Split, Allowed, Join;
  }

  /** Any other new request: one whose body is announced waits for it, all others are given their
      answer. */
  lemma OpenDecides(env: Env, verb: Method, path: string, contentLength: nat, hasOrigin: bool, corsHeaders: bool)
    requires Ordered(env.table) && !(verb == OPTIONS && corsHeaders)
    ensures var c := Open(env, New(verb, path, contentLength, hasOrigin, corsHeaders)).1;
            && c.cors == (if hasOrigin then AnyOrigin else NoCors)
            && (if AwaitsBody(verb, contentLength)
                then c.delayed == None && !c.finalized && !c.wantsWrite && c.calls == 0
                else
                  && c.wantsWrite && !c.finalized && !c.headersSent
                  && c.delayed == Some(Generate(env, New(verb, path, contentLength, hasOrigin, corsHeaders)).0))
  {
  }

  // the completion of the body does what opening did not
  lemma CompletionDecides(env: Env, c: Conn)
    requires Ordered(env.table) && Safe(c) && CanHaveBody(c) && !c.completed
    ensures var (outcome, c') := Step(c, Completion(env));
            && outcome == Fine && c'.wantsWrite && !c'.finalized && !c'.headersSent && c'.cors == c.cors
            && c'.delayed == Some(Generate(env, c).0)
  {
  }

  /** A second completion of a body asks the handler once more before it throws; the first answer
      stays. */
  lemma SecondCompletionThrows(env: Env, c: Conn)
    requires Ordered(env.table) && Safe(c) && CanHaveBody(c) && c.completed
    ensures var (outcome, c') := Step(c, Completion(env));
            && outcome == LogicError && c'.delayed == c.delayed && c'.trace == c.trace
            && c'.calls == c.calls + if Generate(env, c).0.Asked? then 1 else 0
  {
    hide Decide;
  }

  /** The answer to a request: the filter's own, the list of the registry, or that of the handler that
      is registered for the path, which is given the body received so far. */
  lemma GenerateAnswers(env: Env, c: Conn)
    requires Ordered(env.table)
    ensures var p, (future, c') := Stripped(c.path), Generate(env, c);
            if env.filtered.Some? then future == Ready(env.filtered.value) && c' == c
            else if c.verb == GET && p == "registry" then
              future == Ready(Response(200, env.dump(RegistryJson(env.table)), "", "application/json")) && c' == c
            else if Registered(env.table, c.verb, p).Some? then
              && future == Asked(Registered(env.table, c.verb, p).value, if p == "/" then "/" else "", c.body)
              && c'.calls == c.calls + 1
            else
              match future
              case Asked(func, rest, body) => body == c.body && c'.calls == c.calls + 1
              case Ready(r) => c' == c
  {
    DecideDecides(env.table, env.filtered.Some?, c.verb, Stripped(c.path));
    hide Decide, Registered, Allowed, Split, Join, RegistryJson, Name;
  }

  /** A handler of another endpoint is the one registered for it, and is given the rest of the path. */
  lemma OtherHandlerIsAsked(env: Env, c: Conn)
    requires Ordered(env.table) && env.filtered.None? && Generate(env, c).0.Asked?
    ensures var p, future := Stripped(c.path), Generate(env, c).0;
            exists e :: Registered(env.table, c.verb, e) == Some(future.func)
                        && (if e == "/" then future.path == p else e + future.path == p)
  {
    var p := Stripped(c.path);
    ChosenHandlerGetsTheRest(env.table, false, c.verb, p);
    hide Registered;
  }

  /** A refusal: 405 with the methods of the path, 404 if it has none. */
  lemma RefusalIsAnswered(env: Env, c: Conn, other: Method)
    requires Ordered(env.table) && env.filtered.None? && !(c.verb == GET && Stripped(c.path) == "registry")
    requires Generate(env, c).0.Ready?
    ensures var p, r := Stripped(c.path), Generate(env, c).0.response;
            && r.body == "" && r.contentType == ""
            && (r.code == 405 || r.code == 404)
            && (r.code == 404 <==> r.allow == "")
            && Split(r.allow) == Allowed(env.table, p)
            && (Name(other) in Split(r.allow) <==> Registered(env.table, other, p).Some?)
  {
    var p := Stripped(c.path);
    DecideDecides(env.table, false, c.verb, p);
    AllowNamesRegistered(env.table, p, other);
    hide Decide, Registered, Allowed, RegistryJson, Name;
  }

  /** From the request to the wire: a registered path whose handler answers r. */
  lemma RegisteredPathIsServed(env: Env, verb: Method, path: string, hasOrigin: bool, r: Response)
    requires Ordered(env.table) && env.filtered.None? && (path == "" || path[0] != '/')
    requires Registered(env.table, verb, path).Some? && !(verb == GET && path == "registry")
    ensures var c := Open(env, New(verb, path, 0, hasOrigin, false)).1;
            Sends(c, Value(r), r) && c.cors == (if hasOrigin then AnyOrigin else NoCors)
  {
    OpenedIsSafe(env, verb, path, 0, hasOrigin, false);
    OpenDecides(env, verb, path, 0, hasOrigin, false);
    GenerateAnswers(env, New(verb, path, 0, hasOrigin, false));
    hide Open, Generate, Safe, Sends;
    HandlerAnswerIsSent(Open(env, New(verb, path, 0, hasOrigin, false)).1, r);
  }

  // ---- the connection object and its handler ----

  class Connection {
    const verb: Method
    const contentLength: nat
    const corsHeaders: bool
    var path: string
    var body: string
    var cors: Cors
    var delayed: Option<Future>
    var finalized: bool
    var response: Response
    var headersSent: bool
    var bodySent: bool
    var wantsWrite: bool
    var completed: bool
    var calls: nat
    var trace: seq<Wire>

    constructor (verb: Method, path: string, contentLength: nat, hasOrigin: bool, corsHeaders: bool)
      ensures View() == New(verb, path, contentLength, hasOrigin, corsHeaders)
    {
      this.verb, this.path, this.contentLength, this.corsHeaders := verb, path, contentLength, corsHeaders;
      body, cors := "", if hasOrigin then AnyOrigin else NoCors;
      delayed, finalized, response := None, false, Plain(OK);
      headersSent, bodySent, wantsWrite, completed, calls, trace := false, false, false, false, 0, [];
    }

    function View(): Conn
      reads this
    {
      Conn(verb, path, body, contentLength, corsHeaders, cors, delayed, finalized, response,
           headersSent, bodySent, wantsWrite, completed, calls, trace)
    }

    method SetResponse(future: Future) returns (outcome: Outcome)
      modifies this`delayed
      ensures outcome == if old(IsSet(View())) then LogicError else Fine
      ensures delayed == if outcome == Fine then Some(future) else old(delayed)
    {
      if delayed.Some? || finalized {
        return LogicError;
      }
      delayed := Some(future);
      return Fine;
    }

    method SetCorsResponseHeaders(headers: Cors) returns (outcome: Outcome)
      modifies this`cors, this`finalized
      ensures outcome == if old(IsSet(View())) then LogicError else Fine
      ensures cors == (if outcome == Fine then headers else old(cors)) && finalized == (outcome == Fine || old(finalized))
    {
      if delayed.Some? || finalized {
        return LogicError;
      }
      cors := headers;
      finalized := true;
      return Fine;
    }

    // _callHandler and the ready responses
    method GenerateResponse(env: Env) returns (future: Future)
      requires Ordered(env.table)
      modifies this`path, this`calls
      ensures (future, View()) == Generate(env, old(View()))
    {
      if env.filtered.Some? {
        return Ready(env.filtered.value);
      }
      match Decide(env.table, false, verb, WithoutLeadingSlash(path)) {
        case ListRegistry => future := Ready(Response(OK, env.dump(RegistryJson(env.table)), "", "application/json"));
        case Call(_, rest, func) =>
          path := rest;
          calls := calls + 1;
          future := Asked(func, path, body);
        case NotSupported(allow) => future := Ready(Response(NOT_SUPPORTED, "", allow, ""));
        case NotFound => future := Ready(Plain(NOT_FOUND));
      }
    }

    method PrepareResponse(env: Env) returns (outcome: Outcome)
      requires Ordered(env.table)
      modifies this`path, this`calls, this`delayed, this`wantsWrite
      ensures (outcome, View()) == Prepare(env, old(View()))
    {
      if !CanHaveBody(View()) && IsSet(View()) {
        return Fine;
      }
      var future := GenerateResponse(env);
      outcome := SetResponse(future);
      if outcome == Fine {
        wantsWrite := true;
      }
    }

    method HandleNewRequest(env: Env) returns (outcome: Outcome)
      requires Ordered(env.table)
      modifies this
      ensures (outcome, View()) == Open(env, old(View()))
    {
      if IsPreflight(View()) {
        outcome := SetCorsResponseHeaders(Preflight(Join(Allowed(env.table, WithoutLeadingSlash(path)))));
        if outcome == Fine {
          wantsWrite := true;
        }
      } else if !CanHaveBody(View()) {
        outcome := PrepareResponse(env);
      } else {
        outcome := Fine;
      }
    }

    method HandleData(chunk: string)
      modifies this`body
      ensures (Fine, View()) == Step(old(View()), Data(chunk))
    {
      body := body + chunk;
    }

    method HandleBodyCompletion(env: Env) returns (outcome: Outcome)
      requires Ordered(env.table)
      modifies this
      ensures (outcome, View()) == Step(old(View()), Completion(env))
    {
      outcome := PrepareResponse(env);
      completed := true;
    }

    method WriteResponseHeaders(resolution: Resolution, delivered: bool) returns (outcome: Outcome)
      requires IsReady(View(), resolution)
      modifies this`response, this`finalized, this`headersSent, this`trace, this`wantsWrite
      ensures (outcome, View()) == WriteHeaders(old(View()), resolution, delivered)
    {
      if headersSent || bodySent {
        return LogicError;
      }
      if !finalized {
        var final := Final(View(), resolution);
        if final.None? {
          return HandlerException;
        }
        response := final.value;
        finalized := true;
      }
      headersSent := true;
      if delivered {
        trace := trace + [HeadersOf(View())];
        wantsWrite := response.body != "";
      }
      return Fine;
    }

    method WriteResponseBody(delivered: bool) returns (outcome: Outcome)
      modifies this`bodySent, this`trace
      ensures (outcome, View()) == WriteBody(old(View()), delivered)
    {
      if !headersSent || bodySent || response.body == "" {
        return LogicError;
      }
      bodySent := true;
      if delivered {
        trace := trace + [Body(response.body)];
      }
      return Fine;
    }

    /** A writable callback. */
    method WriteResponse(resolution: Resolution, delivered: bool) returns (outcome: Outcome)
      modifies this
      ensures (outcome, View()) == Step(old(View()), Writeable(resolution, delivered))
    {
      wantsWrite := false;
      if !IsSet(View()) {
        return LogicError;
      }
      if !IsReady(View(), resolution) {
        wantsWrite := true;
        return Fine;
      }
      if !headersSent {
        outcome := WriteResponseHeaders(resolution, delivered);
      } else {
        outcome := WriteResponseBody(delivered);
      }
    }
  }
}
