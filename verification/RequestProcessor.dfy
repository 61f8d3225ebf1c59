/** The JSON-RPC 2.0 request processor: single requests, batches, and the text interface. */
module RequestProcessor {
  import opened Wrappers
  import opened JsonModel
  import opened JsonRpcMessages
  import opened ReceiverLayers

  // one run of a registered callback: its parameters as text, and the client that sent them
  datatype Call = Call(target: Target, params: string, client: nat)

  /** The surroundings of a processor. A callback's answer may depend on all calls before it;
      callbacks answer before they return. */
  datatype Env = Env(codec: Codec, methods: Methods, answer: (seq<Call>, Call) -> Response)

  const PARSE_ERROR_OBJECT := Error("Parse error", PARSE_ERROR, "")
  const INVALID_REQUEST_OBJECT := Error("Invalid Request", INVALID_REQUEST, "")
  const INVALID_PARAMS_OBJECT := Error("Invalid params", INVALID_PARAMS, "")
  const METHOD_NOT_FOUND_OBJECT := Error("Method not found", METHOD_NOT_FOUND, "")

  // an error of the processor itself carries no data, so it can always be encoded
  function PlainError(error: Error, id: Json): Json {
    ErrorMessage(Obj(map["code" := Int(error.code), "message" := Str(error.message)]), id)
  }

  lemma PlainErrorIsRepresentable(error: Error, id: Json)
    requires Representable(id)
    ensures Representable(PlainError(error, id))
  {
    ErrorIsRepresentable(error, Null);
    MessageIsRepresentable(Obj(map["code" := Int(error.code), "message" := Str(error.message)]), id);
  }

  predicate VersionIsNoString(request: Json) {
    request.Has("jsonrpc") && !request.Get("jsonrpc").Str?
  }

  predicate WellFormed(request: Json) {
    && request.Has("jsonrpc") && request.Get("jsonrpc") == Str("2.0")
    && request.Has("method") && request.Get("method").Str?
    && (request.Has("params") ==> request.Get("params").Obj? || request.Get("params").Arr?)
    && (request.Has("id") ==> request.Get("id").IsNumber() || request.Get("id").Str?)
  }

  function IdOf(request: Json): Json {
    if request.Has("id") then request.Get("id") else Null
  }

  function Dump(codec: Codec, json: Json): string {
    if json.Null? then "" else codec.dump(json)
  }

  function ParamsText(codec: Codec, request: Json): string {
    if request.Has("params") then Dump(codec, request.Get("params")) else ""
  }

  function MethodOf(request: Json): string
    requires WellFormed(request)
  {
    request.Get("method").s
  }

  function CallOf(env: Env, request: Json, client: nat): Call
    requires WellFormed(request)
  {
    Call(Dispatch(env.methods, MethodOf(request)), ParamsText(env.codec, request), client)
  }

  /** _processCommand: what is responded (Null for nothing) and the calls made so far. */
  function Command(env: Env, log: seq<Call>, request: Json, client: nat): (Outcome<Json>, seq<Call>) {
    var id := IdOf(request);
    if VersionIsNoString(request) then (ThrowsTypeError, log)
    else if !WellFormed(request) then
      (Returns(if id.Null? then Null else PlainError(INVALID_REQUEST_OBJECT, id)), log)
    else if !IsRegistered(env.methods, MethodOf(request)) then
      (Returns(if id.Null? then Null else PlainError(METHOD_NOT_FOUND_OBJECT, id)), log)
    else
      var call := CallOf(env, request, client);
      if call.target == Intercept then (Returns(Null), log)
      else
        var rep := env.answer(log, call);
        (if id.Null? then Returns(Null) else MakeResponse(env.codec, rep, id), log + [call])
  }

  function Entry(env: Env, log: seq<Call>, entry: Json, client: nat): (Outcome<Json>, seq<Call>) {
    if entry.Obj? then Command(env, log, entry, client)
    else (Returns(PlainError(INVALID_REQUEST_OBJECT, Null)), log)
  }

  function Kept(response: Json): seq<Json> {
    if response.Null? then [] else [response]
  }

  function Batch(env: Env, log: seq<Call>, entries: seq<Json>, client: nat): (Outcome<seq<Json>>, seq<Call>)
    decreases entries
  {
    if entries == [] then (Returns([]), log)
    else
      var (first, log1) := Entry(env, log, entries[0], client);
      match first
      case ThrowsParseError(text) => (ThrowsParseError(text), log1)
      case ThrowsTypeError => (ThrowsTypeError, log1)
      case Returns(response) =>
        var (rest, log2) := Batch(env, log1, entries[1..], client);
        (Prepend(Kept(response), rest), log2)
  }

  function Prepend(done: seq<Json>, rest: Outcome<seq<Json>>): Outcome<seq<Json>> {
    if rest.Returns? then Returns(done + rest.value) else rest
  }

  lemma PrependNothing(rest: Outcome<seq<Json>>)
    ensures Prepend([], rest) == rest
  {
    assert rest.Returns? ==> [] + rest.value == rest.value;
  }

  lemma PrependTwice(done: seq<Json>, more: seq<Json>, rest: Outcome<seq<Json>>)
    ensures Prepend(done, Prepend(more, rest)) == Prepend(done + more, rest)
  {
    assert rest.Returns? ==> done + (more + rest.value) == done + more + rest.value;
  }

  // an array that was never pushed to is still null
  function AsArray(responses: seq<Json>): Json {
    if responses == [] then Null else Arr(responses)
  }

  function ParseFailure(codec: Codec, text: string): string {
    codec.dump(MakeErrorWithData(PARSE_ERROR_OBJECT, Null, Str(codec.what(text))))
  }

  lemma ParseFailureParses(codec: Codec, text: string)
    requires codec.Lawful()
    ensures ParseFailure(codec, text) != ""
    ensures codec.parse(ParseFailure(codec, text))
            == Some(MakeErrorWithData(PARSE_ERROR_OBJECT, Null, Str(codec.what(text))))
    ensures MakeErrorWithData(PARSE_ERROR_OBJECT, Null, Str(codec.what(text))).Get("error")
            == Obj(map["code" := Int(-32700), "message" := Str("Parse error"), "data" := Str(codec.what(text))])
  {
    var data := Str(codec.what(text));
    ErrorIsRepresentable(PARSE_ERROR_OBJECT, data);
    MessageIsRepresentable(MakeErrorWithData(PARSE_ERROR_OBJECT, Null, data).Get("error"), Null);
    DumpIsNotEmpty(codec, MakeErrorWithData(PARSE_ERROR_OBJECT, Null, data));
  }

  // the try block around everything: a parse error becomes a response, a type error leaves process()
  function Caught(codec: Codec, outcome: Outcome<Json>): Outcome<string> {
    match outcome
    case Returns(json) => Returns(Dump(codec, json))
    case ThrowsParseError(text) => Returns(ParseFailure(codec, text))
    case ThrowsTypeError => ThrowsTypeError
  }

  function BatchOutcome(outcome: Outcome<seq<Json>>): Outcome<Json> {
    match outcome
    case Returns(responses) => Returns(AsArray(responses))
    case ThrowsParseError(text) => ThrowsParseError(text)
    case ThrowsTypeError => ThrowsTypeError
  }

  function ProcessText(env: Env, log: seq<Call>, text: string, client: nat): (Outcome<string>, seq<Call>) {
    match env.codec.parse(text)
    case None => (Returns(ParseFailure(env.codec, text)), log)
    case Some(Obj(members)) =>
      var (r, log') := Command(env, log, Obj(members), client);
      (Caught(env.codec, r), log')
    case Some(Arr(items)) =>
      var (r, log') := Batch(env, log, items, client);
      (Caught(env.codec, BatchOutcome(r)), log')
    case Some(_) => (Returns(env.codec.dump(PlainError(INVALID_PARAMS_OBJECT, Null))), log)
  }

  class Processor {
    const env: Env
    var log: seq<Call>

    constructor (env: Env)
      ensures this.env == env && log == []
    {
      this.env := env;
      log := [];
    }

    method ProcessCommand(request: Json, client: nat) returns (r: Outcome<Json>)
      modifies this`log
      ensures (r, log) == Command(env, old(log), request, client)
    {
      var id := if request.Has("id") then request.Get("id") else Null;
      var isNotification := id.Null?;
      if VersionIsNoString(request) {
        return ThrowsTypeError;
      }
      if !WellFormed(request) {
        return Returns(if isNotification then Null else PlainError(INVALID_REQUEST_OBJECT, id));
      }
      var name := request.Get("method").s;
      if !IsRegistered(env.methods, name) {
        return Returns(if isNotification then Null else PlainError(METHOD_NOT_FOUND_OBJECT, id));
      }
      var params := if request.Has("params") then Dump(env.codec, request.Get("params")) else "";
      var target := Dispatch(env.methods, name);
      if target == Intercept {
        return Returns(Null);
      }
      var rep := env.answer(log, Call(target, params, client));
      log := log + [Call(target, params, client)];
      r := if isNotification then Returns(Null) else MakeResponse(env.codec, rep, id);
    }

    method ProcessValidBatch(entries: seq<Json>, client: nat) returns (r: Outcome<Json>)
      modifies this`log
      ensures r == BatchOutcome(Batch(env, old(log), entries, client).0)
      ensures log == Batch(env, old(log), entries, client).1
    {
      var responses: Json := Null;
      ghost var done: seq<Json> := [];
      assert entries[0..] == entries;
      PrependNothing(Batch(env, log, entries, client).0);
      for i := 0 to |entries|
        invariant responses == AsArray(done)
        invariant var (rest, log') := Batch(env, log, entries[i..], client);
                  Batch(env, old(log), entries, client) == (Prepend(done, rest), log')
      {
        var response: Json;
        if entries[i].Obj? {
          var outcome := ProcessCommand(entries[i], client);
          match outcome {
            case ThrowsParseError(text) => return ThrowsParseError(text);
            case ThrowsTypeError => return ThrowsTypeError;
            case Returns(value) => response := value;
          }
        } else {
          response := PlainError(INVALID_REQUEST_OBJECT, Null);
        }
        if !response.Null? {
          responses := if responses.Null? then Arr([response]) else Arr(responses.items + [response]);
        }
        assert entries[i..][1..] == entries[i + 1..];
        PrependTwice(done, Kept(response), Batch(env, log, entries[i + 1..], client).0);
        done := done + Kept(response);
      }
      assert done + [] == done;
      r := Returns(responses);
    }

    method Process(text: string, client: nat) returns (r: Outcome<string>)
      modifies this`log
      ensures (r, log) == ProcessText(env, old(log), text, client)
    {
      match env.codec.parse(text) {
        case None =>
          r := Returns(ParseFailure(env.codec, text));
        case Some(document) =>
          if document.Obj? {
            var outcome := ProcessCommand(document, client);
            r := Caught(env.codec, outcome);
          } else if document.Arr? {
            if document.items == [] {
              r := Returns("");
            } else {
              var outcome := ProcessValidBatch(document.items, client);
              r := Caught(env.codec, outcome);
            }
          } else {
            r := Returns(env.codec.dump(PlainError(INVALID_PARAMS_OBJECT, Null)));
          }
      }
    }
  }
}
