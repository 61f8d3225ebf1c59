/** JSON-RPC 2.0 responses: how the server encodes what a handler returned, and how the requester
    checks and decodes what it received. */
module JsonRpcMessages {
  import opened Wrappers
  import opened JsonModel

  // C++ int
  type Int32 = x: int | -0x8000_0000 <= x < 0x8000_0000

  const PARSE_ERROR: Int32 := -32700
  const INVALID_REQUEST: Int32 := -32600
  const METHOD_NOT_FOUND: Int32 := -32601
  const INVALID_PARAMS: Int32 := -32602
  const INTERNAL_ERROR: Int32 := -32603
  const REQUEST_ABORTED: Int32 := -31002

  datatype Error = Error(message: string, code: Int32, data: string)

  const NO_ERROR := Error("", 0, "")

  datatype Response = Response(result: string, error: Error) {
    predicate IsError() {
      error.code != 0
    }
  }

  const INVALID_PARAMS_RESPONSE := Response("", Error("Invalid params", INVALID_PARAMS, ""))

  /** What a call ends with: a value, or one of the two JSON exceptions. */
  datatype Outcome<+T> = Returns(value: T) | ThrowsParseError(text: string) | ThrowsTypeError

  // ---- the server half ----

  function ErrorMessage(error: Json, id: Json): Json {
    Obj(map["jsonrpc" := Str("2.0"), "error" := error, "id" := id])
  }

  function ResultMessage(result: Json, id: Json): Json {
    Obj(map["jsonrpc" := Str("2.0"), "result" := result, "id" := id])
  }

  function MakeErrorWithData(error: Error, id: Json, data: Json): Json {
    ErrorMessage(Obj(map["code" := Int(error.code), "message" := Str(error.message), "data" := data]), id)
  }

  // the data of an error is JSON text; text that is none throws out of this function
  function MakeErrorResponse(codec: Codec, error: Error, id: Json): Outcome<Json> {
    if error.data == "" then
      Returns(ErrorMessage(Obj(map["code" := Int(error.code), "message" := Str(error.message)]), id))
    else
      match codec.parse(error.data)
      case Some(data) => Returns(MakeErrorWithData(error, id, data))
      case None => ThrowsParseError(error.data)
  }

  const RESPONSE_PARSE_ERROR := "Server response is not a valid json string"

  function MakeResultResponse(codec: Codec, resultJson: string, id: Json): Json {
    match codec.parse(resultJson)
    case Some(result) => ResultMessage(result, id)
    case None => MakeErrorWithData(Error("Internal error", INTERNAL_ERROR, ""), id, Str(RESPONSE_PARSE_ERROR))
  }

  function MakeResponse(codec: Codec, rep: Response, id: Json): Outcome<Json> {
    if rep.IsError() then MakeErrorResponse(codec, rep.error, id)
    else Returns(MakeResultResponse(codec, rep.result, id))
  }

  // ---- the requester half ----

  predicate IsValidError(error: Json) {
    && error.Obj?
    && error.Has("code") && error.Get("code").IsNumberInteger()
    && error.Has("message") && error.Get("message").Str?
  }

  predicate IsValidId(id: Json) {
    id.IsNumberInteger() || id.Str? || id.Null?
  }

  predicate HasResultOrError(json: Json) {
    || (json.Has("result") && !json.Has("error"))
    || (json.Has("error") && !json.Has("result") && IsValidError(json.Get("error")))
  }

  // the version is read as a string before it is compared
  function IsValidJsonRpcResponse(json: Json): Outcome<bool> {
    if !json.Has("jsonrpc") then Returns(false)
    else if !json.Get("jsonrpc").Str? then ThrowsTypeError
    else
      Returns(&& json.Get("jsonrpc") == Str("2.0")
              && HasResultOrError(json)
              && json.Has("id") && IsValidId(json.Get("id")))
  }

  /** What is accepted as a response: an object of version 2.0 with either a result or an error, the error
      an object with an integer code and a message, and an id that is an integer, a string or null. */
  lemma ResponseIsValidIff(json: Json)
    ensures IsValidJsonRpcResponse(json) == Returns(true) <==>
              && json.Obj?
              && "jsonrpc" in json.members && json.members["jsonrpc"] == Str("2.0")
              && ("result" in json.members <==> "error" !in json.members)
              && ("error" in json.members ==>
                    var error := json.members["error"];
                    && error.Obj?
                    && "code" in error.members && error.members["code"].Int?
                    && "message" in error.members && error.members["message"].Str?)
              && "id" in json.members
              && (json.members["id"].Int? || json.members["id"].Str? || json.members["id"].Null?)
  {
  }

  // get<int>() of a 64-bit number keeps the low 32 bits
  function ToInt32(n: int): Int32 {
    (n + 0x8000_0000) % 0x1_0000_0000 - 0x8000_0000
  }

  lemma LowBitsAreKept(n: int)
    ensures (ToInt32(n) - n) % 0x1_0000_0000 == 0
    ensures -0x8000_0000 <= n < 0x8000_0000 ==> ToInt32(n) == n
  {
    var k := (n + 0x8000_0000) / 0x1_0000_0000;
    assert n + 0x8000_0000 == 0x1_0000_0000 * k + (n + 0x8000_0000) % 0x1_0000_0000;
    assert ToInt32(n) - n == 0x1_0000_0000 * -k;
  }

  function DecodeResponse(codec: Codec, json: Json): Response
    requires HasResultOrError(json)
  {
    if json.Has("error") then
      var error := json.Get("error");
      Response("", Error(error.Get("message").s, ToInt32(error.Get("code").n),
                         if error.Has("data") then codec.dump(error.Get("data")) else ""))
    else
      Response(codec.dump(json.Get("result")), NO_ERROR)
  }

  // ---- the round trip ----

  predicate IsJson(codec: Codec, text: string) {
    codec.parse(text).Some?
  }

  // the same JSON, in the printer's own layout
  function Reformat(codec: Codec, text: string): string {
    match codec.parse(text)
    case Some(j) => codec.dump(j)
    case None => ""
  }

  // the data of an error can be encoded
  predicate Encodable(codec: Codec, rep: Response) {
    rep.IsError() && rep.error.data != "" ==> IsJson(codec, rep.error.data)
  }

  /** What the requester's callback is to receive when a handler returned rep. */
  function Delivered(codec: Codec, rep: Response): Response {
    if rep.IsError() then
      Response("", Error(rep.error.message, rep.error.code, Reformat(codec, rep.error.data)))
    else if IsJson(codec, rep.result) then
      Response(Reformat(codec, rep.result), NO_ERROR)
    else
      Response("", Error("Internal error", -32603, codec.dump(Str("Server response is not a valid json string"))))
  }

  // got says the same as rep; a result that is no JSON has become an internal error
  predicate SameMeaning(codec: Codec, got: Response, rep: Response) {
    if rep.IsError() then
      && got.error.code == rep.error.code
      && got.error.message == rep.error.message
      && (got.error.data == "" <==> rep.error.data == "")
      && codec.parse(got.error.data) == codec.parse(rep.error.data)
    else if IsJson(codec, rep.result) then
      !got.IsError() && codec.parse(got.result) == codec.parse(rep.result)
    else
      got.error.code == INTERNAL_ERROR
  }

  lemma MessageIsRepresentable(body: Json, id: Json)
    requires Representable(body) && Representable(id)
    ensures Representable(ErrorMessage(body, id)) && Representable(ResultMessage(body, id))
  {
  }

  lemma ErrorIsRepresentable(error: Error, data: Json)
    requires Representable(data)
    ensures Representable(Obj(map["code" := Int(error.code), "message" := Str(error.message)]))
    ensures Representable(Obj(map["code" := Int(error.code), "message" := Str(error.message), "data" := data]))
  {
  }

  lemma ErrorResponseIsRepresentable(codec: Codec, error: Error, id: Json)
    requires codec.Lawful() && Representable(id) && MakeErrorResponse(codec, error, id).Returns?
    ensures Representable(MakeErrorResponse(codec, error, id).value)
  {
    var data := if codec.parse(error.data).Some? then codec.parse(error.data).value else Null;
    TextsAreRepresentable("");
    assert Representable(data);
    ErrorIsRepresentable(error, data);
    hide Representable;
    MessageIsRepresentable(MakeErrorResponse(codec, error, id).value.Get("error"), id);
  }

  lemma ResultResponseIsRepresentable(codec: Codec, result: string, id: Json)
    requires codec.Lawful() && Representable(id)
    ensures Representable(MakeResultResponse(codec, result, id))
  {
    TextsAreRepresentable(RESPONSE_PARSE_ERROR);
    ErrorIsRepresentable(Error("Internal error", INTERNAL_ERROR, ""), Str(RESPONSE_PARSE_ERROR));
    hide Representable;
    match codec.parse(result)
    case Some(value) => MessageIsRepresentable(value, id);
    case None => MessageIsRepresentable(MakeResultResponse(codec, result, id).Get("error"), id);
  }

  // what the server prints can be printed
  lemma ResponseIsRepresentable(codec: Codec, rep: Response, id: Json)
    requires codec.Lawful() && Representable(id) && MakeResponse(codec, rep, id).Returns?
    ensures Representable(MakeResponse(codec, rep, id).value)
  {
    hide Representable, MakeErrorResponse, MakeResultResponse;
    if rep.IsError() {
      ErrorResponseIsRepresentable(codec, rep.error, id);
    } else {
      ResultResponseIsRepresentable(codec, rep.result, id);
    }
  }

  lemma TextsAreRepresentable(text: string)
    ensures Representable(Str(text)) && Representable(Null)
  {
  }

  lemma ReformatKeepsMeaning(codec: Codec, text: string)
    requires codec.Lawful() && IsJson(codec, text)
    ensures codec.parse(Reformat(codec, text)) == codec.parse(text)
  {
    assert codec.parse(codec.dump(codec.parse(text).value)) == codec.parse(text);
  }

  // what becomes of a response on its way: message carries rep under id
  predicate Carries(codec: Codec, message: Json, rep: Response, id: Json) {
    && IsValidJsonRpcResponse(message) == Returns(true)
    && message.Get("id") == id
    && SameMeaning(codec, DecodeResponse(codec, message), rep)
    && DecodeResponse(codec, message) == Delivered(codec, rep)
  }

  lemma ErrorRoundTrip(codec: Codec, rep: Response, id: Json)
    requires codec.Lawful() && IsValidId(id) && rep.IsError() && Encodable(codec, rep)
    ensures MakeResponse(codec, rep, id).Returns? && Carries(codec, MakeResponse(codec, rep, id).value, rep, id)
  {
    if IsJson(codec, rep.error.data) {
      ReformatKeepsMeaning(codec, rep.error.data);
    }
  }

  lemma ResultRoundTrip(codec: Codec, rep: Response, id: Json)
    requires codec.Lawful() && IsValidId(id) && !rep.IsError()
    ensures MakeResponse(codec, rep, id).Returns? && Carries(codec, MakeResponse(codec, rep, id).value, rep, id)
  {
    if IsJson(codec, rep.result) {
      ReformatKeepsMeaning(codec, rep.result);
    }
  }

  /** Everything a handler can return is encoded, accepted and decoded under the id it was encoded
      for, and nothing changes on the way but the layout of the JSON texts; a result that is no JSON
      arrives as an internal error. The one exception is error data that is no JSON. */
  lemma ResponseRoundTrip(codec: Codec, rep: Response, id: Json)
    requires codec.Lawful() && IsValidId(id)
    ensures MakeResponse(codec, rep, id).Returns? <==> Encodable(codec, rep)
    ensures Encodable(codec, rep) ==> Carries(codec, MakeResponse(codec, rep, id).value, rep, id)
  {
    if !rep.IsError() {
      ResultRoundTrip(codec, rep, id);
    } else if Encodable(codec, rep) {
      ErrorRoundTrip(codec, rep, id);
    }
  }
}
