/** A whole call: the requester sends, the processor answers, the requester receives. */
module EndToEnd {
  import opened Wrappers
  import opened JsonModel
  import opened JsonRpcMessages
  import opened ReceiverLayers
  import opened RequestProcessor
  import Client = Requester

  // params that reach the server: absent, or an object or array
  predicate StructuredParams(codec: Codec, params: string) {
    params == "" ||
    (IsJson(codec, params) && (codec.parse(params).value.Obj? || codec.parse(params).value.Arr?))
  }

  function CallFor(env: Env, name: string, params: string, client: nat): Call {
    Call(Dispatch(env.methods, name), Reformat(env.codec, params), client)
  }

  /** What the caller is to be told, from the handler's own point of view; None when it is told
      nothing and its request stays pending. */
  function Told(env: Env, log: seq<Call>, name: string, params: string, client: nat): Option<Response> {
    if !StructuredParams(env.codec, params) then
      Some(Response("", Error("Invalid Request", INVALID_REQUEST, "")))
    else if !IsRegistered(env.methods, name) then
      Some(Response("", Error("Method not found", METHOD_NOT_FOUND, "")))
    else if CallFor(env, name, params, client).target == Intercept then
      None
    else
      var rep := env.answer(log, CallFor(env, name, params, client));
      if Encodable(env.codec, rep) then Some(Delivered(env.codec, rep)) else None
  }

  lemma RequestIsUnderstood(env: Env, s: Client.State, name: string, params: string, client: nat)
    requires env.codec.Lawful() && Client.ParamsParse(env.codec, params) && s.lastId <= Client.SIZE_MAX
    ensures var request := Client.RequestMessage(env.codec, name, s.lastId, params);
            && env.codec.parse(env.codec.dump(request)) == Some(request)
            && IdOf(request) == Int(s.lastId)
            && !VersionIsNoString(request)
            && (WellFormed(request) <==> StructuredParams(env.codec, params))
            && (WellFormed(request) ==>
                  && MethodOf(request) == name
                  && CallOf(env, request, client) == CallFor(env, name, params, client))
  {
    var request := Client.RequestMessage(env.codec, name, s.lastId, params);
    assert params != "" ==> Representable(env.codec.parse(params).value);
    assert Representable(request);
    DumpIsNotEmpty(env.codec, request);
  }

  // a null id never matches a request
  lemma NullIdIsForeign(codec: Codec, s: Client.State, what: string)
    requires codec.Lawful()
    ensures Client.Receive(codec, s, ParseFailure(codec, what)) == (Returns(false), s)
  {
    ParseFailureParses(codec, what);
  }

  // a processor's own error reads the same on the other side
  lemma PlainErrorArrives(codec: Codec, error: Error, id: nat)
    requires codec.Lawful() && error.data == "" && id <= Client.SIZE_MAX
    ensures var text := codec.dump(PlainError(error, Int(id)));
            && Client.ResponseId(codec, text) == Returns(Some(id))
            && HasResultOrError(codec.parse(text).value)
            && DecodeResponse(codec, codec.parse(text).value) == Response("", error)
  {
    assert Representable(Int(id));
    PlainErrorIsRepresentable(error, Int(id));
    DumpIsNotEmpty(codec, PlainError(error, Int(id)));
    hide Representable;
  }

  lemma HandlerAnswerArrives(codec: Codec, rep: Response, id: nat)
    requires codec.Lawful() && Encodable(codec, rep) && id <= Client.SIZE_MAX
    ensures MakeResponse(codec, rep, Int(id)).Returns?
    ensures var text := codec.dump(MakeResponse(codec, rep, Int(id)).value);
            && text != "" && Client.ResponseId(codec, text) == Returns(Some(id))
            && HasResultOrError(codec.parse(text).value)
            && DecodeResponse(codec, codec.parse(text).value) == Delivered(codec, rep)
  {
    ResponseRoundTrip(codec, rep, Int(id));
    var message := MakeResponse(codec, rep, Int(id)).value;
    assert Representable(Int(id));
    ResponseIsRepresentable(codec, rep, Int(id));
    DumpIsNotEmpty(codec, message);
    hide Representable;
  }

  /** The text the server answers with is either the message for Told, or one the client ignores. */
  lemma ServerAnswers(env: Env, log: seq<Call>, s: Client.State, name: string, params: string, client: nat)
    requires env.codec.Lawful() && Client.ParamsParse(env.codec, params) && s.lastId <= Client.SIZE_MAX
    ensures var sent := env.codec.dump(Client.RequestMessage(env.codec, name, s.lastId, params));
            var (r, _) := ProcessText(env, log, sent, client);
            && r.Returns?
            && match Told(env, log, name, params, client)
               case Some(told) =>
                 && Client.ResponseId(env.codec, r.value) == Returns(Some(s.lastId))
                 && HasResultOrError(env.codec.parse(r.value).value)
                 && DecodeResponse(env.codec, env.codec.parse(r.value).value) == told
               case None => forall s': Client.State :: Client.Receive(env.codec, s', r.value) == (Returns(false), s')
  {
    RequestIsUnderstood(env, s, name, params, client);
    var request := Client.RequestMessage(env.codec, name, s.lastId, params);
    if !StructuredParams(env.codec, params) {
      PlainErrorArrives(env.codec, INVALID_REQUEST_OBJECT, s.lastId);
    } else if !IsRegistered(env.methods, name) {
      PlainErrorArrives(env.codec, METHOD_NOT_FOUND_OBJECT, s.lastId);
    } else if CallFor(env, name, params, client).target != Intercept {
      var rep := env.answer(log, CallFor(env, name, params, client));
      if Encodable(env.codec, rep) {
        HandlerAnswerArrives(env.codec, rep, s.lastId);
      } else {
        forall s': Client.State
          ensures Client.Receive(env.codec, s', ParseFailure(env.codec, rep.error.data)) == (Returns(false), s')
        {
          NullIdIsForeign(env.codec, s', rep.error.data);
        }
      }
    }
  }

  /** For every method, every params text and every handler: after one exchange the caller's own
      callback, and no other, has fired with what Told says, and the request is settled; exactly
      when Told is None nothing has fired and the request is still pending. */
  lemma CallReturnsToItsCallback(env: Env, log: seq<Call>, s: Client.State, name: string, params: string,
                                 callback: Client.Token, client: nat)
    requires env.codec.Lawful() && Client.IdsAscend(s) && s.lastId <= Client.SIZE_MAX
    ensures !Client.ParamsParse(env.codec, params) ==>
              Client.Request(env.codec, s, name, params, callback)
              == s.(fired := s.fired + [Client.Firing(callback, Response("", Error("Invalid params", -32602, "")))])
    ensures Client.ParamsParse(env.codec, params) ==>
              var s1 := Client.Request(env.codec, s, name, params, callback);
              var (r, log') := ProcessText(env, log, s1.outbox[|s1.outbox| - 1], client);
              && r.Returns?
              && match Told(env, log, name, params, client)
                 case Some(told) =>
                   Client.Receive(env.codec, s1, r.value)
                   == (Returns(true), s1.(pending := s.pending, fired := s.fired + [Client.Firing(callback, told)]))
                 case None =>
                   Client.Receive(env.codec, s1, r.value) == (Returns(false), s1)
  {
    if Client.ParamsParse(env.codec, params) {
      hide Representable, IsValidId, IsValidError;
      ServerAnswers(env, log, s, name, params, client);
      var s1 := Client.Request(env.codec, s, name, params, callback);
      var r := ProcessText(env, log, s1.outbox[|s1.outbox| - 1], client).0;
      if Told(env, log, name, params, client).Some? {
        Client.ResponseFiresItsCallback(env.codec, s1, r.value, |s.pending|);
        assert s1.pending[..|s.pending|] + s1.pending[|s.pending| + 1..] == s.pending;
      }
    }
  }
}
