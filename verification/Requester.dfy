/** The JSON-RPC requester: id allocation, matching of responses, and firing of callbacks. */
module Requester {
  import opened Wrappers
  import opened JsonModel
  import opened JsonRpcMessages

  type Token = nat   // a callback of the application

  datatype Pending = Pending(id: nat, callback: Token)

  datatype Firing = Firing(callback: Token, response: Response)

  // pending is the std::map<size_t, AsyncResponse> in its key order
  datatype State = State(pending: seq<Pending>, lastId: nat, fired: seq<Firing>, outbox: seq<string>)

  const INIT := State([], 0, [], [])

  const SIZE_MAX := 0xffff_ffff_ffff_ffff

  const DESTRUCTION_ERROR :=
    Response("", Error("Requester was destroyed before receiving a response", REQUEST_ABORTED, ""))

  function RequestMessage(codec: Codec, name: string, id: nat, params: string): Json
    requires params == "" || IsJson(codec, params)
  {
    var head := map["jsonrpc" := Str("2.0"), "method" := Str(name), "id" := Int(id)];
    Obj(if params == "" then head else head["params" := codec.parse(params).value])
  }

  // std::map::find
  function Find(pending: seq<Pending>, id: nat): Option<nat>
    ensures Find(pending, id).Some? ==>
              Find(pending, id).value < |pending| && pending[Find(pending, id).value].id == id
    ensures Find(pending, id).None? ==> forall p :: p in pending ==> p.id != id
  {
    if pending == [] then None
    else if pending[|pending| - 1].id == id then Some(|pending| - 1)
    else Find(pending[..|pending| - 1], id)
  }

  predicate ParamsParse(codec: Codec, params: string) {
    params == "" || IsJson(codec, params)
  }

  function Request(codec: Codec, s: State, name: string, params: string, callback: Token): State {
    if ParamsParse(codec, params) then
      s.(pending := s.pending + [Pending(s.lastId, callback)],
         lastId := s.lastId + 1,
         outbox := s.outbox + [codec.dump(RequestMessage(codec, name, s.lastId, params))])
    else
      s.(fired := s.fired + [Firing(callback, INVALID_PARAMS_RESPONSE)])
  }

  // the id a response text is matched by; a response to something else has none
  function ResponseId(codec: Codec, text: string): Outcome<Option<nat>> {
    match codec.parse(text)
    case None => Returns(None)
    case Some(json) =>
      match IsValidJsonRpcResponse(json)
      case ThrowsTypeError => ThrowsTypeError
      case ThrowsParseError(t) => ThrowsParseError(t)
      case Returns(valid) =>
        Returns(if valid && json.Get("id").IsNumberUnsigned() then Some(json.Get("id").n) else None)
  }

  function Receive(codec: Codec, s: State, text: string): (Outcome<bool>, State) {
    match ResponseId(codec, text)
    case ThrowsTypeError => (ThrowsTypeError, s)
    case ThrowsParseError(t) => (ThrowsParseError(t), s)
    case Returns(None) => (Returns(false), s)
    case Returns(Some(id)) =>
      match Find(s.pending, id)
      case None => (Returns(false), s)
      case Some(k) =>
        var firing := Firing(s.pending[k].callback, DecodeResponse(codec, codec.parse(text).value));
        (Returns(true), s.(pending := s.pending[..k] + s.pending[k + 1..], fired := s.fired + [firing]))
  }

  function Abort(p: Pending): Firing {
    Firing(p.callback, DESTRUCTION_ERROR)
  }

  function Destroy(s: State): State {
    s.(pending := [], fired := s.fired + seq(|s.pending|, i requires 0 <= i < |s.pending| => Abort(s.pending[i])))
  }

  /** After destruction nothing is pending, what had fired stays, and every pending callback has fired
      with Request aborted, in the order of the ids. */
  lemma DestroyTellsAborted(s: State)
    ensures var d := Destroy(s);
            && d.pending == [] && |d.fired| == |s.fired| + |s.pending| && d.fired[..|s.fired|] == s.fired
            && (forall i :: 0 <= i < |s.pending| ==>
                  var firing := d.fired[|s.fired| + i];
                  && firing.callback == s.pending[i].callback
                  && firing.response.IsError()
                  && firing.response.error.code == -31002
                  && firing.response.error.message == "Requester was destroyed before receiving a response"
                  && firing.response.error.data == "" && firing.response.result == "")
  {
  }

  class Requester {
    const codec: Codec
    var pendingRequests: seq<Pending>
    var lastId: nat
    var fired: seq<Firing>
    var outbox: seq<string>

    constructor (codec: Codec)
      ensures this.codec == codec && View() == INIT
    {
      this.codec := codec;
      pendingRequests, lastId, fired, outbox := [], 0, [], [];
    }

    function View(): State
      reads this
    {
      State(pendingRequests, lastId, fired, outbox)
    }

    /** Returns lastId - 1 in every case: the new request's id, or, when the params are no JSON,
        that of the request before it (SIZE_MAX if there was none). */
    method MakeRequest(name: string, params: string, callback: Token) returns (id: nat)
      modifies this
      ensures View() == Request(codec, old(View()), name, params, callback)
      ensures ParamsParse(codec, params) ==> id == old(lastId)
      ensures !ParamsParse(codec, params) ==> id == if lastId == 0 then 0xffff_ffff_ffff_ffff else lastId - 1
    {
      if params != "" && codec.parse(params).None? {
        fired := fired + [Firing(callback, INVALID_PARAMS_RESPONSE)];
      } else {
        var request := RequestMessage(codec, name, lastId, params);
        pendingRequests := pendingRequests + [Pending(lastId, callback)];
        lastId := lastId + 1;
        outbox := outbox + [codec.dump(request)];
      }
      id := if lastId == 0 then SIZE_MAX else lastId - 1;
    }

    method ProcessResponse(text: string) returns (r: Outcome<bool>)
      modifies this`pendingRequests, this`fired
      ensures (r, View()) == Receive(codec, old(View()), text)
    {
      var response := codec.parse(text);
      if response.None? {
        return Returns(false);
      }
      var valid := IsValidJsonRpcResponse(response.value);
      if valid.ThrowsTypeError? {
        return ThrowsTypeError;
      }
      if !valid.value || !response.value.Get("id").IsNumberUnsigned() {
        return Returns(false);
      }
      var it := Find(pendingRequests, response.value.Get("id").n);
      if it.None? {
        return Returns(false);
      }
      var k := it.value;
      fired := fired + [Firing(pendingRequests[k].callback, DecodeResponse(codec, response.value))];
      pendingRequests := pendingRequests[..k] + pendingRequests[k + 1..];
      r := Returns(true);
    }

    /** The destructor: every pending callback is told, in the order of the ids, that its request was
        aborted. */
    method Destruct()
      modifies this`pendingRequests, this`fired
      ensures View() == Destroy(old(View()))
      ensures pendingRequests == [] && |fired| == |old(fired)| + |old(pendingRequests)|
      ensures fired[..|old(fired)|] == old(fired)
      ensures forall i :: 0 <= i < |old(pendingRequests)| ==>
                var firing := fired[|old(fired)| + i];
                && firing.callback == old(pendingRequests)[i].callback
                && firing.response.IsError()
                && firing.response.error.code == -31002
                && firing.response.error.message == "Requester was destroyed before receiving a response"
    {
      DestroyTellsAborted(View());
      for i := 0 to |pendingRequests|
        invariant pendingRequests == old(pendingRequests)
        invariant fired == old(fired) + Destroy(old(View())).fired[|old(fired)|..|old(fired)| + i]
      {
        fired := fired + [Abort(pendingRequests[i])];
      }
      pendingRequests := [];
    }
  }

  // ---- exactly once, over whole runs ----

  datatype Event = Issue(name: string, params: string, callback: Token) | Message(text: string)

  function Step(codec: Codec, s: State, e: Event): State {
    match e
    case Issue(name, params, callback) => Request(codec, s, name, params, callback)
    case Message(text) => Receive(codec, s, text).1
  }

  function Run(codec: Codec, events: seq<Event>): State {
    if events == [] then INIT else Step(codec, Run(codec, events[..|events| - 1]), events[|events| - 1])
  }

  function Issued(events: seq<Event>): seq<Token> {
    if events == [] then []
    else
      var last := events[|events| - 1];
      Issued(events[..|events| - 1]) + if last.Issue? then [last.callback] else []
  }

  function FiredTokens(fired: seq<Firing>): seq<Token> {
    seq(|fired|, i requires 0 <= i < |fired| => fired[i].callback)
  }

  function PendingTokens(pending: seq<Pending>): seq<Token> {
    seq(|pending|, i requires 0 <= i < |pending| => pending[i].callback)
  }

  predicate IdsAscend(s: State) {
    && (forall i, j :: 0 <= i < j < |s.pending| ==> s.pending[i].id < s.pending[j].id)
    && (forall i :: 0 <= i < |s.pending| ==> s.pending[i].id < s.lastId)
  }

  lemma {:induction false} RunPartitionsCallbacks(codec: Codec, events: seq<Event>)
    ensures var s := Run(codec, events);
            IdsAscend(s) && Tokens(s) == multiset(Issued(events))
  {
    if events == [] {
    } else {
      var before := events[..|events| - 1];
      RunPartitionsCallbacks(codec, before);
      var last := events[|events| - 1];
      if last.Issue? {
        IssuePartitionsCallbacks(codec, Run(codec, before), last);
      } else {
        MessagePartitionsCallbacks(codec, Run(codec, before), last);
      }
    }
  }

  function Tokens(s: State): multiset<Token> {
    multiset(FiredTokens(s.fired)) + multiset(PendingTokens(s.pending))
  }

  lemma IssuePartitionsCallbacks(codec: Codec, s: State, e: Event)
    requires IdsAscend(s) && e.Issue?
    ensures IdsAscend(Step(codec, s, e)) && Tokens(Step(codec, s, e)) == Tokens(s) + multiset{e.callback}
  {
    var s' := Step(codec, s, e);
    if ParamsParse(codec, e.params) {
      assert PendingTokens(s'.pending) == PendingTokens(s.pending) + [e.callback];
    } else {
      assert FiredTokens(s'.fired) == FiredTokens(s.fired) + [e.callback];
    }
  }

  lemma MessagePartitionsCallbacks(codec: Codec, s: State, e: Event)
    requires IdsAscend(s) && e.Message?
    ensures IdsAscend(Step(codec, s, e)) && Tokens(Step(codec, s, e)) == Tokens(s)
  {
    var s' := Step(codec, s, e);
    if s' != s {
      var k := Find(s.pending, ResponseId(codec, e.text).value.value).value;
      var c := s.pending[k].callback;
      var all := PendingTokens(s.pending);
      assert FiredTokens(s'.fired) == FiredTokens(s.fired) + [c];
      assert PendingTokens(s'.pending) == all[..k] + all[k + 1..];
      assert all == all[..k] + [c] + all[k + 1..];
    }
  }

  /** Over every run of requests and incoming texts, and after the destructor, each callback has
      fired as often as it was handed in: once per request. */
  lemma EveryCallbackFiresOnce(codec: Codec, events: seq<Event>)
    ensures var s := Destroy(Run(codec, events));
            s.pending == [] && multiset(FiredTokens(s.fired)) == multiset(Issued(events))
  {
    RunPartitionsCallbacks(codec, events);
    var s := Run(codec, events);
    assert FiredTokens(Destroy(s).fired) == FiredTokens(s.fired) + PendingTokens(s.pending);
  }

  /** A response fires the callback of the request it answers, and only the first time it comes. */
  lemma ResponseFiresItsCallback(codec: Codec, s: State, text: string, k: nat)
    requires IdsAscend(s) && k < |s.pending|
    requires ResponseId(codec, text) == Returns(Some(s.pending[k].id))
    ensures var (r, s') := Receive(codec, s, text);
            && r == Returns(true)
            && s'.fired == s.fired + [Firing(s.pending[k].callback, DecodeResponse(codec, codec.parse(text).value))]
            && s'.pending == s.pending[..k] + s.pending[k + 1..]
            && Receive(codec, s', text) == (Returns(false), s')
  {
    var s' := Receive(codec, s, text).1;
    assert Find(s.pending, s.pending[k].id).value == k;
    forall p | p in s'.pending
      ensures p.id != s.pending[k].id
    {
      var i :| 0 <= i < |s'.pending| && s'.pending[i] == p;
      assert p == if i < k then s.pending[i] else s.pending[i + 1];
    }
  }

  // the version is read as a string before anything else is looked at
  predicate VersionIsNoString(codec: Codec, text: string) {
    match codec.parse(text)
    case Some(json) => json.Has("jsonrpc") && !json.Get("jsonrpc").Str?
    case None => false
  }

  /** A text throws out of processResponse exactly when it is an object whose version is no string;
      and what throws, or answers no pending request, changes nothing. */
  lemma ForeignTextChangesNothing(codec: Codec, s: State, text: string)
    ensures Receive(codec, s, text).0 == ThrowsTypeError <==> VersionIsNoString(codec, text)
    ensures !Receive(codec, s, text).0.ThrowsParseError?
    ensures VersionIsNoString(codec, text) ==> Receive(codec, s, text).1 == s
    ensures ResponseId(codec, text).Returns?
            && (ResponseId(codec, text).value.Some? ==>
                  forall p :: p in s.pending ==> p.id != ResponseId(codec, text).value.value)
            ==> Receive(codec, s, text) == (Returns(false), s)
  {
  }
}
