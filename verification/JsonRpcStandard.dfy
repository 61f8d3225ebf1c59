/** What the JSON-RPC 2.0 specification asks a server to answer, written down from its sections 4 to 6
    without a look at the code, and when the processor answers so. */
module JsonRpcStandard {
  import opened Wrappers
  import opened JsonModel
  import opened JsonRpcMessages
  import opened ReceiverLayers
  import opened RequestProcessor
  import opened BatchRefinement

  // ---- section 4: requests ----

  predicate IsPermittedId(id: Json) {
    id.Str? || id.IsNumber() || id.Null?
  }

  predicate IsRequest(json: Json) {
    && json.Has("jsonrpc") && json.Get("jsonrpc") == Str("2.0")
    && json.Has("method") && json.Get("method").Str?
    && (json.Has("params") ==> json.Get("params").Obj? || json.Get("params").Arr?)
    && (json.Has("id") ==> IsPermittedId(json.Get("id")))
  }

  predicate IsNotification(json: Json) {
    IsRequest(json) && !json.Has("id")
  }

  // ---- section 5: responses ----

  // the request's id, or null if there was an error in detecting it
  function ReplyId(json: Json): Json {
    if json.Has("id") && IsPermittedId(json.Get("id")) then json.Get("id") else Null
  }

  predicate IsResponse(reply: Json, id: Json) {
    && reply.Has("jsonrpc") && reply.Get("jsonrpc") == Str("2.0")
    && reply.Has("id") && reply.Get("id") == id
    && (reply.Has("result") <==> !reply.Has("error"))
    && (reply.Has("error") ==> IsValidError(reply.Get("error")))
  }

  // the codes below are those of the table in section 5.1
  predicate IsErrorResponse(reply: Json, code: Int32, id: Json) {
    IsResponse(reply, id) && reply.Has("error") && reply.Get("error").Get("code") == Int(code)
  }

  // reply says what the handler answered; an answer that is no JSON is an internal error
  predicate SaysAnswer(codec: Codec, reply: Json, rep: Response, id: Json) {
    if rep.IsError() then
      && IsErrorResponse(reply, rep.error.code, id)
      && reply.Get("error").Get("message") == Str(rep.error.message)
      && (rep.error.data != "" && IsJson(codec, rep.error.data) ==>
            && reply.Get("error").Has("data")
            && Some(reply.Get("error").Get("data")) == codec.parse(rep.error.data))
    else if IsJson(codec, rep.result) then
      IsResponse(reply, id) && reply.Has("result") && Some(reply.Get("result")) == codec.parse(rep.result)
    else IsErrorResponse(reply, -32603, id)
  }

  function Invocation(env: Env, request: Json, client: nat): Call
    requires IsRequest(request)
  {
    Call(Dispatch(env.methods, request.Get("method").s), ParamsText(env.codec, request), client)
  }

  /** Whether reply is a proper answer to json, after the handlers in log ran; of a cancel, which is
      no part of the standard, it only has to be a response. */
  predicate IsProperReply(env: Env, log: seq<Call>, json: Json, client: nat, reply: Json) {
    if !IsRequest(json) then IsErrorResponse(reply, -32600, ReplyId(json))
    else if !IsRegistered(env.methods, json.Get("method").s) then
      IsErrorResponse(reply, -32601, ReplyId(json))
    else if Invocation(env, json, client).target == Intercept then IsResponse(reply, ReplyId(json))
    else SaysAnswer(env.codec, reply, env.answer(log, Invocation(env, json, client)), ReplyId(json))
  }

  // ---- section 6: batches ----

  // order names every entry that is no notification, once
  ghost predicate NamesAsking(order: seq<nat>, items: seq<Json>) {
    && (forall i, j :: 0 <= i < j < |order| ==> order[i] != order[j])
    && (forall i: nat :: i in order <==> i < |items| && !IsNotification(items[i]))
  }

  // the responses may come in any order
  ghost predicate AnswersInOrder(env: Env, log: seq<Call>, items: seq<Json>, client: nat,
                                 responses: seq<Json>, order: seq<nat>) {
    && NamesAsking(order, items) && |order| == |responses|
    && forall k :: 0 <= k < |order| ==>
         && order[k] < |items|
         && IsProperReply(env, log + Calls(env, items[..order[k]], client), items[order[k]], client, responses[k])
  }

  /** What the text of an answer has to be; the empty text is no answer. */
  ghost predicate IsStandardAnswer(env: Env, log: seq<Call>, text: string, client: nat, answer: string) {
    match env.codec.parse(text)
    case None =>
      var reply := env.codec.parse(answer);
      reply.Some? && IsErrorResponse(reply.value, -32700, Null)
    case Some(Arr(items)) =>
      var reply := env.codec.parse(answer);
      if items == [] then reply.Some? && IsErrorResponse(reply.value, -32600, Null)
      else if forall item :: item in items ==> IsNotification(item) then answer == ""
      else
        && reply.Some? && reply.value.Arr?
        && exists order :: AnswersInOrder(env, log, items, client, reply.value.items, order)
    case Some(json) =>
      var reply := env.codec.parse(answer);
      if IsNotification(json) then answer == ""
      else reply.Some? && IsProperReply(env, log, json, client, reply.value)
  }

  // ---- when the processor does so ----

  /** The guards of _processCommand that keep to the standard: an invalid request has an id that can
      be sent back and a version that can be read, a cancel is a notification, and a handler's error
      data can be encoded. */
  predicate IsServed(env: Env, log: seq<Call>, entry: Json, client: nat) {
    if !entry.Obj? then true
    else if !WellFormed(entry) then
      !VersionIsNoString(entry) && entry.Has("id") && (entry.Get("id").IsNumber() || entry.Get("id").Str?)
    else if !entry.Has("id") then true
    else
      && !Intercepted(env, entry)
      && (RunsHandler(env, entry) ==> Encodable(env.codec, env.answer(log, CallOf(env, entry, client))))
  }

  ghost predicate IsServedDocument(env: Env, log: seq<Call>, document: Json, client: nat) {
    match document
    case Obj(_) => IsServed(env, log, document, client)
    case Arr(items) => items != [] && AreServed(env, log, items, client)
    case _ => false
  }

  ghost predicate AreServed(env: Env, log: seq<Call>, items: seq<Json>, client: nat) {
    forall i: nat :: i < |items| ==> IsServedAt(env, log, items, i, client)
  }

  predicate IsServedAt(env: Env, log: seq<Call>, items: seq<Json>, i: nat, client: nat)
    requires i < |items|
  {
    IsServed(env, log + Calls(env, items[..i], client), items[i], client)
  }

  lemma WellFormedIsRequest(entry: Json)
    ensures WellFormed(entry) <==> IsRequest(entry) && !(entry.Has("id") && entry.Get("id").Null?)
    ensures WellFormed(entry) ==> ReplyId(entry) == IdOf(entry)
  {
  }

  lemma ErrorReplyIsProper(codec: Codec, rep: Response, id: Json)
    requires rep.IsError() && Encodable(codec, rep)
    ensures MakeResponse(codec, rep, id).Returns?
    ensures SaysAnswer(codec, MakeResponse(codec, rep, id).value, rep, id)
  {
  }

  lemma HandlerReplyIsProper(codec: Codec, rep: Response, id: Json)
    requires Encodable(codec, rep)
    ensures MakeResponse(codec, rep, id).Returns?
    ensures SaysAnswer(codec, MakeResponse(codec, rep, id).value, rep, id)
  {
    if rep.IsError() {
      hide *;
      ErrorReplyIsProper(codec, rep, id);
    }
  }

  lemma ServedReplyIsProper(env: Env, log: seq<Call>, entry: Json, client: nat)
    requires IsServed(env, log, entry, client)
    ensures Entry(env, log, entry, client).0.Returns?
    ensures var reply := Entry(env, log, entry, client).0.value;
            if IsNotification(entry) then reply == Null
            else reply != Null && IsProperReply(env, log, entry, client, reply)
  {
    WellFormedIsRequest(entry);
    if RunsHandler(env, entry) && entry.Has("id") {
      hide MakeResponse, SaysAnswer;
      assert CallOf(env, entry, client) == Invocation(env, entry, client);
      HandlerReplyIsProper(env.codec, env.answer(log, CallOf(env, entry, client)), IdOf(entry));
      assert !(MakeResponse(env.codec, env.answer(log, CallOf(env, entry, client)), IdOf(entry)).value == Null) by {
        EntryReply(env, log, entry, client);
      }
    }
  }

  // what goes wrong otherwise: nothing is sent where something is due, or under no permitted id
  lemma UnservedReplyIsNot(env: Env, log: seq<Call>, entry: Json, client: nat)
    requires !IsServed(env, log, entry, client)
    ensures !IsNotification(entry)
    ensures var r := Entry(env, log, entry, client).0;
            r.Returns? && r.value != Null ==> !IsPermittedId(IdOf(r.value))
  {
    EntryReply(env, log, entry, client);
    WellFormedIsRequest(entry);
  }

  lemma ProperReplyHasPermittedId(env: Env, log: seq<Call>, entry: Json, client: nat, reply: Json)
    requires IsProperReply(env, log, entry, client, reply)
    ensures IsPermittedId(IdOf(reply)) && reply != Null
  {
  }

  lemma ReplyIsDue(env: Env, log: seq<Call>, entry: Json, client: nat)
    ensures var r := Entry(env, log, entry, client).0;
            r.Returns? && r.value != Null ==> !IsNotification(entry)
  {
    EntryReply(env, log, entry, client);
  }

  // ---- batches: counting the replies ----

  function Asking(items: seq<Json>, n: nat): seq<nat>
    requires n <= |items|
  {
    if n == 0 then [] else Asking(items, n - 1) + if IsNotification(items[n - 1]) then [] else [n - 1]
  }

  lemma {:induction false} AskingIsAscending(items: seq<Json>, n: nat)
    requires n <= |items|
    ensures forall i, j :: 0 <= i < j < |Asking(items, n)| ==> Asking(items, n)[i] < Asking(items, n)[j]
    ensures forall i: nat :: i in Asking(items, n) <==> i < n && !IsNotification(items[i])
  {
    if n == 0 {
    } else {
      AskingIsAscending(items, n - 1);
      var before := Asking(items, n - 1);
      assert forall i :: 0 <= i < |before| ==> before[i] in before;
    }
  }

  function Elements(s: seq<nat>): set<nat> {
    if s == [] then {} else Elements(s[..|s| - 1]) + {s[|s| - 1]}
  }

  lemma {:induction false} DistinctLength(s: seq<nat>)
    requires forall i, j :: 0 <= i < j < |s| ==> s[i] != s[j]
    ensures |Elements(s)| == |s| && forall x :: x in Elements(s) <==> x in s
  {
    if s == [] {
    } else {
      var rest, last := s[..|s| - 1], s[|s| - 1];
      DistinctLength(rest);
      assert s == rest + [last];
      assert last !in rest && last !in Elements(rest);
      assert forall x :: x in s <==> x in rest || x == last;
    }
  }

  // no order of the asking entries is longer or shorter
  lemma OrdersAreOfOneLength(items: seq<Json>, order: seq<nat>)
    requires NamesAsking(order, items)
    ensures |order| == |Asking(items, |items|)|
  {
    var asking := Asking(items, |items|);
    AskingIsAscending(items, |items|);
    DistinctLength(order);
    DistinctLength(asking);
    assert Elements(order) == Elements(asking);
  }

  lemma OneMoreEntry(env: Env, log: seq<Call>, items: seq<Json>, n: nat, client: nat)
    requires 0 < n <= |items| && Alone(env, log, items, n - 1, client).Returns?
    ensures var reply := Alone(env, log, items, n - 1, client).value;
            && (reply != Null ==> !IsNotification(items[n - 1]))
            && |MapFilter(env, log, items, n, client)|
               == |MapFilter(env, log, items, n - 1, client)| + (if reply == Null then 0 else 1)
            && |Asking(items, n)| == |Asking(items, n - 1)| + (if IsNotification(items[n - 1]) then 0 else 1)
  {
    ReplyIsDue(env, log + Calls(env, items[..n - 1], client), items[n - 1], client);
    hide Entry, IsNotification, Representable;
  }

  lemma {:induction false} FewerReplies(env: Env, log: seq<Call>, items: seq<Json>, n: nat, client: nat)
    requires n <= |items| && NoneFailsBefore(env, log, items, n, client)
    ensures |MapFilter(env, log, items, n, client)| <= |Asking(items, n)|
  {
    if n == 0 {
    } else {
      assert Alone(env, log, items, n - 1, client).Returns?;
      OneMoreEntry(env, log, items, n, client);
      FewerReplies(env, log, items, n - 1, client);
    }
  }

  // an entry that asks in vain leaves fewer replies than there are questions
  lemma {:induction false} MissingReply(env: Env, log: seq<Call>, items: seq<Json>, n: nat, i: nat, client: nat)
    requires i < n <= |items| && NoneFailsBefore(env, log, items, n, client)
    requires !IsNotification(items[i]) && Alone(env, log, items, i, client) == Returns(Null)
    ensures |MapFilter(env, log, items, n, client)| < |Asking(items, n)|
  {
    assert Alone(env, log, items, n - 1, client).Returns?;
    OneMoreEntry(env, log, items, n, client);
    if i == n - 1 {
      FewerReplies(env, log, items, n - 1, client);
    } else {
      MissingReply(env, log, items, n - 1, i, client);
    }
  }

  lemma {:induction false} ReplyIsAmong(env: Env, log: seq<Call>, items: seq<Json>, n: nat, i: nat, client: nat)
    requires i < n <= |items| && NoneFailsBefore(env, log, items, n, client)
    requires Alone(env, log, items, i, client).Returns? && Alone(env, log, items, i, client).value != Null
    ensures Alone(env, log, items, i, client).value in MapFilter(env, log, items, n, client)
  {
    assert Alone(env, log, items, n - 1, client).Returns?;
    if i < n - 1 {
      ReplyIsAmong(env, log, items, n - 1, i, client);
    }
  }

  lemma {:induction false} ServedRepliesAreProper(env: Env, log: seq<Call>, items: seq<Json>, n: nat, client: nat)
    requires n <= |items| && AreServed(env, log, items, client)
    ensures var replies, asking := MapFilter(env, log, items, n, client), Asking(items, n);
            && |replies| == |asking|
            && (forall k :: 0 <= k < |asking| ==>
                  && asking[k] < n
                  && IsProperReply(env, log + Calls(env, items[..asking[k]], client), items[asking[k]], client, replies[k]))
  {
    if n == 0 {
    } else {
      ServedRepliesAreProper(env, log, items, n - 1, client);
      assert IsServedAt(env, log, items, n - 1, client);
      hide IsServed, IsProperReply, IsNotification, Entry;
      ServedReplyIsProper(env, log + Calls(env, items[..n - 1], client), items[n - 1], client);
    }
  }

  lemma ServedNoneFails(env: Env, log: seq<Call>, items: seq<Json>, client: nat)
    requires AreServed(env, log, items, client)
    ensures NoneFailsBefore(env, log, items, |items|, client)
  {
    forall i: nat | i < |items| ensures Alone(env, log, items, i, client).Returns? {
      assert IsServedAt(env, log, items, i, client);
      ServedReplyIsProper(env, log + Calls(env, items[..i], client), items[i], client);
    }
  }

  lemma ServedBatchIsAnswered(env: Env, log: seq<Call>, items: seq<Json>, client: nat)
    requires AreServed(env, log, items, client)
    ensures AnswersInOrder(env, log, items, client, MapFilter(env, log, items, |items|, client), Asking(items, |items|))
  {
    AskingIsAscending(items, |items|);
    hide IsProperReply, IsNotification, Asking;
    ServedRepliesAreProper(env, log, items, |items|, client);
  }

  lemma AnsweredBatchIsServed(env: Env, log: seq<Call>, items: seq<Json>, client: nat, order: seq<nat>)
    requires NoneFailsBefore(env, log, items, |items|, client)
    requires AnswersInOrder(env, log, items, client, MapFilter(env, log, items, |items|, client), order)
    ensures AreServed(env, log, items, client)
  {
    var replies := MapFilter(env, log, items, |items|, client);
    OrdersAreOfOneLength(items, order);
    hide IsServed, IsProperReply, IsNotification, Entry;
    forall i: nat | i < |items| ensures IsServedAt(env, log, items, i, client) {
      if !IsServedAt(env, log, items, i, client) {
        var before := log + Calls(env, items[..i], client);
        UnservedReplyIsNot(env, before, items[i], client);
        assert Alone(env, log, items, i, client) == Entry(env, before, items[i], client).0;
        if Alone(env, log, items, i, client) == Returns(Null) {
          MissingReply(env, log, items, |items|, i, client);
          assert false;
        }
        ReplyIsAmong(env, log, items, |items|, i, client);
        var reply := Alone(env, log, items, i, client).value;
        var k :| 0 <= k < |replies| && replies[k] == reply;
        ProperReplyHasPermittedId(env, log + Calls(env, items[..order[k]], client), items[order[k]], client, reply);
        assert false;
      }
    }
  }

  // ---- the three kinds of documents ----

  lemma ObjectAnswerIff(env: Env, log: seq<Call>, text: string, client: nat)
    requires env.codec.Lawful() && env.codec.parse(text).Some? && env.codec.parse(text).value.Obj?
    ensures var r := ProcessText(env, log, text, client).0;
            r.Returns? && IsStandardAnswer(env, log, text, client, r.value)
            <==> IsServed(env, log, env.codec.parse(text).value, client)
  {
    var document := env.codec.parse(text).value;
    var r := Entry(env, log, document, client).0;
    if IsServed(env, log, document, client) {
      ServedReplyIsProper(env, log, document, client);
    } else {
      UnservedReplyIsNot(env, log, document, client);
    }
    hide IsServed, IsProperReply, IsNotification, Command;
    match r
    case Returns(reply) =>
      if reply != Null {
        EntryIsRepresentable(env, log, document, client);
        DumpIsNotEmpty(env.codec, reply);
        if !IsServed(env, log, document, client) && IsProperReply(env, log, document, client, reply) {
          ProperReplyHasPermittedId(env, log, document, client, reply);
        }
      }
    case ThrowsParseError(what) =>
      FailureIsImproper(env, log, document, client, what);
    case ThrowsTypeError =>
  }

  // the message of a parse error under null id answers no request that threw one
  lemma FailureIsImproper(env: Env, log: seq<Call>, document: Json, client: nat, what: string)
    requires env.codec.Lawful() && Entry(env, log, document, client).0 == ThrowsParseError(what)
    ensures var reply := env.codec.parse(ParseFailure(env.codec, what));
            reply.Some? && reply.value.Obj? && !IsProperReply(env, log, document, client, reply.value)
  {
    ParseFailureParses(env.codec, what);
    EntryReply(env, log, document, client);
    WellFormedIsRequest(document);
  }

  lemma BatchAnswerIff(env: Env, log: seq<Call>, text: string, items: seq<Json>, client: nat)
    requires env.codec.Lawful() && env.codec.parse(text) == Some(Arr(items)) && items != []
    ensures var r := ProcessText(env, log, text, client).0;
            r.Returns? && IsStandardAnswer(env, log, text, client, r.value) <==> AreServed(env, log, items, client)
  {
    BatchIsMapFilter(env, log, items, client);
    var (batch, _) := Batch(env, log, items, client);
    if AreServed(env, log, items, client) {
      ServedNoneFails(env, log, items, client);
    }
    hide IsServed, IsProperReply, IsNotification, Command, Batch, MapFilter, NoneFailsBefore, AnswersInOrder;
    match batch
    case Returns(responses) =>
      RepliesAnswerIff(env, log, items, client, Dump(env.codec, AsArray(responses)));
    case ThrowsParseError(what) =>
      ParseFailureParses(env.codec, what);
    case ThrowsTypeError =>
  }

  lemma RepliesAnswerIff(env: Env, log: seq<Call>, items: seq<Json>, client: nat, answer: string)
    requires env.codec.Lawful() && Representable(Arr(items)) && NoneFailsBefore(env, log, items, |items|, client)
    requires answer == Dump(env.codec, AsArray(MapFilter(env, log, items, |items|, client)))
    ensures var reply := env.codec.parse(answer);
            (if forall item :: item in items ==> IsNotification(item) then answer == ""
             else
               && reply.Some? && reply.value.Arr?
               && exists order :: AnswersInOrder(env, log, items, client, reply.value.items, order))
            <==> AreServed(env, log, items, client)
  {
    var replies := MapFilter(env, log, items, |items|, client);
    RepliesParse(env, log, items, client);
    hide Representable;
    if AreServed(env, log, items, client) {
      ServedBatchIsAnswered(env, log, items, client);
    }
    if forall item :: item in items ==> IsNotification(item) {
      NotificationsAreServed(env, log, items, client);
      NobodyAsks(items, |items|);
      assert AnswersInOrder(env, log, items, client, replies, Asking(items, |items|));
    } else if order :| AnswersInOrder(env, log, items, client, replies, order) {
      var item :| item in items && !IsNotification(item);
      SomebodyAsks(items, item, order);
      AnsweredBatchIsServed(env, log, items, client, order);
    }
  }

  lemma NotificationsAreServed(env: Env, log: seq<Call>, items: seq<Json>, client: nat)
    requires forall item :: item in items ==> IsNotification(item)
    ensures AreServed(env, log, items, client)
  {
    forall i: nat | i < |items| ensures IsServedAt(env, log, items, i, client) {
      assert items[i] in items;
      if !IsServedAt(env, log, items, i, client) {
        UnservedReplyIsNot(env, log + Calls(env, items[..i], client), items[i], client);
        assert false;
      }
    }
  }

  lemma {:induction false} NobodyAsks(items: seq<Json>, n: nat)
    requires n <= |items| && forall item :: item in items ==> IsNotification(item)
    ensures Asking(items, n) == []
  {
    if n == 0 {
    } else {
      assert items[n - 1] in items;
      NobodyAsks(items, n - 1);
    }
  }

  lemma SomebodyAsks(items: seq<Json>, item: Json, order: seq<nat>)
    requires NamesAsking(order, items) && item in items && !IsNotification(item)
    ensures order != []
  {
    var i :| 0 <= i < |items| && items[i] == item;
    assert i in order;
  }

  lemma BrokenTextIsAnswered(env: Env, log: seq<Call>, text: string, client: nat)
    requires env.codec.Lawful() && env.codec.parse(text).None?
    ensures var r := ProcessText(env, log, text, client).0;
            r.Returns? && IsStandardAnswer(env, log, text, client, r.value)
  {
    ParseFailureParses(env.codec, text);
    hide Representable;
  }

  // a scalar is answered with Invalid params, where the standard asks for Invalid Request
  lemma ScalarAnswer(codec: Codec)
    requires codec.Lawful()
    ensures var reply := codec.parse(codec.dump(PlainError(INVALID_PARAMS_OBJECT, Null)));
            && reply.Some? && IsErrorResponse(reply.value, -32602, Null)
            && !IsErrorResponse(reply.value, -32600, Null)
            && reply.value.Get("error").Get("message") == Str("Invalid params")
  {
    PlainErrorIsRepresentable(INVALID_PARAMS_OBJECT, Null);
    DumpIsNotEmpty(codec, PlainError(INVALID_PARAMS_OBJECT, Null));
    hide Representable;
  }

  lemma ScalarAnswerIsNot(env: Env, log: seq<Call>, text: string, client: nat)
    requires env.codec.Lawful() && env.codec.parse(text).Some?
    requires !env.codec.parse(text).value.Obj? && !env.codec.parse(text).value.Arr?
    ensures var r := ProcessText(env, log, text, client).0;
            && r.Returns? && !IsStandardAnswer(env, log, text, client, r.value)
            && env.codec.parse(r.value).Some?
            && IsErrorResponse(env.codec.parse(r.value).value, -32602, Null)
            && env.codec.parse(r.value).value.Get("error").Get("message") == Str("Invalid params")
  {
    ScalarAnswer(env.codec);
    assert ReplyId(env.codec.parse(text).value) == Null;
    hide Representable, IsErrorResponse, PlainError, Command, Batch;
  }

  lemma EmptyArrayAnswerIsNot(env: Env, log: seq<Call>, text: string, client: nat)
    requires env.codec.Lawful() && env.codec.parse(text) == Some(Arr([]))
    ensures ProcessText(env, log, text, client).0 == Returns("")
    ensures !IsStandardAnswer(env, log, text, client, "")
  {
    hide Representable;
  }

  /** For every text and every handler: the processor answers as the standard asks exactly when the
      text is no JSON at all, or it is no scalar, no empty array, and all requests in it are served. */
  lemma AnswerIsStandardIff(env: Env, log: seq<Call>, text: string, client: nat)
    requires env.codec.Lawful()
    ensures var r := ProcessText(env, log, text, client).0;
            r.Returns? && IsStandardAnswer(env, log, text, client, r.value)
            <==> match env.codec.parse(text)
                 case None => true
                 case Some(document) => IsServedDocument(env, log, document, client)
  {
    hide ProcessText, IsStandardAnswer, IsServed, AreServed, Representable;
    match env.codec.parse(text)
    case None => BrokenTextIsAnswered(env, log, text, client);
    case Some(Obj(_)) => ObjectAnswerIff(env, log, text, client);
    case Some(Arr(items)) =>
      if items == [] {
        EmptyArrayAnswerIsNot(env, log, text, client);
      } else {
        BatchAnswerIff(env, log, text, items, client);
      }
    case Some(scalar) => ScalarAnswerIsNot(env, log, text, client);
  }
}
