/** A batch is the order-preserving map-filter of its entries (section 6 of the JSON-RPC 2.0
    specification): stated without the loop, without the running log, entry by entry. */
module BatchRefinement {
  import opened Wrappers
  import opened JsonModel
  import opened JsonRpcMessages
  import opened ReceiverLayers
  import opened RequestProcessor

  // the entry is a cancel notification or request of a cancellable receiver
  predicate Intercepted(env: Env, entry: Json) {
    WellFormed(entry) && env.methods.kind == Cancellable && MethodOf(entry) == CANCEL
  }

  predicate RunsHandler(env: Env, entry: Json) {
    WellFormed(entry) && IsRegistered(env.methods, MethodOf(entry)) && !Intercepted(env, entry)
  }

  // not an object, or a request with an id; a notification has none
  predicate ExpectsReply(env: Env, entry: Json) {
    !entry.Obj? || (IdOf(entry) != Null && !Intercepted(env, entry))
  }

  function CallsOf(env: Env, entry: Json, client: nat): seq<Call> {
    if RunsHandler(env, entry) then [CallOf(env, entry, client)] else []
  }

  /** The handlers the entries call for, in order. */
  function Calls(env: Env, entries: seq<Json>, client: nat): seq<Call> {
    if entries == [] then []
    else Calls(env, entries[..|entries| - 1], client) + CallsOf(env, entries[|entries| - 1], client)
  }

  /** The ids of the replies the entries ask for, in order; null answers what is not an object. */
  function ReplyIds(env: Env, entries: seq<Json>): seq<Json> {
    if entries == [] then []
    else
      var last := entries[|entries| - 1];
      ReplyIds(env, entries[..|entries| - 1]) + if ExpectsReply(env, last) then [IdOf(last)] else []
  }

  // entry i on its own, after the calls of the entries before it
  function Alone(env: Env, log: seq<Call>, entries: seq<Json>, i: nat, client: nat): Outcome<Json>
    requires i < |entries|
  {
    Entry(env, log + Calls(env, entries[..i], client), entries[i], client).0
  }

  function MapFilter(env: Env, log: seq<Call>, entries: seq<Json>, n: nat, client: nat): seq<Json>
    requires n <= |entries|
  {
    if n == 0 then []
    else
      var reply := Alone(env, log, entries, n - 1, client);
      MapFilter(env, log, entries, n - 1, client) + if reply.Returns? then Kept(reply.value) else []
  }

  ghost predicate NoneFailsBefore(env: Env, log: seq<Call>, entries: seq<Json>, n: nat, client: nat)
    requires n <= |entries|
  {
    forall i: nat :: i < n ==> Alone(env, log, entries, i, client).Returns?
  }

  lemma EntryCalls(env: Env, log: seq<Call>, entry: Json, client: nat)
    ensures Entry(env, log, entry, client).1 == log + CallsOf(env, entry, client)
  {
  }

  lemma CallsSnoc(env: Env, entries: seq<Json>, n: nat, client: nat)
    requires n < |entries|
    ensures Calls(env, entries[..n + 1], client) == Calls(env, entries[..n], client) + CallsOf(env, entries[n], client)
  {
    assert entries[..n + 1][..n] == entries[..n];
  }

  lemma {:induction false} BatchPrefix(env: Env, log: seq<Call>, entries: seq<Json>, n: nat, client: nat)
    requires n <= |entries| && NoneFailsBefore(env, log, entries, n, client)
    ensures var (rest, log') := Batch(env, log + Calls(env, entries[..n], client), entries[n..], client);
            Batch(env, log, entries, client) == (Prepend(MapFilter(env, log, entries, n, client), rest), log')
  {
    if n == 0 {
      assert entries[0..] == entries && log + [] == log;
      PrependNothing(Batch(env, log, entries, client).0);
    } else {
      BatchPrefix(env, log, entries, n - 1, client);
      var before := log + Calls(env, entries[..n - 1], client);
      EntryCalls(env, before, entries[n - 1], client);
      CallsSnoc(env, entries, n - 1, client);
      assert entries[n - 1..][1..] == entries[n..];
      var reply := Alone(env, log, entries, n - 1, client);
      assert reply.Returns?;
      var after := log + Calls(env, entries[..n], client);
      assert after == before + CallsOf(env, entries[n - 1], client);
      PrependTwice(MapFilter(env, log, entries, n - 1, client), Kept(reply.value),
                   Batch(env, after, entries[n..], client).0);
    }
  }

  /** The batch succeeds exactly when every entry does on its own; then its responses are the
      map-filter and each callback called for ran exactly once, in order. */
  lemma BatchIsMapFilter(env: Env, log: seq<Call>, entries: seq<Json>, client: nat)
    ensures var (r, log') := Batch(env, log, entries, client);
            && (r.Returns? <==> NoneFailsBefore(env, log, entries, |entries|, client))
            && (r.Returns? ==>
                  && r.value == MapFilter(env, log, entries, |entries|, client)
                  && log' == log + Calls(env, entries, client))
  {
    if NoneFailsBefore(env, log, entries, |entries|, client) {
      BatchPrefix(env, log, entries, |entries|, client);
      assert entries[..|entries|] == entries && entries[|entries|..] == [];
      var replies := MapFilter(env, log, entries, |entries|, client);
      assert replies + [] == replies;
    } else {
      var k := FirstFailure(env, log, entries, client);
      BatchStopsAtFirstFailure(env, log, entries, k, client);
    }
  }

  lemma FirstFailure(env: Env, log: seq<Call>, entries: seq<Json>, client: nat) returns (k: nat)
    requires !NoneFailsBefore(env, log, entries, |entries|, client)
    ensures k < |entries| && NoneFailsBefore(env, log, entries, k, client)
    ensures !Alone(env, log, entries, k, client).Returns?
  {
    k := 0;
    while Alone(env, log, entries, k, client).Returns?
      invariant k < |entries| && NoneFailsBefore(env, log, entries, k, client)
      decreases |entries| - k
    {
      k := k + 1;
      if k == |entries| {
        assert false;
      }
    }
  }

  /** An entry that throws ends the batch: the callbacks of the entries up to it have run, none
      after it does, and the responses so far are given up. */
  lemma BatchStopsAtFirstFailure(env: Env, log: seq<Call>, entries: seq<Json>, k: nat, client: nat)
    requires k < |entries| && NoneFailsBefore(env, log, entries, k, client)
    requires !Alone(env, log, entries, k, client).Returns?
    ensures var (r, log') := Batch(env, log, entries, client);
            && (match Alone(env, log, entries, k, client)
                case ThrowsParseError(text) => r == ThrowsParseError(text)
                case _ => r == ThrowsTypeError)
            && log' == log + Calls(env, entries[..k + 1], client)
  {
    BatchPrefix(env, log, entries, k, client);
    EntryCalls(env, log + Calls(env, entries[..k], client), entries[k], client);
    CallsSnoc(env, entries, k, client);
    assert entries[k..][0] == entries[k];
  }

  /** What one entry is answered. Only two things throw: a version that is no string, and error
      data of a handler that is no JSON. */
  lemma EntryReply(env: Env, log: seq<Call>, entry: Json, client: nat)
    ensures var r := Entry(env, log, entry, client).0;
            && (r.Returns? <==>
                  && !VersionIsNoString(entry)
                  && (RunsHandler(env, entry) && IdOf(entry) != Null ==>
                        Encodable(env.codec, env.answer(log, CallOf(env, entry, client)))))
            && (r.Returns? ==>
                  && (r.value == Null <==> !ExpectsReply(env, entry))
                  && (r.value != Null ==> Answers(env, log, entry, client, r.value)))
  {
  }

  predicate Answers(env: Env, log: seq<Call>, entry: Json, client: nat, reply: Json) {
    && reply.Has("jsonrpc") && reply.Get("jsonrpc") == Str("2.0")
    && reply.Has("id") && reply.Get("id") == IdOf(entry)
    && (reply.Has("result") <==> !reply.Has("error"))
    && (!WellFormed(entry) ==> HasErrorCode(reply, INVALID_REQUEST))
    && (WellFormed(entry) && !IsRegistered(env.methods, MethodOf(entry)) ==> HasErrorCode(reply, METHOD_NOT_FOUND))
    && (RunsHandler(env, entry) ==>
          MakeResponse(env.codec, env.answer(log, CallOf(env, entry, client)), IdOf(entry)) == Returns(reply))
  }

  predicate HasErrorCode(reply: Json, code: Int32) {
    reply.Has("error") && reply.Get("error").Has("code") && reply.Get("error").Get("code") == Int(code)
  }

  function ResponseIds(responses: seq<Json>): seq<Json> {
    seq(|responses|, i requires 0 <= i < |responses| => IdOf(responses[i]))
  }

  lemma {:induction false} MapFilterIds(env: Env, log: seq<Call>, entries: seq<Json>, n: nat, client: nat)
    requires n <= |entries| && NoneFailsBefore(env, log, entries, n, client)
    ensures ResponseIds(MapFilter(env, log, entries, n, client)) == ReplyIds(env, entries[..n])
  {
    if n == 0 {
    } else {
      MapFilterIds(env, log, entries, n - 1, client);
      var before := log + Calls(env, entries[..n - 1], client);
      EntryReply(env, before, entries[n - 1], client);
      assert entries[..n][..n - 1] == entries[..n - 1];
      var reply := Alone(env, log, entries, n - 1, client);
      assert reply.Returns?;
      assert reply.value != Null ==> IdOf(reply.value) == IdOf(entries[n - 1]);
      hide Answers, Entry, ExpectsReply, RunsHandler, Encodable, Calls, IdOf;
      assert MapFilter(env, log, entries, n, client)
          == MapFilter(env, log, entries, n - 1, client) + Kept(reply.value);
    }
  }

  lemma EntryIsRepresentable(env: Env, log: seq<Call>, entry: Json, client: nat)
    requires env.codec.Lawful() && Representable(entry) && Entry(env, log, entry, client).0.Returns?
    ensures Representable(Entry(env, log, entry, client).0.value)
  {
    var id := IdOf(entry);
    assert Representable(id) && Representable(Null);
    PlainErrorIsRepresentable(INVALID_REQUEST_OBJECT, id);
    PlainErrorIsRepresentable(INVALID_REQUEST_OBJECT, Null);
    PlainErrorIsRepresentable(METHOD_NOT_FOUND_OBJECT, id);
    hide Representable, MakeResponse, PlainError;
    if RunsHandler(env, entry) && !id.Null? {
      ResponseIsRepresentable(env.codec, env.answer(log, CallOf(env, entry, client)), id);
    }
  }

  lemma AloneIsRepresentable(env: Env, log: seq<Call>, entries: seq<Json>, i: nat, client: nat)
    requires env.codec.Lawful() && i < |entries| && Representable(Arr(entries))
    ensures Alone(env, log, entries, i, client).Returns? ==> Representable(Alone(env, log, entries, i, client).value)
  {
    assert Representable(entries[i]);
    hide Representable, Entry, Calls;
    if Alone(env, log, entries, i, client).Returns? {
      EntryIsRepresentable(env, log + Calls(env, entries[..i], client), entries[i], client);
    }
  }

  lemma {:induction false} MapFilterIsRepresentable(env: Env, log: seq<Call>, entries: seq<Json>, n: nat, client: nat)
    requires env.codec.Lawful() && n <= |entries| && Representable(Arr(entries))
    ensures forall reply :: reply in MapFilter(env, log, entries, n, client) ==> Representable(reply)
  {
    if n == 0 {
    } else {
      hide Representable, Alone;
      AloneIsRepresentable(env, log, entries, n - 1, client);
      MapFilterIsRepresentable(env, log, entries, n - 1, client);
    }
  }

  lemma RepliesParse(env: Env, log: seq<Call>, entries: seq<Json>, client: nat)
    requires env.codec.Lawful() && Representable(Arr(entries))
    ensures var replies := Arr(MapFilter(env, log, entries, |entries|, client));
            env.codec.dump(replies) != "" && env.codec.parse(env.codec.dump(replies)) == Some(replies)
  {
    MapFilterIsRepresentable(env, log, entries, |entries|, client);
    DumpIsNotEmpty(env.codec, Arr(MapFilter(env, log, entries, |entries|, client)));
  }

  /** The text interface: a batch that returns yields one response per entry that asks for one, in
      order and with its id, and the empty text exactly when no entry asks. */
  lemma BatchText(env: Env, log: seq<Call>, text: string, items: seq<Json>, client: nat)
    requires env.codec.Lawful() && env.codec.parse(text) == Some(Arr(items))
    requires NoneFailsBefore(env, log, items, |items|, client)
    ensures var (r, log') := ProcessText(env, log, text, client);
            && r.Returns?
            && r.value == Dump(env.codec, AsArray(MapFilter(env, log, items, |items|, client)))
            && log' == log + Calls(env, items, client)
            && (r.value == "" <==> ReplyIds(env, items) == [])
            && (r.value != "" ==>
                  exists responses ::
                    && env.codec.parse(r.value) == Some(Arr(responses))
                    && ResponseIds(responses) == ReplyIds(env, items))
  {
    BatchIsMapFilter(env, log, items, client);
    MapFilterIds(env, log, items, |items|, client);
    assert items[..|items|] == items;
    var responses := MapFilter(env, log, items, |items|, client);
    assert responses == [] <==> ReplyIds(env, items) == [];
    assert Representable(Arr(items));
    RepliesParse(env, log, items, client);
  }
}
