/** Incoming WebSocket messages: reassembly of fragments (section 5.4 of RFC 6455), the callbacks,
    and the fan-out of their responses. */
module MessageHandler {
  import opened Wrappers
  import opened WsStreams
  import opened WsServer

  // what lws hands over: a piece of a message, whether more of it follows, and its format
  datatype Frame = Frame(client: Client, data: string, more: bool, format: Format)

  datatype Callbacks = Callbacks(text: bool, textAsync: bool, binary: bool)

  // a call of a message callback
  datatype Delivery = Delivery(client: Client, text: string, format: Format)

  // one buffer for all connections
  datatype HandlerState = HandlerState(buffer: string, delivered: seq<Delivery>)

  predicate HasCallback(cb: Callbacks, format: Format) {
    match format
    case Text => cb.text || cb.textAsync
    case Binary => cb.binary
    case Unspecified => false
  }

  function Delivered(cb: Callbacks, client: Client, text: string, format: Format): seq<Delivery> {
    if HasCallback(cb, format) then [Delivery(client, text, format)] else []
  }

  function Receive(cb: Callbacks, s: HandlerState, f: Frame): HandlerState {
    if f.more then s.(buffer := s.buffer + f.data)
    else HandlerState("", s.delivered + Delivered(cb, f.client, s.buffer + f.data, f.format))
  }

  // the response of a synchronous callback; none for an empty handler, and none at all to wait for
  // when the asynchronous one takes the message
  function Reply(cb: Callbacks, s: HandlerState, f: Frame, answer: Delivery -> Response): Option<Response> {
    if f.more || (f.format == Text && !cb.text && cb.textAsync) then None
    else
      var response := if HasCallback(cb, f.format)
                      then answer(Delivery(f.client, s.buffer + f.data, f.format))
                      else Response("", Sender, Unspecified);
      Some(if response.format == Unspecified then response.(format := f.format) else response)
  }

  /** Which callback a finished message is given to, if any, and that it is given all of the buffer. */
  lemma FinishedMessageIsHeard(cb: Callbacks, s: HandlerState, f: Frame)
    requires !f.more
    ensures var t := Receive(cb, s, f);
            && t.buffer == ""
            && t.delivered ==
                 if (f.format == Text && (cb.text || cb.textAsync)) || (f.format == Binary && cb.binary)
                 then s.delivered + [Delivery(f.client, s.buffer + f.data, f.format)]
                 else s.delivered
  {
    assert s.delivered + [] == s.delivered;
  }

  lemma PieceIsKept(cb: Callbacks, s: HandlerState, f: Frame)
    requires f.more
    ensures Receive(cb, s, f) == HandlerState(s.buffer + f.data, s.delivered)
  {
  }

  /** What a frame is answered: what the synchronous callback says, in the format of the message unless
      it says otherwise; nothing before the message is finished, and nothing yet when the asynchronous
      callback has it. A message nobody listens to has an empty answer, which is not sent. */
  lemma ReplyIsTheCallbacks(cb: Callbacks, s: HandlerState, f: Frame, answer: Delivery -> Response)
    requires f.format != Unspecified
    ensures f.more ==> Reply(cb, s, f, answer) == None
    ensures !f.more && f.format == Text && !cb.text && cb.textAsync ==> Reply(cb, s, f, answer) == None
    ensures !f.more && ((f.format == Text && cb.text) || (f.format == Binary && cb.binary)) ==>
              var said := answer(Delivery(f.client, s.buffer + f.data, f.format));
              Reply(cb, s, f, answer)
              == Some(Response(said.message, said.recipient, if said.format == Unspecified then f.format else said.format))
    ensures !f.more && ((f.format == Text && !cb.text && !cb.textAsync) || (f.format == Binary && !cb.binary)) ==>
              Reply(cb, s, f, answer).Some? && Reply(cb, s, f, answer).value.message == ""
  {
  }

  function ReceiveAll(cb: Callbacks, s: HandlerState, frames: seq<Frame>): HandlerState
    decreases frames
  {
    if frames == [] then s else ReceiveAll(cb, Receive(cb, s, frames[0]), frames[1..])
  }

  // ---- messages cut into fragments ----

  datatype Cut = Cut(client: Client, format: Format, pieces: seq<string>)

  function Whole(pieces: seq<string>): string {
    if pieces == [] then "" else pieces[0] + Whole(pieces[1..])
  }

  function Frames(m: Cut): seq<Frame>
    decreases |m.pieces|
  {
    if m.pieces == [] then []
    else [Frame(m.client, m.pieces[0], |m.pieces| > 1, m.format)] + Frames(m.(pieces := m.pieces[1..]))
  }

  function AllFrames(messages: seq<Cut>): seq<Frame> {
    if messages == [] then [] else Frames(messages[0]) + AllFrames(messages[1..])
  }

  function Deliveries(cb: Callbacks, messages: seq<Cut>): seq<Delivery> {
    if messages == [] then []
    else
      Delivered(cb, messages[0].client, Whole(messages[0].pieces), messages[0].format)
      + Deliveries(cb, messages[1..])
  }

  lemma {:induction false} ReceiveAllConcat(cb: Callbacks, s: HandlerState, first: seq<Frame>, second: seq<Frame>)
    ensures ReceiveAll(cb, s, first + second) == ReceiveAll(cb, ReceiveAll(cb, s, first), second)
    decreases first
  {
    if first == [] {
      assert first + second == second;
    } else {
      assert (first + second)[1..] == first[1..] + second;
      ReceiveAllConcat(cb, Receive(cb, s, first[0]), first[1..], second);
    }
  }

  lemma {:induction false} MessageIsReassembled(cb: Callbacks, s: HandlerState, m: Cut)
    requires m.pieces != []
    ensures ReceiveAll(cb, s, Frames(m))
            == HandlerState("", s.delivered + Delivered(cb, m.client, s.buffer + Whole(m.pieces), m.format))
    decreases |m.pieces|
  {
    var f := Frame(m.client, m.pieces[0], |m.pieces| > 1, m.format);
    var rest := m.(pieces := m.pieces[1..]);
    assert Frames(m)[0] == f && Frames(m)[1..] == Frames(rest);
    assert s.buffer + m.pieces[0] + Whole(rest.pieces) == s.buffer + Whole(m.pieces);
    if rest.pieces == [] {
      assert Frames(m)[1..] == [] && s.buffer + m.pieces[0] + "" == s.buffer + m.pieces[0];
    } else {
      MessageIsReassembled(cb, Receive(cb, s, f), rest);
    }
  }

  /** However the messages are cut, the callbacks receive exactly the messages, in order and each
      from its own client, and the buffer is empty after each: with a synchronous, an asynchronous
      or no callback alike. */
  lemma {:induction false} MessagesAreReassembled(cb: Callbacks, delivered: seq<Delivery>, messages: seq<Cut>)
    requires forall m :: m in messages ==> m.pieces != []
    ensures ReceiveAll(cb, HandlerState("", delivered), AllFrames(messages))
            == HandlerState("", delivered + Deliveries(cb, messages))
    decreases messages
  {
    if messages == [] {
      assert delivered + [] == delivered;
    } else {
      var m := messages[0];
      var here := Delivered(cb, m.client, Whole(m.pieces), m.format);
      MessageIsReassembled(cb, HandlerState("", delivered), m);
      assert "" + Whole(m.pieces) == Whole(m.pieces);
      ReceiveAllConcat(cb, HandlerState("", delivered), Frames(m), AllFrames(messages[1..]));
      MessagesAreReassembled(cb, delivered + here, messages[1..]);
      assert delivered + here + Deliveries(cb, messages[1..])
          == delivered + (here + Deliveries(cb, messages[1..]));
    }
  }

  // the first fragments of a message that is not finished
  function Begun(client: Client, pieces: seq<string>, format: Format): seq<Frame> {
    seq(|pieces|, i requires 0 <= i < |pieces| => Frame(client, pieces[i], true, format))
  }

  lemma {:induction false} BegunFillsBuffer(cb: Callbacks, s: HandlerState, client: Client, pieces: seq<string>, format: Format)
    ensures ReceiveAll(cb, s, Begun(client, pieces, format)) == s.(buffer := s.buffer + Whole(pieces))
    decreases pieces
  {
    if pieces == [] {
      assert s.buffer + "" == s.buffer;
    } else {
      var frames := Begun(client, pieces, format);
      assert frames[1..] == Begun(client, pieces[1..], format);
      BegunFillsBuffer(cb, Receive(cb, s, frames[0]), client, pieces[1..], format);
      assert s.buffer + pieces[0] + Whole(pieces[1..]) == s.buffer + Whole(pieces);
    }
  }

  // ---- one buffer for all clients: what interleaving does ----

  const EMPTY := HandlerState("", [])

  /** The pieces a client has sent since it last finished a message: its own buffer, if it had one. */
  function Own(frames: seq<Frame>, c: Client): string {
    if frames == [] then ""
    else
      var last := frames[|frames| - 1];
      var before := Own(frames[..|frames| - 1], c);
      if last.client != c then before else if last.more then before + last.data else ""
  }

  /** What the callbacks are to receive: every message made of its own client's pieces. */
  function PerClient(cb: Callbacks, frames: seq<Frame>): seq<Delivery> {
    if frames == [] then []
    else
      var before, last := frames[..|frames| - 1], frames[|frames| - 1];
      PerClient(cb, before)
      + if last.more then [] else Delivered(cb, last.client, Own(before, last.client) + last.data, last.format)
  }

  // whether a frame finishes a message while another client's unfinished one holds data
  ghost predicate Interrupts(before: seq<Frame>, f: Frame) {
    !f.more && exists c :: c != f.client && Own(before, c) != ""
  }

  /** No client finishes a message while another client's unfinished message holds data. */
  ghost predicate NeverInterrupted(frames: seq<Frame>) {
    forall i :: 0 <= i < |frames| ==> !Interrupts(frames[..i], frames[i])
  }

  lemma InterruptedBefore(frames: seq<Frame>)
    requires frames != []
    ensures var before, last := frames[..|frames| - 1], frames[|frames| - 1];
            NeverInterrupted(frames) <==> NeverInterrupted(before) && !Interrupts(before, last)
  {
    var before := frames[..|frames| - 1];
    forall i | 0 <= i < |before| ensures before[..i] == frames[..i] && before[i] == frames[i] {
    }
    assert frames[..|before|] == before;
    if NeverInterrupted(frames) {
      forall i | 0 <= i < |before| ensures !Interrupts(before[..i], before[i]) {
        assert !Interrupts(frames[..i], frames[i]);
      }
    }
    if NeverInterrupted(before) && !Interrupts(before, frames[|before|]) {
      forall i | 0 <= i < |frames| ensures !Interrupts(frames[..i], frames[i]) {
        if i < |before| {
          assert !Interrupts(before[..i], before[i]);
        }
      }
    }
  }

  /** The shared buffer is a client's own when all others are empty, and otherwise longer than any
      one of them. */
  ghost predicate Shared(buffer: string, frames: seq<Frame>) {
    && (forall c :: (forall o :: o != c ==> Own(frames, o) == "") ==> buffer == Own(frames, c))
    && (forall c, o :: c != o ==> |buffer| >= |Own(frames, c)| + |Own(frames, o)|)
  }

  lemma ReceiveKeepsShared(buffer: string, before: seq<Frame>, f: Frame)
    requires Shared(buffer, before) && !Interrupts(before, f)
    ensures Shared(if f.more then buffer + f.data else "", before + [f])
  {
    var frames, after := before + [f], if f.more then buffer + f.data else "";
    assert frames[..|before|] == before;
    forall c ensures Own(frames, c) == (if f.client != c then Own(before, c)
                                        else if f.more then Own(before, c) + f.data else "")
    {
    }
    if f.more {
      forall c | forall o :: o != c ==> Own(frames, o) == "" ensures after == Own(frames, c) {
        OthersWereEmpty(before, f, c);
        assert buffer == Own(before, c);
        if f.client != c {
          assert Own(frames, f.client) == "";
          assert f.data == "" && after == buffer;
        }
      }
      assert forall c, o :: c != o ==> |after| >= |Own(frames, c)| + |Own(frames, o)|;
    } else {
      forall c ensures Own(frames, c) == "" {
        assert c != f.client ==> Own(before, c) == "";
      }
    }
  }

  // a piece only makes a client's own buffer longer
  lemma OthersWereEmpty(before: seq<Frame>, f: Frame, c: Client)
    requires f.more && forall o :: o != c ==> Own(before + [f], o) == ""
    ensures forall o :: o != c ==> Own(before, o) == ""
  {
    assert (before + [f])[..|before|] == before;
    forall o | o != c ensures Own(before, o) == "" {
      assert Own(before + [f], o) == "";
      if o == f.client {
        assert Own(before, o) + f.data == "";
        assert |Own(before, o) + f.data| == |Own(before, o)| + |f.data|;
      }
    }
  }

  lemma ReceiveLast(cb: Callbacks, s: HandlerState, frames: seq<Frame>)
    requires frames != []
    ensures ReceiveAll(cb, s, frames)
            == Receive(cb, ReceiveAll(cb, s, frames[..|frames| - 1]), frames[|frames| - 1])
  {
    var before, last := frames[..|frames| - 1], frames[|frames| - 1];
    assert frames == before + [last];
    ReceiveAllConcat(cb, s, before, [last]);
    var t := ReceiveAll(cb, s, before);
    assert ReceiveAll(cb, t, [last]) == ReceiveAll(cb, Receive(cb, t, last), [last][1..]);
  }

  // when nobody is interrupted, whatever the callbacks are
  lemma {:induction false} UninterruptedIsPerClient(cb: Callbacks, frames: seq<Frame>)
    requires NeverInterrupted(frames)
    ensures ReceiveAll(cb, EMPTY, frames).delivered == PerClient(cb, frames)
    ensures Shared(ReceiveAll(cb, EMPTY, frames).buffer, frames)
  {
    if frames == [] {
    } else {
      var before, last := frames[..|frames| - 1], frames[|frames| - 1];
      InterruptedBefore(frames);
      UninterruptedIsPerClient(cb, before);
      ReceiveLast(cb, EMPTY, frames);
      var t := ReceiveAll(cb, EMPTY, before);
      assert frames == before + [last];
      ReceiveKeepsShared(t.buffer, before, last);
      if !last.more {
        assert forall o :: o != last.client ==> Own(before, o) == "";
        assert t.buffer == Own(before, last.client);
      } else {
        assert PerClient(cb, frames) == PerClient(cb, before) + [];
      }
    }
  }

  // every message that is finished has a callback
  predicate Heard(cb: Callbacks, frames: seq<Frame>) {
    forall f :: f in frames && !f.more ==> HasCallback(cb, f.format)
  }

  // the first interruption delivers too much, and what was delivered is never taken back
  lemma {:induction false} InterruptionShows(cb: Callbacks, frames: seq<Frame>)
    requires Heard(cb, frames)
    ensures |ReceiveAll(cb, EMPTY, frames).delivered| == |PerClient(cb, frames)|
    ensures !NeverInterrupted(frames) ==> ReceiveAll(cb, EMPTY, frames).delivered != PerClient(cb, frames)
  {
    if frames == [] {
    } else {
      var before, last := frames[..|frames| - 1], frames[|frames| - 1];
      assert last in frames && forall f :: f in before ==> f in frames;
      InterruptedBefore(frames);
      InterruptionShows(cb, before);
      ReceiveLast(cb, EMPTY, frames);
      var t := ReceiveAll(cb, EMPTY, before);
      if last.more {
        assert PerClient(cb, frames) == PerClient(cb, before) + [] == PerClient(cb, before);
      } else {
        var got := Delivery(last.client, t.buffer + last.data, last.format);
        var due := Delivery(last.client, Own(before, last.client) + last.data, last.format);
        if NeverInterrupted(before) && Interrupts(before, last) {
          UninterruptedIsPerClient(cb, before);
          var o :| o != last.client && Own(before, o) != "";
          assert |t.buffer| >= |Own(before, last.client)| + |Own(before, o)|;
          assert |got.text| > |due.text|;
        }
        if !NeverInterrupted(frames) {
          LastDiffers(t.delivered, got, PerClient(cb, before), due);
        }
      }
    }
  }

  lemma LastDiffers<T>(a: seq<T>, x: T, b: seq<T>, y: T)
    requires |a| == |b| && (a != b || x != y)
    ensures a + [x] != b + [y]
  {
    assert (a + [x])[..|a|] == a && (b + [y])[..|b|] == b;
    assert (a + [x])[|a|] == x && (b + [y])[|b|] == y;
  }

  /** For every sequence of frames of any number of clients whose messages are listened to: the
      callbacks receive every client's own messages exactly when no client finishes a message while
      another one's unfinished message holds data. */
  lemma ReassemblyIsPerClientIff(cb: Callbacks, frames: seq<Frame>)
    requires Heard(cb, frames)
    ensures ReceiveAll(cb, EMPTY, frames).delivered == PerClient(cb, frames) <==> NeverInterrupted(frames)
  {
    if NeverInterrupted(frames) {
      UninterruptedIsPerClient(cb, frames);
    } else {
      InterruptionShows(cb, frames);
    }
  }

  /** With formats that nobody listens to: the frames are reassembled properly for every set of
      callbacks exactly under the same condition. */
  lemma ReassemblyIsPerClientForAllIff(frames: seq<Frame>)
    requires forall f :: f in frames ==> f.format != Unspecified
    ensures (forall cb :: ReceiveAll(cb, EMPTY, frames).delivered == PerClient(cb, frames))
            <==> NeverInterrupted(frames)
  {
    if NeverInterrupted(frames) {
      forall cb ensures ReceiveAll(cb, EMPTY, frames).delivered == PerClient(cb, frames) {
        UninterruptedIsPerClient(cb, frames);
      }
    } else {
      InterruptionShows(Callbacks(true, false, true), frames);
    }
  }

  /** For a single set of callbacks such a format can hide an interruption: a piece is thrown away
      with a message nobody hears, and another client's equal piece takes its place. */
  lemma UnheardCanHide(a: Client, b: Client, x: string, y: string)
    requires a != b && x != ""
    ensures var cb := Callbacks(true, false, false);
            var frames := [Frame(b, x, true, Text), Frame(a, "", false, Binary),
                           Frame(a, x, true, Text), Frame(b, y, false, Text)];
            && ReceiveAll(cb, EMPTY, frames).delivered == PerClient(cb, frames) == [Delivery(b, x + y, Text)]
            && !NeverInterrupted(frames)
  {
    var cb := Callbacks(true, false, false);
    var f0, f1, f2, f3 := Frame(b, x, true, Text), Frame(a, "", false, Binary), Frame(a, x, true, Text), Frame(b, y, false, Text);
    var frames := [f0, f1, f2, f3];
    assert frames[..3] == [f0, f1, f2] && frames[..3][..2] == [f0, f1] && frames[..3][..2][..1] == [f0];
    assert [f0][..0] == [] && frames[..1] == [f0];
    assert "" + x == x;
    assert Own([f0], b) == x;
    assert Interrupts(frames[..1], frames[1]);
    assert Own([f0, f1], b) == x && Own([f0, f1, f2], b) == x;
    ReceiveLast(cb, EMPTY, [f0]);
    ReceiveLast(cb, EMPTY, frames[..2]);
    ReceiveLast(cb, EMPTY, frames[..3]);
    ReceiveLast(cb, EMPTY, frames);
    assert frames[..2] == [f0, f1] && frames[..2][..1] == [f0];
    assert PerClient(cb, [f0]) == [];
    assert PerClient(cb, [f0, f1]) == [] + [];
    assert PerClient(cb, [f0, f1, f2]) == [] + [];
    assert PerClient(cb, frames) == [] + [Delivery(b, x + y, Text)];
  }

  /** The shortest case: all of m comes between the fragments of another client's message. It is
      delivered as it was sent exactly when the other had sent no data yet; the other's message
      arrives without what it had sent. */
  lemma InterleavedMessageIsIntactIff(cb: Callbacks, delivered: seq<Delivery>, other: Client, begun: seq<string>,
                                      m: Cut, rest: Cut)
    requires m.pieces != [] && HasCallback(cb, m.format)
    requires rest.client == other && rest.pieces != [] && HasCallback(cb, rest.format)
    ensures var s := ReceiveAll(cb, HandlerState("", delivered),
                                Begun(other, begun, m.format) + Frames(m) + Frames(rest));
            && s.delivered == delivered + [Delivery(m.client, Whole(begun) + Whole(m.pieces), m.format),
                                           Delivery(other, Whole(rest.pieces), rest.format)]
            && (s.delivered[|delivered|] == Delivery(m.client, Whole(m.pieces), m.format) <==> Whole(begun) == "")
  {
    var start := HandlerState("", delivered);
    var mixed := Delivery(m.client, Whole(begun) + Whole(m.pieces), m.format);
    ReceiveAllConcat(cb, start, Begun(other, begun, m.format), Frames(m));
    ReceiveAllConcat(cb, start, Begun(other, begun, m.format) + Frames(m), Frames(rest));
    BegunFillsBuffer(cb, start, other, begun, m.format);
    assert "" + Whole(begun) == Whole(begun);
    MessageIsReassembled(cb, HandlerState(Whole(begun), delivered), m);
    MessageIsReassembled(cb, HandlerState("", delivered + [mixed]), rest);
    assert "" + Whole(rest.pieces) == Whole(rest.pieces);
    assert delivered + [mixed] + [Delivery(other, Whole(rest.pieces), rest.format)]
        == delivered + [mixed, Delivery(other, Whole(rest.pieces), rest.format)];
    assert |Whole(begun) + Whole(m.pieces)| == |Whole(begun)| + |Whole(m.pieces)|;
    assert Whole(begun) == "" ==> Whole(begun) + Whole(m.pieces) == Whole(m.pieces);
  }

  class Handler {
    const callbacks: Callbacks
    var buffer: string
    var delivered: seq<Delivery>

    constructor (callbacks: Callbacks)
      ensures this.callbacks == callbacks && View() == HandlerState("", [])
    {
      this.callbacks := callbacks;
      buffer, delivered := "", [];
    }

    function View(): HandlerState
      reads this
    {
      HandlerState(buffer, delivered)
    }

    // the buffer is moved into the request, which leaves it empty
    method CallWithBuffer(client: Client, format: Format) returns (call: Delivery)
      modifies this`buffer, this`delivered
      ensures call == Delivery(client, old(buffer), format)
      ensures buffer == "" && delivered == old(delivered) + [call]
    {
      call := Delivery(client, buffer, format);
      buffer := "";
      delivered := delivered + [call];
    }

    method HandleMessage(f: Frame, answer: Delivery -> Response) returns (reply: Option<Response>)
      requires f.format != Unspecified
      modifies this`buffer, this`delivered
      ensures View() == Receive(callbacks, old(View()), f)
      ensures reply == Reply(callbacks, old(View()), f, answer)
    {
      buffer := buffer + f.data;
      if f.more {
        return None;
      }
      var response := Response("", Sender, Unspecified);
      if f.format == Text {
        if callbacks.text {
          var call := CallWithBuffer(f.client, f.format);
          response := answer(call);
        } else if callbacks.textAsync {
          var call := CallWithBuffer(f.client, f.format);
          return None;
        }
      } else if f.format == Binary && callbacks.binary {
        var call := CallWithBuffer(f.client, f.format);
        response := answer(call);
      }
      buffer := "";
      if response.format == Unspecified {
        response := response.(format := f.format);
      }
      return Some(response);
    }

    /** handleReceive: the handler and, when there is one, the fan-out of its response. */
    method HandleReceive(server: Server, f: Frame, answer: Delivery -> Response)
      requires server.Valid() && f.client in server.wsConnections && f.format != Unspecified
      modifies this`buffer, this`delivered, server.wsConnections.Values
      ensures View() == Receive(callbacks, old(View()), f)
      ensures server.View() == match Reply(callbacks, old(View()), f, answer)
                               case Some(r) => WsStreams.Step(old(server.View()), Respond(r, Some(f.client)))
                               case None => old(server.View())
    {
      var reply := HandleMessage(f, answer);
      if reply.Some? {
        server.SendResponseToRecipient(reply.value, server.wsConnections[f.client], Some(f.client));
      }
    }
  }
}
