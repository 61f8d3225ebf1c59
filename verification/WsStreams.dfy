/** WebSocket messages on their way out: what is addressed to a client, what waits in its queue and
    what was written to it. */
module WsStreams {
  import opened Wrappers

  // a connection; its lws handle and the address of its object are the same number here
  type Client = nat

  datatype Format = Text | Binary | Unspecified

  datatype Message = Message(text: string, format: Format)

  datatype Recipient = Sender | Others | All

  datatype Response = Response(message: string, recipient: Recipient, format: Format)

  // one connection: written to the channel, still queued, and asked for a writable callback
  datatype Link = Link(written: seq<Message>, out: seq<Message>, writeRequested: bool)

  type Links = map<Client, Link>

  datatype Command =
    | Open(client: Client)
    | Close(client: Client)
    | BroadcastText(text: string)
    | BroadcastTextExcept(text: string, filter: set<Client>)
    | SendText(text: string, client: Client)
    | BroadcastBinary(text: string)
    | Respond(response: Response, sender: Option<Client>)   // None: a sender that is not in the table
    | Writable(client: Client, n: nat)   // n messages go out before the channel chokes

  const NEW_LINK := Link([], [], false)

  // nothing is sent for an empty message, nor for a format nobody filled in
  predicate IsSendable(r: Response) {
    r.message != "" && r.format != Unspecified
  }

  predicate IsTarget(r: Response, sender: Option<Client>, c: Client) {
    match r.recipient
    case All => true
    case Others => sender != Some(c)
    case Sender => sender == Some(c)
  }

  /** The message a command addresses to client c, if any. */
  function Addressed(cmd: Command, c: Client): seq<Message> {
    match cmd
    case BroadcastText(text) => [Message(text, Text)]
    case BroadcastTextExcept(text, filter) => if c in filter then [] else [Message(text, Text)]
    case SendText(text, client) => if c == client then [Message(text, Text)] else []
    case BroadcastBinary(text) => [Message(text, Binary)]
    case Respond(response, sender) =>
      if IsSendable(response) && IsTarget(response, sender, c)
      then [Message(response.message, response.format)] else []
    case Open(_) | Close(_) | Writable(_, _) => []
  }

  function Enqueue(link: Link, messages: seq<Message>, request: bool): Link {
    link.(out := link.out + messages, writeRequested := link.writeRequested || (request && messages != []))
  }

  lemma EnqueueNothing(link: Link, request: bool)
    ensures Enqueue(link, [], request) == link
  {
    assert link.out + [] == link.out;
  }

  // writeMessages: n messages are written, and the rest asks for another callback
  function Flush(link: Link, n: nat): Link {
    var k := if n <= |link.out| then n else |link.out|;
    Link(link.written + link.out[..k], link.out[k..], link.out[k..] != [])
  }

  function Step(links: Links, cmd: Command): Links {
    match cmd
    case Open(client) => if client in links then links else links[client := NEW_LINK]
    case Close(client) => links - {client}
    case Writable(client, n) => if client in links then links[client := Flush(links[client], n)] else links
    case _ => map c | c in links :: Enqueue(links[c], Addressed(cmd, c), cmd.Respond?)
  }

  function RunFrom(links: Links, cmds: seq<Command>): Links {
    if cmds == [] then links else Step(RunFrom(links, cmds[..|cmds| - 1]), cmds[|cmds| - 1])
  }

  function Run(cmds: seq<Command>): Links {
    RunFrom(map[], cmds)
  }

  lemma {:induction false} RunFromConcat(links: Links, first: seq<Command>, second: seq<Command>)
    ensures RunFrom(links, first + second) == RunFrom(RunFrom(links, first), second)
  {
    if second == [] {
      assert first + second == first;
    } else {
      RunFromConcat(links, first, second[..|second| - 1]);
      assert (first + second)[..|first + second| - 1] == first + second[..|second| - 1];
    }
  }

  function Stream(link: Link): seq<Message> {
    link.written + link.out
  }

  /** What client c is to receive, from the commands alone: everything addressed to it since it was
      opened, in the order of issue; None when it is not connected. */
  function Inbox(cmds: seq<Command>, c: Client): Option<seq<Message>> {
    if cmds == [] then None
    else
      var before := Inbox(cmds[..|cmds| - 1], c);
      var last := cmds[|cmds| - 1];
      if last == Close(c) then None
      else if last == Open(c) && before == None then Some([])
      else if before == None then None
      else Some(before.value + Addressed(last, c))
  }

  /** Who gets which message, command by command: the queue of a connected client afterwards. */
  lemma StepReaches(links: Links, cmd: Command, c: Client)
    requires c in links && cmd != Close(c)
    ensures c in Step(links, cmd)
    ensures Step(links, cmd)[c].out ==
              match cmd
              case BroadcastText(text) => links[c].out + [Message(text, Text)]
              case BroadcastTextExcept(text, _) =>
                if c in cmd.filter then links[c].out else links[c].out + [Message(text, Text)]
              case SendText(text, client) =>
                if c == client then links[c].out + [Message(text, Text)] else links[c].out
              case BroadcastBinary(text) => links[c].out + [Message(text, Binary)]
              case Respond(r, sender) =>
                if || r.message == "" || r.format == Unspecified
                   || (r.recipient == Others && sender == Some(c))
                   || (r.recipient == Sender && sender != Some(c))
                then links[c].out
                else links[c].out + [Message(r.message, r.format)]
              case Writable(client, n) =>
                if c != client then links[c].out else if n <= |links[c].out| then links[c].out[n..] else []
              case Open(_) => links[c].out
              case Close(_) => links[c].out
    ensures Step(links, cmd)[c].written ==
              match cmd
              case Writable(client, n) =>
                links[c].written +
                (if c != client then [] else if n <= |links[c].out| then links[c].out[..n] else links[c].out)
              case _ => links[c].written
    ensures Step(links, cmd)[c].writeRequested ==
              match cmd
              case Writable(client, _) =>
                if c == client then Step(links, cmd)[c].out != [] else links[c].writeRequested
              case Respond(_, _) => links[c].writeRequested || Step(links, cmd)[c].out != links[c].out
              case _ => links[c].writeRequested
  {
    assert forall m :: |links[c].out + [m]| == |links[c].out| + 1;
    assert links[c].out + [] == links[c].out && links[c].written + [] == links[c].written;
    assert links[c].out[..|links[c].out|] == links[c].out;
  }

  /** The same of the inbox. */
  lemma InboxGrows(cmds: seq<Command>, cmd: Command, c: Client)
    ensures var before := Inbox(cmds, c);
            Inbox(cmds + [cmd], c) ==
              match cmd
              case Open(client) => if client == c && before == None then Some([]) else before
              case Close(client) => if client == c then None else before
              case BroadcastText(text) => if before == None then None else Some(before.value + [Message(text, Text)])
              case BroadcastTextExcept(text, _) =>
                if before == None || c in cmd.filter then before else Some(before.value + [Message(text, Text)])
              case SendText(text, client) =>
                if before == None || c != client then before else Some(before.value + [Message(text, Text)])
              case BroadcastBinary(text) => if before == None then None else Some(before.value + [Message(text, Binary)])
              case Respond(r, sender) =>
                if || before == None || r.message == "" || r.format == Unspecified
                   || (r.recipient == Others && sender == Some(c))
                   || (r.recipient == Sender && sender != Some(c))
                then before
                else Some(before.value + [Message(r.message, r.format)])
              case Writable(_, _) => before
  {
    assert (cmds + [cmd])[..|cmds|] == cmds;
    assert Inbox(cmds, c).Some? ==> Inbox(cmds, c).value + [] == Inbox(cmds, c).value;
  }

  /** At every point of every run, what was written to a client followed by what is queued for it is
      exactly its inbox. That the queue is looked at is the subject of BroadcastWakeUp. */
  lemma {:induction false} StreamIsInbox(cmds: seq<Command>, c: Client)
    ensures c in Run(cmds) <==> Inbox(cmds, c).Some?
    ensures c in Run(cmds) ==> Stream(Run(cmds)[c]) == Inbox(cmds, c).value
  {
    if cmds == [] {
    } else {
      var before := cmds[..|cmds| - 1];
      var last := cmds[|cmds| - 1];
      StreamIsInbox(before, c);
      if c in Run(before) && last != Close(c) {
        StepExtendsStream(Run(before), last, c);
      }
    }
  }

  lemma StepExtendsStream(links: Links, cmd: Command, c: Client)
    requires c in links && cmd != Close(c)
    ensures c in Step(links, cmd)
    ensures Stream(Step(links, cmd)[c]) == Stream(links[c]) + Addressed(cmd, c)
    ensures links[c].written <= Step(links, cmd)[c].written
  {
    var link := links[c];
    if cmd.Writable? && cmd.client == c {
      var k := if cmd.n <= |link.out| then cmd.n else |link.out|;
      assert link.out == link.out[..k] + link.out[k..];
    }
    assert Stream(link) + [] == Stream(link);
  }

  /** What was written is never taken back, so a client sees a growing prefix of its inbox. */
  lemma {:induction false} WrittenIsInboxPrefix(cmds: seq<Command>, c: Client)
    requires c in Run(cmds)
    ensures Inbox(cmds, c).Some? && Run(cmds)[c].written <= Inbox(cmds, c).value
  {
    StreamIsInbox(cmds, c);
  }

  /** Enough writable callbacks drain a queue: one that is not choked empties it, and one that is
      leaves a request for the next. */
  lemma FlushDrains(link: Link, n: nat)
    ensures Stream(Flush(link, n)) == Stream(link)
    ensures n >= |link.out| ==> Flush(link, n).out == []
    ensures Flush(link, n).out != [] ==> Flush(link, n).writeRequested
    ensures n > 0 && link.out != [] ==> |Flush(link, n).out| < |link.out|
  {
    var k := if n <= |link.out| then n else |link.out|;
    assert link.out == link.out[..k] + link.out[k..];
  }

  // ---- the open and close callbacks ----

  function Responses(responses: seq<Response>, sender: Option<Client>): seq<Command> {
    seq(|responses|, i requires 0 <= i < |responses| => Respond(responses[i], sender))
  }

  // a second connection of the same handle is not put into the table, yet its callback is called
  function OpenCommands(links: Links, client: Client, responses: seq<Response>): seq<Command> {
    [Open(client)] + Responses(responses, if client in links then None else Some(client))
  }

  function CloseCommands(client: Client, responses: seq<Response>): seq<Command> {
    Responses(responses, Some(client)) + [Close(client)]
  }

  /** A response is enqueued for a recipient exactly when its format is set and its message is not
      empty. handleMessage sets the format that a callback left open; the open and close callbacks
      have to do it themselves. */
  lemma ResponseIsEnqueuedIff(links: Links, r: Response, sender: Option<Client>, c: Client)
    requires c in links && IsTarget(r, sender, c)
    ensures var after := Step(links, Respond(r, sender))[c];
            && (after.out == links[c].out + [Message(r.message, r.format)] && after.writeRequested
                <==> r.format != Unspecified && r.message != "")
            && (r.format == Unspecified || r.message == "" ==> after == links[c])
  {
    EnqueueNothing(links[c], true);
    assert |links[c].out + [Message(r.message, r.format)]| == |links[c].out| + 1;
  }

  /** What the responses of one callback put into c's queue. */
  function Mail(responses: seq<Response>, sender: Option<Client>, c: Client): seq<Message> {
    if responses == [] then []
    else
      var last := responses[|responses| - 1];
      Mail(responses[..|responses| - 1], sender, c)
      + if last.message != "" && last.format != Unspecified && IsTarget(last, sender, c)
        then [Message(last.message, last.format)] else []
  }

  lemma ResponseIsMailed(links: Links, r: Response, sender: Option<Client>, c: Client)
    requires c in links
    ensures c in Step(links, Respond(r, sender))
    ensures Step(links, Respond(r, sender))[c].written == links[c].written
    ensures Step(links, Respond(r, sender))[c].out
            == links[c].out + (if r.message != "" && r.format != Unspecified && IsTarget(r, sender, c)
                               then [Message(r.message, r.format)] else [])
  {
  }

  lemma {:induction false} ResponsesAreMailed(links: Links, responses: seq<Response>, sender: Option<Client>, c: Client)
    requires c in links
    ensures var after := RunFrom(links, Responses(responses, sender));
            && c in after && after[c].written == links[c].written
            && after[c].out == links[c].out + Mail(responses, sender, c)
  {
    if responses == [] {
      assert links[c].out + [] == links[c].out;
    } else {
      var rest, last := responses[..|responses| - 1], responses[|responses| - 1];
      var before := RunFrom(links, Responses(rest, sender));
      assert RunFrom(links, Responses(responses, sender)) == Step(before, Respond(last, sender)) by {
        hide Step;
        assert Responses(responses, sender)[..|responses| - 1] == Responses(rest, sender);
        assert Responses(responses, sender)[|responses| - 1] == Respond(last, sender);
      }
      hide Step, RunFrom, Responses, IsTarget;
      ResponsesAreMailed(links, rest, sender, c);
      ResponseIsMailed(before, last, sender, c);
    }
  }

  /** A client that opens finds in its queue what the open callback addressed to it; what its close
      callback addresses to the others stays, and its own queue goes with it. */
  lemma OpenAndCloseMail(links: Links, client: Client, responses: seq<Response>, c: Client)
    requires c in links && c != client
    ensures client !in links ==>
              var after := RunFrom(links, OpenCommands(links, client, responses));
              && c in after && after[c].out == links[c].out + Mail(responses, Some(client), c)
              && client in after && after[client].out == Mail(responses, Some(client), client)
    ensures var after := RunFrom(links, CloseCommands(client, responses));
            && c in after && after[c].out == links[c].out + Mail(responses, Some(client), c)
            && client !in after
  {
    if client !in links {
      var withClient := Step(links, Open(client));
      assert RunFrom(links, [Open(client)]) == withClient by {
        assert [Open(client)][..0] == [];
      }
      RunFromConcat(links, [Open(client)], Responses(responses, Some(client)));
      ResponsesAreMailed(withClient, responses, Some(client), c);
      ResponsesAreMailed(withClient, responses, Some(client), client);
      assert [] + Mail(responses, Some(client), client) == Mail(responses, Some(client), client);
    }
    var answered := RunFrom(links, Responses(responses, Some(client)));
    assert CloseCommands(client, responses)[..|responses|] == Responses(responses, Some(client));
    ResponsesAreMailed(links, responses, Some(client), c);
  }
}
