/** The WebSocket side of the server: connections with their queues, and the loops over them. */
module WsServer {
  import opened Wrappers
  import opened WsStreams

  class Connection {
    var out: seq<Message>
    var written: seq<Message>       // the channel: what lws_write() was called with
    var writeRequested: bool        // the channel: lws_callback_on_writable() was called

    constructor ()
      ensures View() == NEW_LINK
    {
      out, written, writeRequested := [], [], false;
    }

    function View(): Link
      reads this
    {
      Link(written, out, writeRequested)
    }

    method EnqueueMessage(message: Message)
      modifies this`out
      ensures View() == Enqueue(old(View()), [message], false)
    {
      out := out + [message];
    }

    method Send(message: Message)
      modifies this`out, this`writeRequested
      ensures View() == Enqueue(old(View()), [message], true)
    {
      EnqueueMessage(message);
      writeRequested := true;
    }

    // sendResponse: nobody filled in the format of an unspecified one
    method SendResponse(response: Response)
      modifies this`out, this`writeRequested
      ensures View() == if response.format == Unspecified then old(View())
                        else Enqueue(old(View()), [Message(response.message, response.format)], true)
    {
      match response.format {
        case Unspecified =>
        case Binary => Send(Message(response.message, Binary));
        case Text => Send(Message(response.message, Text));
      }
    }

    method WriteOneMessage()
      requires out != []
      modifies this`out, this`written
      ensures written == old(written) + [old(out)[0]] && out == old(out)[1..]
    {
      var message := out[0];
      written := written + [message];
      out := out[1..];
    }

    // whether the pipe is choked is up to the network
    method CanWrite() returns (free: bool) {
      free := *;
    }

    /** The writable callback has come; n messages could be written. */
    method WriteMessages() returns (n: nat)
      modifies this
      ensures n <= |old(out)| && View() == Flush(old(View()), n)
    {
      n := 0;
      writeRequested := false;
      var free := CanWrite();
      while out != [] && free
        invariant n <= |old(out)| && out == old(out)[n..]
        invariant written == old(written) + old(out)[..n]
        invariant !writeRequested
        decreases |out|
      {
        WriteOneMessage();
        assert old(out)[..n + 1] == old(out)[..n] + [old(out)[n]];
        n := n + 1;
        free := CanWrite();
      }
      if out != [] {
        writeRequested := true;
      }
    }
  }

  class Server {
    var wsConnections: map<Client, Connection>
    var broadcastRequested: bool

    constructor ()
      ensures Valid() && View() == Run([])
    {
      wsConnections, broadcastRequested := map[], false;
    }

    // every handle has a connection object of its own
    ghost predicate Valid()
      reads this`wsConnections
    {
      forall c1, c2 :: c1 in wsConnections && c2 in wsConnections && c1 != c2 ==>
        wsConnections[c1] != wsConnections[c2]
    }

    function View(): Links
      reads this`wsConnections, wsConnections.Values
    {
      map c | c in wsConnections :: wsConnections[c].View()
    }

    // a loop over the connections has done all but those in todo
    ghost predicate Served(before: Links, cmd: Command, todo: set<Client>)
      reads this`wsConnections, wsConnections.Values
    {
      && todo <= wsConnections.Keys == before.Keys
      && (forall c :: c in wsConnections ==>
            wsConnections[c].View()
            == if c in todo then before[c] else Enqueue(before[c], Addressed(cmd, c), cmd.Respond?))
    }

    lemma ServedNone(cmd: Command)
      ensures Served(View(), cmd, wsConnections.Keys)
    {
    }

    lemma ServedAll(before: Links, cmd: Command)
      requires Served(before, cmd, {})
      requires !cmd.Open? && !cmd.Close? && !cmd.Writable?
      ensures View() == Step(before, cmd)
    {
      hide Enqueue, Addressed;
    }

    // the next connection is none of the targets
    lemma Skipped(before: Links, cmd: Command, todo: set<Client>, c: Client)
      requires Served(before, cmd, todo) && c in todo && Addressed(cmd, c) == []
      ensures Served(before, cmd, todo - {c})
    {
      EnqueueNothing(before[c], cmd.Respond?);
      hide Enqueue, Addressed;
    }

    // the next connection gets its message
    method EnqueueNext(c: Client, message: Message, ghost before: Links, ghost cmd: Command, ghost todo: set<Client>)
      requires Valid() && Served(before, cmd, todo) && c in todo
      requires Addressed(cmd, c) == [message] && !cmd.Respond?
      modifies wsConnections[c]
      ensures Served(before, cmd, todo - {c})
    {
      hide Enqueue, Addressed;
      wsConnections[c].EnqueueMessage(message);
    }

    method RespondNext(c: Client, response: Response, ghost before: Links, ghost cmd: Command, ghost todo: set<Client>)
      requires Valid() && Served(before, cmd, todo) && c in todo && cmd.Respond?
      requires Addressed(cmd, c) == if response.format == Unspecified then []
                                    else [Message(response.message, response.format)]
      modifies wsConnections[c]
      ensures Served(before, cmd, todo - {c})
    {
      EnqueueNothing(before[c], true);
      hide Enqueue, Addressed;
      wsConnections[c].SendResponse(response);
    }

    // the sender's place in the table, if it has one
    ghost predicate Named(sender: Connection, name: Option<Client>)
      reads this`wsConnections
    {
      match name
      case Some(c) => c in wsConnections && wsConnections[c] == sender
      case None => sender !in wsConnections.Values
    }

    method BroadcastText(text: string)
      requires Valid()
      modifies this`broadcastRequested, wsConnections.Values
      ensures broadcastRequested && View() == Step(old(View()), Command.BroadcastText(text))
    {
      ghost var before, cmd := View(), Command.BroadcastText(text);
      ServedNone(cmd);
      var todo := wsConnections.Keys;
      while todo != {}
        invariant todo <= wsConnections.Keys && Served(before, cmd, todo)
        decreases todo
      {
        var c :| c in todo;
        EnqueueNext(c, Message(text, Text), before, cmd, todo);
        todo := todo - {c};
      }
      ServedAll(before, cmd);
      broadcastRequested := true;
    }

    method BroadcastTextExcept(text: string, filter: set<Client>)
      requires Valid()
      modifies this`broadcastRequested, wsConnections.Values
      ensures broadcastRequested && View() == Step(old(View()), Command.BroadcastTextExcept(text, filter))
    {
      ghost var before, cmd := View(), Command.BroadcastTextExcept(text, filter);
      ServedNone(cmd);
      var todo := wsConnections.Keys;
      while todo != {}
        invariant todo <= wsConnections.Keys && Served(before, cmd, todo)
        decreases todo
      {
        var c :| c in todo;
        if c !in filter {
          EnqueueNext(c, Message(text, Text), before, cmd, todo);
        } else {
          Skipped(before, cmd, todo, c);
        }
        todo := todo - {c};
      }
      ServedAll(before, cmd);
      broadcastRequested := true;
    }

    method SendText(text: string, client: Client)
      requires Valid()
      modifies this`broadcastRequested, wsConnections.Values
      ensures broadcastRequested && View() == Step(old(View()), Command.SendText(text, client))
    {
      ghost var before, cmd := View(), Command.SendText(text, client);
      ServedNone(cmd);
      var todo := wsConnections.Keys;
      while todo != {}
        invariant todo <= wsConnections.Keys && Served(before, cmd, todo)
        decreases todo
      {
        var c :| c in todo;
        if client == c {
          EnqueueNext(c, Message(text, Text), before, cmd, todo);
        } else {
          Skipped(before, cmd, todo, c);
        }
        todo := todo - {c};
      }
      ServedAll(before, cmd);
      broadcastRequested := true;
    }

    method BroadcastBinary(text: string)
      requires Valid()
      modifies this`broadcastRequested, wsConnections.Values
      ensures broadcastRequested && View() == Step(old(View()), Command.BroadcastBinary(text))
    {
      ghost var before, cmd := View(), Command.BroadcastBinary(text);
      ServedNone(cmd);
      var todo := wsConnections.Keys;
      while todo != {}
        invariant todo <= wsConnections.Keys && Served(before, cmd, todo)
        decreases todo
      {
        var c :| c in todo;
        EnqueueNext(c, Message(text, Binary), before, cmd, todo);
        todo := todo - {c};
      }
      ServedAll(before, cmd);
      broadcastRequested := true;
    }

    // the loop of _sendResponseToRecipient over all connections, or all but the sender's
    method SendToMany(response: Response, sender: Connection, ghost name: Option<Client>)
      requires Valid() && Named(sender, name)
      requires response.message != "" && response.recipient != Sender
      modifies wsConnections.Values
      ensures View() == Step(old(View()), Respond(response, name))
    {
      ghost var before, cmd := View(), Respond(response, name);
      ServedNone(cmd);
      var todo := wsConnections.Keys;
      while todo != {}
        invariant todo <= wsConnections.Keys && Served(before, cmd, todo)
        decreases todo
      {
        var c :| c in todo;
        if response.recipient == Others && wsConnections[c] == sender {
          Skipped(before, cmd, todo, c);
        } else {
          RespondNext(c, response, before, cmd, todo);
        }
        todo := todo - {c};
      }
      ServedAll(before, cmd);
    }

    method SendToSender(response: Response, sender: Connection, ghost name: Option<Client>)
      requires Valid() && Named(sender, name)
      requires response.message != "" && response.recipient == Sender
      modifies sender
      ensures View() == Step(old(View()), Respond(response, name))
    {
      ghost var before := View();
      ghost var cmd := Respond(response, name);
      sender.SendResponse(response);
      forall c | c in wsConnections
        ensures wsConnections[c].View() == Enqueue(before[c], Addressed(cmd, c), true)
      {
        EnqueueNothing(before[c], true);
      }
    }

    /** _sendResponseToRecipient, with sendResponse for each recipient. The sender may be a connection
        that is not in the table. */
    method SendResponseToRecipient(response: Response, sender: Connection, ghost name: Option<Client>)
      requires Valid() && Named(sender, name)
      modifies wsConnections.Values, sender
      ensures View() == Step(old(View()), Respond(response, name))
    {
      if response.message == "" {
        forall c | c in wsConnections ensures Enqueue(View()[c], [], true) == View()[c] {
          EnqueueNothing(View()[c], true);
        }
      } else if response.recipient == Sender {
        SendToSender(response, sender, name);
      } else {
        SendToMany(response, sender, name);
      }
    }

    // the responses of an open or close callback, one after the other
    method SendAll(responses: seq<Response>, sender: Connection, ghost name: Option<Client>)
      requires Valid() && Named(sender, name)
      modifies wsConnections.Values, sender
      ensures View() == RunFrom(old(View()), Responses(responses, name))
    {
      hide Step;
      for i := 0 to |responses|
        invariant View() == RunFrom(old(View()), Responses(responses[..i], name))
      {
        SendResponseToRecipient(responses[i], sender, name);
        assert Responses(responses[..i + 1], name)[..i] == Responses(responses[..i], name);
      }
      assert responses[..|responses|] == responses;
    }

    /** openWsConnection with the responses of the open callback, none if there is no callback. */
    method OpenWsConnection(client: Client, responses: seq<Response>)
      requires Valid()
      modifies this`wsConnections, wsConnections.Values
      ensures Valid() && View() == RunFrom(old(View()), OpenCommands(old(View()), client, responses))
    {
      ghost var before := View();
      ghost var name := if client in wsConnections then None else Some(client);
      var connection := new Connection();
      if client !in wsConnections {
        wsConnections := wsConnections[client := connection];
      }
      assert View() == Step(before, Open(client));
      hide Step, Enqueue;
      assert RunFrom(before, [Open(client)]) == View() by {
        assert [Open(client)][..0] == [];
      }
      SendAll(responses, connection, name);
      RunFromConcat(before, [Open(client)], Responses(responses, name));
    }

    /** closeWsConnection with the responses of the close callback; at() throws for a handle that is
        not in the table. */
    method CloseWsConnection(client: Client, responses: seq<Response>) returns (thrown: bool)
      requires Valid()
      modifies this`wsConnections, wsConnections.Values
      ensures Valid() && (thrown <==> client !in old(wsConnections))
      ensures wsConnections == old(wsConnections) - {client}
      ensures View() == if thrown then old(View()) else RunFrom(old(View()), CloseCommands(client, responses))
    {
      if client !in wsConnections {
        return true;
      }
      ghost var before := View();
      SendAll(responses, wsConnections[client], Some(client));
      ghost var answered := View();
      wsConnections := wsConnections - {client};
      assert View() == Step(answered, Close(client));
      assert CloseCommands(client, responses)[..|responses|] == Responses(responses, Some(client));
      return false;
    }

    method HandleWrite(client: Client) returns (n: nat)
      requires Valid() && client in wsConnections
      modifies wsConnections.Values
      ensures View() == Step(old(View()), Writable(client, n))
    {
      hide Flush, Enqueue;
      ghost var before := View();
      n := wsConnections[client].WriteMessages();
      assert forall c :: c in wsConnections && c != client ==> wsConnections[c].View() == before[c];
      assert View() == before[client := Flush(before[client], n)];
    }
  }
}
