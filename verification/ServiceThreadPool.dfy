/** The service thread pool's sequential code; BroadcastWakeUp interleaves the same steps. */
module ServiceThreadPool {
  import opened Wrappers
  import opened BroadcastWakeUp

  // the part of the server context the pool uses: lws_callback_on_writable_all_protocol()
  class ServerContext {
    var connections: set<Conn>
    var writable: set<Conn>

    constructor ()
      ensures connections == {} && writable == {}
    {
      connections, writable := {}, {};
    }

    method RequestBroadcast()
      modifies this`writable
      ensures writable == old(writable) + connections
    {
      writable := writable + connections;
    }
  }

  class ServiceThreadPool {
    const context: ServerContext
    const broadcastRequested: array<bool>

    constructor (context: ServerContext, threadCount: nat)
      ensures this.context == context
      ensures fresh(broadcastRequested) && broadcastRequested.Length == threadCount
    {
      this.context := context;
      broadcastRequested := new bool[threadCount];
    }

    // the pool's part of a state of BroadcastWakeUp
    ghost predicate Shows(s: State)
      reads context, broadcastRequested
    {
      && s.flag == broadcastRequested[..]
      && s.owner.Keys == context.connections
      && s.writable == context.writable
    }

    /** With the connections mutex held, this is the flagging round of any such state. */
    method RequestBroadcast(ghost s: State) returns (ghost actions: seq<Action>)
      requires Shows(s) && s.mutex == Some(Flagging(0))
      modifies broadcastRequested
      ensures broadcastRequested[..] == seq(broadcastRequested.Length, _ => true)
      ensures Lawful(s, actions) && Shows(Run(s, actions)) && Run(s, actions).mutex == None
      ensures forall a :: a in actions ==> a.SetFlag? || a.BroadcastUnlock?
    {
      for tsi := 0 to broadcastRequested.Length
        invariant forall k :: 0 <= k < tsi ==> broadcastRequested[k]
      {
        broadcastRequested[tsi] := true;
      }
      actions := FlagRound(s);
    }

    /** This is the check of thread tsi, in any such state. */
    method HandleBroadcastRequest(tsi: Thread, ghost s: State) returns (ghost actions: seq<Action>)
      requires tsi < broadcastRequested.Length && Shows(s) && At(s, tsi, Servicing)
      modifies broadcastRequested, context`writable
      ensures context.writable == old(context.writable) + if old(broadcastRequested[tsi]) then context.connections else {}
      ensures broadcastRequested[..] == old(broadcastRequested[..])[tsi := false]
      ensures Lawful(s, actions) && Shows(Run(s, actions)) && Run(s, actions).place == s.place
      ensures forall a :: a in actions ==> FlagCycle(a) && a.t == tsi
    {
      if broadcastRequested[tsi] {
        context.RequestBroadcast();
        broadcastRequested[tsi] := false;
      }
      actions := CheckRound(s, tsi);
    }
  }
}
