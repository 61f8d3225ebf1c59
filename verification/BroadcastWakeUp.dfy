/** How a queued message wakes the service thread that owns its connection, as a state machine over
    any number of service threads, broadcasters and connections. Each access to an atomic flag, each
    connection marked, each message enqueued or written is a step of its own. */
module BroadcastWakeUp {
  import opened Wrappers

  type Thread = nat
  type Conn = nat
  type Message = string

  // where a service thread is between two calls of service()
  datatype Place =
    | Servicing
    | Marking(todo: set<Conn>)   // saw its flag; asks every connection for a writable callback
    | Clearing                   // marked them all, the flag is not cleared yet
    | Awaiting(c: Conn)          // in handleWrite, waits for the connections mutex
    | Writing(c: Conn)           // in writeMessages, holds the mutex
    | Receiving                  // in handleReceive, holds the mutex

  datatype Holder =
    | Broadcaster(todo: set<Conn>, message: Message)
    | Flagging(next: nat)
    | Writer(t: Thread)
    | Receiver(t: Thread, owes: Option<Conn>)   // enqueued on a connection, requestWrite() comes next

  datatype State = State(
    owner: map<Conn, Thread>,
    queue: map<Conn, seq<Message>>,
    writable: set<Conn>,
    flag: seq<bool>,
    place: seq<Place>,
    mutex: Option<Holder>,
    owed: multiset<Conn>)   // enqueued by asynchronous senders, which did not call requestWrite() yet

  datatype Action =
    | Open(t: Thread, c: Conn)
    | Close(t: Thread, c: Conn)
    | BroadcastLock(targets: set<Conn>, message: Message)
    | Enqueue(c: Conn)
    | StartFlags
    | SetFlag
    | BroadcastUnlock
    | Check(t: Thread)
    | Mark(t: Thread, c: Conn)
    | MarksDone(t: Thread)
    | Clear(t: Thread)
    | Wake(t: Thread, c: Conn)
    | WriteLock(t: Thread)
    | WriteOne(t: Thread)
    | WriteEnd(t: Thread)
    | ReceiveLock(t: Thread)
    | ReceiveEnqueue(c: Conn, message: Message)
    | RequestWrite
    | ReceiveUnlock
    | AsyncEnqueue(c: Conn, message: Message)   // the reply of an asynchronous text callback, without the mutex
    | AsyncRequest(c: Conn)

  // the flags are allocated without a value, so nothing is said about them
  ghost predicate Initial(s: State) {
    && s.owner == map[] && s.queue == map[] && s.writable == {} && s.mutex == None
    && s.owed == multiset{} && |s.flag| == |s.place|
    && forall t :: 0 <= t < |s.place| ==> s.place[t] == Servicing
  }

  predicate At(s: State, t: Thread, where: Place) {
    t < |s.place| && |s.flag| == |s.place| && s.place[t] == where
  }

  predicate Has(s: State, c: Conn) {
    c in s.owner && c in s.queue
  }

  /** Connections are opened, closed and served only by the thread that owns them, between two
      broadcasts checks of that thread. */
  predicate Enabled(s: State, a: Action) {
    match a
    case Open(t, c) => At(s, t, Servicing) && s.mutex == None && c !in s.owner
    case Close(t, c) => At(s, t, Servicing) && s.mutex == None && c in s.owner && s.owner[c] == t
    case BroadcastLock(targets, _) => s.mutex == None && targets <= s.owner.Keys
    case Enqueue(c) => s.mutex.Some? && s.mutex.value.Broadcaster? && c in s.mutex.value.todo && Has(s, c)
    case StartFlags => s.mutex.Some? && s.mutex.value.Broadcaster? && s.mutex.value.todo == {}
    case SetFlag => s.mutex.Some? && s.mutex.value.Flagging? && s.mutex.value.next < |s.flag|
    case BroadcastUnlock => s.mutex == Some(Flagging(|s.flag|))
    case Check(t) => At(s, t, Servicing)
    case Mark(t, c) => t < |s.place| && s.place[t].Marking? && c in s.place[t].todo
    case MarksDone(t) => At(s, t, Marking({}))
    case Clear(t) => At(s, t, Clearing)
    case Wake(t, c) => At(s, t, Servicing) && c in s.writable && c in s.owner && s.owner[c] == t
    case WriteLock(t) => t < |s.place| && s.place[t].Awaiting? && s.mutex == None
    case WriteOne(t) =>
      t < |s.place| && s.place[t].Writing? && Has(s, s.place[t].c) && s.queue[s.place[t].c] != []
    case WriteEnd(t) => t < |s.place| && s.place[t].Writing? && Has(s, s.place[t].c)
    case ReceiveLock(t) => At(s, t, Servicing) && s.mutex == None
    case ReceiveEnqueue(c, _) =>
      s.mutex.Some? && s.mutex.value.Receiver? && s.mutex.value.owes == None && Has(s, c)
    case RequestWrite => s.mutex.Some? && s.mutex.value.Receiver? && s.mutex.value.owes.Some?
    case ReceiveUnlock =>
      && s.mutex.Some? && s.mutex.value.Receiver? && s.mutex.value.owes == None
      && s.mutex.value.t < |s.place|
    case AsyncEnqueue(c, _) => Has(s, c)
    case AsyncRequest(c) => c in s.owed
  }

  function Push(s: State, c: Conn, message: Message): map<Conn, seq<Message>>
    requires Has(s, c)
  {
    s.queue[c := s.queue[c] + [message]]
  }

  function Apply(s: State, a: Action): State
    requires Enabled(s, a)
  {
    match a
    case Open(t, c) => s.(owner := s.owner[c := t], queue := s.queue[c := []])
    case Close(t, c) =>
      s.(owner := s.owner - {c}, queue := s.queue - {c}, writable := s.writable - {c})
    case BroadcastLock(targets, message) => s.(mutex := Some(Broadcaster(targets, message)))
    case Enqueue(c) =>
      var b := s.mutex.value;
      s.(queue := Push(s, c, b.message), mutex := Some(Broadcaster(b.todo - {c}, b.message)))
    case StartFlags => s.(mutex := Some(Flagging(0)))
    case SetFlag =>
      var next := s.mutex.value.next;
      s.(flag := s.flag[next := true], mutex := Some(Flagging(next + 1)))
    case BroadcastUnlock => s.(mutex := None)
    case Check(t) =>
      if s.flag[t] then s.(place := s.place[t := Marking(s.owner.Keys)]) else s
    case Mark(t, c) =>
      s.(place := s.place[t := Marking(s.place[t].todo - {c})],
         writable := if c in s.owner then s.writable + {c} else s.writable)
    case MarksDone(t) => s.(place := s.place[t := Clearing])
    case Clear(t) => s.(flag := s.flag[t := false], place := s.place[t := Servicing])
    case Wake(t, c) => s.(writable := s.writable - {c}, place := s.place[t := Awaiting(c)])
    case WriteLock(t) => s.(mutex := Some(Writer(t)), place := s.place[t := Writing(s.place[t].c)])
    case WriteOne(t) =>
      var c := s.place[t].c;
      s.(queue := s.queue[c := s.queue[c][1..]])
    case WriteEnd(t) =>
      var c := s.place[t].c;
      s.(mutex := None, place := s.place[t := Servicing],
         writable := if s.queue[c] != [] then s.writable + {c} else s.writable)
    case ReceiveLock(t) => s.(mutex := Some(Receiver(t, None)), place := s.place[t := Receiving])
    case ReceiveEnqueue(c, message) =>
      s.(queue := Push(s, c, message), mutex := Some(Receiver(s.mutex.value.t, Some(c))))
    case RequestWrite =>
      var h := s.mutex.value;
      s.(writable := s.writable + {h.owes.value}, mutex := Some(Receiver(h.t, None)))
    case ReceiveUnlock => s.(mutex := None, place := s.place[s.mutex.value.t := Servicing])
    case AsyncEnqueue(c, message) => s.(queue := Push(s, c, message), owed := s.owed + multiset{c})
    case AsyncRequest(c) =>
      s.(owed := s.owed - multiset{c}, writable := if c in s.owner then s.writable + {c} else s.writable)
  }

  // ---- the invariant ----

  ghost predicate Shape(s: State) {
    && |s.flag| == |s.place|
    && s.queue.Keys == s.owner.Keys
    && (forall c :: c in s.owner ==> s.owner[c] < |s.place|)
  }

  // a thread that still has to clear its flag has marked its own connections, or will
  ghost predicate PlaceSound(s: State, t: Thread)
    requires t < |s.place| == |s.flag|
  {
    match s.place[t]
    case Marking(todo) =>
      s.flag[t] && forall c :: c in s.owner && s.owner[c] == t && c !in todo ==> c in s.writable
    case Clearing => forall c :: c in s.owner && s.owner[c] == t ==> c in s.writable
    case Awaiting(c) => c in s.owner && s.owner[c] == t
    case Writing(c) => c in s.owner && s.owner[c] == t && s.mutex == Some(Writer(t))
    case Receiving => s.mutex.Some? && s.mutex.value.Receiver? && s.mutex.value.t == t
    case Servicing => true
  }

  ghost predicate HolderSound(s: State) {
    s.mutex.Some? ==>
      match s.mutex.value
      case Broadcaster(todo, _) => todo <= s.owner.Keys
      case Flagging(next) => next <= |s.flag|
      case Writer(t) => t < |s.place| && s.place[t].Writing?
      case Receiver(t, owes) =>
        t < |s.place| && s.place[t].Receiving? && (owes.Some? ==> owes.value in s.owner)
  }

  /** Something is on its way that makes c's owner look at c's queue. */
  predicate Covered(s: State, c: Conn)
    requires c in s.owner && s.owner[c] < |s.place| == |s.flag|
  {
    var t := s.owner[c];
    || s.flag[t]
    || c in s.writable
    || c in s.owed
    || s.place[t] == Awaiting(c) || s.place[t] == Writing(c)
    || (s.mutex.Some? &&
          match s.mutex.value
          case Broadcaster(_, _) => true
          case Flagging(next) => next <= t
          case Writer(_) => false
          case Receiver(_, owes) => owes == Some(c))
  }

  ghost predicate PlacesSound(s: State) {
    Shape(s) && HolderSound(s) && forall t: Thread :: t < |s.place| ==> PlaceSound(s, t)
  }

  ghost predicate NoLostWakeUp(s: State)
    requires Shape(s)
  {
    forall c :: c in s.owner && s.queue[c] != [] ==> Covered(s, c)
  }

  ghost predicate Inv(s: State) {
    PlacesSound(s) && NoLostWakeUp(s)
  }

  lemma StepKeepsShape(s: State, a: Action)
    requires PlacesSound(s) && Enabled(s, a)
    ensures Shape(Apply(s, a))
  {
  }

  lemma StepKeepsHolder(s: State, a: Action)
    requires PlacesSound(s) && Enabled(s, a)
    ensures HolderSound(Apply(s, a)) && |Apply(s, a).place| == |s.place|
  {
  }

  // the steps of handleBroadcastRequest
  predicate FlagCycle(a: Action) {
    a.Check? || a.Mark? || a.MarksDone? || a.Clear?
  }

  // the steps of handleWrite
  predicate WriteCycle(a: Action) {
    a.Wake? || a.WriteLock? || a.WriteOne? || a.WriteEnd?
  }

  lemma FlagCycleKeepsPlace(s: State, a: Action, t: Thread)
    requires PlacesSound(s) && Enabled(s, a) && t < |s.place| && FlagCycle(a)
    ensures |Apply(s, a).place| == |s.place| == |Apply(s, a).flag| && PlaceSound(Apply(s, a), t)
  {
    assert PlaceSound(s, t);
  }

  lemma WriteCycleKeepsPlace(s: State, a: Action, t: Thread)
    requires PlacesSound(s) && Enabled(s, a) && t < |s.place| && WriteCycle(a)
    ensures |Apply(s, a).place| == |s.place| == |Apply(s, a).flag| && PlaceSound(Apply(s, a), t)
  {
    assert PlaceSound(s, t) && PlaceSound(s, a.t);
  }

  lemma OthersKeepPlace(s: State, a: Action, t: Thread)
    requires PlacesSound(s) && Enabled(s, a) && t < |s.place| && !FlagCycle(a) && !WriteCycle(a)
    ensures |Apply(s, a).place| == |s.place| == |Apply(s, a).flag| && PlaceSound(Apply(s, a), t)
  {
    assert PlaceSound(s, t);
  }

  lemma FlagCycleKeepsCover(s: State, a: Action, c: Conn)
    requires Inv(s) && Enabled(s, a) && Shape(Apply(s, a)) && FlagCycle(a)
    requires c in Apply(s, a).owner && Apply(s, a).queue[c] != []
    ensures Covered(Apply(s, a), c)
  {
    assert Covered(s, c);
    assert PlaceSound(s, s.owner[c]);
  }

  lemma WriteCycleKeepsCover(s: State, a: Action, c: Conn)
    requires Inv(s) && Enabled(s, a) && Shape(Apply(s, a)) && WriteCycle(a)
    requires c in Apply(s, a).owner && Apply(s, a).queue[c] != []
    ensures Covered(Apply(s, a), c)
  {
    assert Covered(s, c);
    assert PlaceSound(s, s.owner[c]) && PlaceSound(s, a.t);
  }

  lemma OthersKeepCover(s: State, a: Action, c: Conn)
    requires Inv(s) && Enabled(s, a) && Shape(Apply(s, a)) && !FlagCycle(a) && !WriteCycle(a)
    requires c in Apply(s, a).owner && Apply(s, a).queue[c] != []
    ensures Covered(Apply(s, a), c)
  {
    if c in s.owner {
      assert s.queue[c] != [] ==> Covered(s, c);
      assert PlaceSound(s, s.owner[c]);
    }
  }

  lemma StepKeepsPlaces(s: State, a: Action)
    requires PlacesSound(s) && Enabled(s, a)
    ensures PlacesSound(Apply(s, a))
  {
    var s' := Apply(s, a);
    StepKeepsShape(s, a);
    StepKeepsHolder(s, a);
    hide Apply, HolderSound, PlaceSound;
    forall t: Thread | t < |s'.place| ensures PlaceSound(s', t) {
      if FlagCycle(a) {
        FlagCycleKeepsPlace(s, a, t);
      } else if WriteCycle(a) {
        WriteCycleKeepsPlace(s, a, t);
      } else {
        OthersKeepPlace(s, a, t);
      }
    }
  }

  lemma StepKeepsInv(s: State, a: Action)
    requires Inv(s) && Enabled(s, a)
    ensures Inv(Apply(s, a))
  {
    var s' := Apply(s, a);
    StepKeepsPlaces(s, a);
    hide Apply, HolderSound, PlaceSound, Covered;
    forall c | c in s'.owner && s'.queue[c] != [] ensures Covered(s', c) {
      if FlagCycle(a) {
        FlagCycleKeepsCover(s, a, c);
      } else if WriteCycle(a) {
        WriteCycleKeepsCover(s, a, c);
      } else {
        OthersKeepCover(s, a, c);
      }
    }
  }

  // ---- whole runs ----

  predicate Lawful(s: State, actions: seq<Action>)
    decreases actions
  {
    actions == [] || (Enabled(s, actions[0]) && Lawful(Apply(s, actions[0]), actions[1..]))
  }

  function Run(s: State, actions: seq<Action>): State
    requires Lawful(s, actions)
    decreases actions
  {
    if actions == [] then s else Run(Apply(s, actions[0]), actions[1..])
  }

  lemma {:induction false} RunKeepsInv(s: State, actions: seq<Action>)
    requires Inv(s) && Lawful(s, actions)
    ensures Inv(Run(s, actions))
    decreases actions
  {
    if actions == [] {
    } else {
      StepKeepsInv(s, actions[0]);
      RunKeepsInv(Apply(s, actions[0]), actions[1..]);
    }
  }

  /** In every reachable state a connection with queued messages has its owner's flag set, or is
      marked writable, or is being written by its owner, or the holder of the connections mutex, or an
      asynchronous sender, has yet to set the flag or the mark. */
  lemma WakeUpIsNeverLost(s0: State, actions: seq<Action>, c: Conn)
    requires Initial(s0) && Lawful(s0, actions)
    requires c in Run(s0, actions).owner
    ensures var s := Run(s0, actions);
            Shape(s) && (s.queue[c] != [] ==> Covered(s, c))
  {
    RunKeepsInv(s0, actions);
  }

  // nothing is left to do: no flag, no writable mark, nobody inside a critical section
  ghost predicate Quiet(s: State) {
    && s.mutex == None && s.writable == {} && s.owed == multiset{}
    && |s.flag| == |s.place|
    && forall t :: 0 <= t < |s.place| ==> !s.flag[t] && s.place[t] == Servicing
  }

  lemma QuietMeansDelivered(s0: State, actions: seq<Action>, c: Conn)
    requires Initial(s0) && Lawful(s0, actions)
    requires Quiet(Run(s0, actions)) && c in Run(s0, actions).owner
    ensures c in Run(s0, actions).queue && Run(s0, actions).queue[c] == []
  {
    RunKeepsInv(s0, actions);
    var s := Run(s0, actions);
    assert s.queue[c] != [] ==> Covered(s, c);
  }

  // ---- what is in a queue ----

  /** The message a step puts into c's queue, if any. */
  function Enqueued(s: State, a: Action, c: Conn): seq<Message> {
    match a
    case Enqueue(d) =>
      if d == c && s.mutex.Some? && s.mutex.value.Broadcaster? then [s.mutex.value.message] else []
    case ReceiveEnqueue(d, message) => if d == c then [message] else []
    case AsyncEnqueue(d, message) => if d == c then [message] else []
    case _ => []
  }

  /** The message a step writes from c's queue, if any. */
  function Written(s: State, a: Action, c: Conn): seq<Message> {
    match a
    case WriteOne(t) =>
      if t < |s.place| && s.place[t] == Writing(c) && c in s.queue && s.queue[c] != [] then [s.queue[c][0]] else []
    case _ => []
  }

  /** Of a connection that stays open, a step writes the oldest message, or enqueues behind the
      others, or leaves the queue as it is. */
  lemma StepMovesQueue(s: State, a: Action, c: Conn)
    requires Enabled(s, a) && Has(s, c) && Has(Apply(s, a), c)
    ensures Written(s, a, c) + Apply(s, a).queue[c] == s.queue[c] + Enqueued(s, a, c)
    ensures Apply(s, a).queue[c]
            == match a
               case Enqueue(d) => if d == c then s.queue[c] + [s.mutex.value.message] else s.queue[c]
               case ReceiveEnqueue(d, message) => if d == c then s.queue[c] + [message] else s.queue[c]
               case AsyncEnqueue(d, message) => if d == c then s.queue[c] + [message] else s.queue[c]
               case WriteOne(t) => if s.place[t] == Writing(c) then s.queue[c][1..] else s.queue[c]
               case _ => s.queue[c]
  {
    assert s.queue[c] + [] == s.queue[c];
    if Written(s, a, c) != [] {
      assert s.queue[c] == [s.queue[c][0]] + s.queue[c][1..];
    }
  }

  function EnqueuedBy(s: State, actions: seq<Action>, c: Conn): seq<Message>
    requires Lawful(s, actions)
    decreases actions
  {
    if actions == [] then []
    else Enqueued(s, actions[0], c) + EnqueuedBy(Apply(s, actions[0]), actions[1..], c)
  }

  function WrittenBy(s: State, actions: seq<Action>, c: Conn): seq<Message>
    requires Lawful(s, actions)
    decreases actions
  {
    if actions == [] then []
    else Written(s, actions[0], c) + WrittenBy(Apply(s, actions[0]), actions[1..], c)
  }

  // c is not closed
  predicate StaysOpen(actions: seq<Action>, c: Conn) {
    forall a :: a in actions && a.Close? ==> a.c != c
  }

  lemma OpenStaysOpen(s: State, a: Action, c: Conn)
    requires Enabled(s, a) && Has(s, c) && !(a.Close? && a.c == c)
    ensures Has(Apply(s, a), c) && Apply(s, a).owner[c] == s.owner[c]
  {
  }

  lemma Regroup<T>(w1: seq<T>, w2: seq<T>, end: seq<T>, before: seq<T>, between: seq<T>, e1: seq<T>, e2: seq<T>)
    requires w1 + between == before + e1 && w2 + end == between + e2
    ensures (w1 + w2) + end == before + (e1 + e2)
  {
    assert (w1 + w2) + end == w1 + (w2 + end) == w1 + (between + e2) == (w1 + between) + e2;
  }

  /** Over every run: what was written from a connection, followed by its queue, is its queue of the
      start followed by everything that was enqueued since, in order. */
  lemma {:induction false} RunMovesQueue(s: State, actions: seq<Action>, c: Conn)
    requires Lawful(s, actions) && Has(s, c) && StaysOpen(actions, c)
    ensures Has(Run(s, actions), c)
    ensures WrittenBy(s, actions, c) + Run(s, actions).queue[c] == s.queue[c] + EnqueuedBy(s, actions, c)
    decreases actions
  {
    if actions == [] {
      assert s.queue[c] + [] == s.queue[c] == [] + s.queue[c];
    } else {
      var a, rest, s' := actions[0], actions[1..], Apply(s, actions[0]);
      OpenStaysOpen(s, a, c);
      StepMovesQueue(s, a, c);
      RunMovesQueue(s', rest, c);
      hide Apply, Written, Enqueued;
      Regroup(Written(s, a, c), WrittenBy(s', rest, c), Run(s', rest).queue[c], s.queue[c], s'.queue[c],
              Enqueued(s, a, c), EnqueuedBy(s', rest, c));
    }
  }

  /** A broadcast with nobody in between: every target's queue gets the message, no other changes, and
      the flags come next. */
  lemma BroadcastRound(s: State, targets: set<Conn>, message: Message) returns (actions: seq<Action>)
    requires s.mutex == None && targets <= s.owner.Keys == s.queue.Keys
    ensures Lawful(s, actions)
    ensures Run(s, actions) == s.(mutex := Some(Flagging(0)),
                                  queue := map c | c in s.queue :: if c in targets then s.queue[c] + [message] else s.queue[c])
  {
    var s1 := Apply(s, BroadcastLock(targets, message));
    var rest := EnqueueRound(s1);
    actions := [BroadcastLock(targets, message)] + rest;
    assert actions[1..] == rest;
  }

  lemma {:induction false} EnqueueRound(s: State) returns (actions: seq<Action>)
    requires s.mutex.Some? && s.mutex.value.Broadcaster?
    requires s.mutex.value.todo <= s.owner.Keys == s.queue.Keys
    ensures Lawful(s, actions)
    ensures var b := s.mutex.value;
            Run(s, actions) == s.(mutex := Some(Flagging(0)),
                                  queue := map c | c in s.queue :: if c in b.todo then s.queue[c] + [b.message] else s.queue[c])
    decreases |s.mutex.value.todo|
  {
    var b := s.mutex.value;
    if b.todo == {} {
      actions := [StartFlags];
      assert actions[1..] == [];
      assert Run(s, actions) == Apply(s, StartFlags);
    } else {
      var c :| c in b.todo;
      var s' := Apply(s, Enqueue(c));
      var rest := EnqueueRound(s');
      actions := [Enqueue(c)] + rest;
      assert actions[1..] == rest;
      assert s'.queue[c] == s.queue[c] + [b.message];
    }
  }

  lemma Unroll(s: State, a: Action, rest: seq<Action>)
    requires Enabled(s, a) && Lawful(Apply(s, a), rest)
    ensures Lawful(s, [a] + rest) && Run(s, [a] + rest) == Run(Apply(s, a), rest)
  {
    assert ([a] + rest)[1..] == rest;
  }

  /** The answer of a synchronous callback with nobody in between: c gets the message and is marked. */
  lemma ReceiveRound(s: State, t: Thread, c: Conn, message: Message) returns (actions: seq<Action>)
    requires At(s, t, Servicing) && s.mutex == None && Has(s, c)
    ensures actions == [ReceiveLock(t), ReceiveEnqueue(c, message), RequestWrite, ReceiveUnlock]
    ensures Lawful(s, actions)
    ensures Run(s, actions) == s.(queue := s.queue[c := s.queue[c] + [message]], writable := s.writable + {c})
  {
    var s1 := Apply(s, ReceiveLock(t));
    var s2 := Apply(s1, ReceiveEnqueue(c, message));
    var s3 := Apply(s2, RequestWrite);
    var s4 := Apply(s3, ReceiveUnlock);
    assert s4.place == s.place;
    assert s4 == s.(queue := s.queue[c := s.queue[c] + [message]], writable := s.writable + {c});
    hide Apply;
    Unroll(s3, ReceiveUnlock, []);
    Unroll(s2, RequestWrite, [ReceiveUnlock] + []);
    Unroll(s1, ReceiveEnqueue(c, message), [RequestWrite] + ([ReceiveUnlock] + []));
    Unroll(s, ReceiveLock(t), [ReceiveEnqueue(c, message)] + ([RequestWrite] + ([ReceiveUnlock] + [])));
    actions := [ReceiveLock(t)] + ([ReceiveEnqueue(c, message)] + ([RequestWrite] + ([ReceiveUnlock] + [])));
  }

  /** The answer of an asynchronous one: the same, at any time, whoever holds the mutex. */
  lemma AsyncRound(s: State, c: Conn, message: Message) returns (actions: seq<Action>)
    requires Has(s, c)
    ensures Lawful(s, actions)
    ensures Run(s, actions) == s.(queue := s.queue[c := s.queue[c] + [message]], writable := s.writable + {c})
  {
    var s1 := Apply(s, AsyncEnqueue(c, message));
    actions := [AsyncEnqueue(c, message), AsyncRequest(c)];
    assert actions[1..] == [AsyncRequest(c)] && [AsyncRequest(c)][1..] == [];
    assert Run(s1, [AsyncRequest(c)]) == Apply(s1, AsyncRequest(c));
    assert s1.owed - multiset{c} == s.owed;
  }

  /** handleWrite with nobody in between: n messages are written, the rest is kept and asks for another
      callback. */
  lemma WriteRound(s: State, t: Thread, c: Conn, n: nat) returns (actions: seq<Action>)
    requires At(s, t, Servicing) && s.mutex == None && Has(s, c) && s.owner[c] == t && c in s.writable
    requires n <= |s.queue[c]|
    ensures Lawful(s, actions)
    ensures Run(s, actions)
            == s.(queue := s.queue[c := s.queue[c][n..]],
                  writable := if n < |s.queue[c]| then s.writable else s.writable - {c})
  {
    var s1 := Apply(s, Wake(t, c));
    var s2 := Apply(s1, WriteLock(t));
    var rest := WriteSome(s2, t, c, n);
    actions := [Wake(t, c)] + ([WriteLock(t)] + rest);
    assert actions[1..] == [WriteLock(t)] + rest && ([WriteLock(t)] + rest)[1..] == rest;
    assert Run(s1, [WriteLock(t)] + rest) == Run(s2, rest);
    assert s.place[t := Awaiting(c)][t := Writing(c)][t := Servicing] == s.place;
    assert s.writable - {c} + {c} == s.writable;
  }

  lemma {:induction false} WriteSome(s: State, t: Thread, c: Conn, n: nat) returns (actions: seq<Action>)
    requires At(s, t, Writing(c)) && Has(s, c) && n <= |s.queue[c]|
    ensures Lawful(s, actions)
    ensures Run(s, actions)
            == s.(queue := s.queue[c := s.queue[c][n..]], mutex := None, place := s.place[t := Servicing],
                  writable := if n < |s.queue[c]| then s.writable + {c} else s.writable)
    decreases n
  {
    if n == 0 {
      actions := [WriteEnd(t)];
      assert actions[1..] == [] && s.queue[c][0..] == s.queue[c] && s.queue[c := s.queue[c]] == s.queue;
      assert Run(s, actions) == Apply(s, WriteEnd(t));
    } else {
      var s' := Apply(s, WriteOne(t));
      var rest := WriteSome(s', t, c, n - 1);
      actions := [WriteOne(t)] + rest;
      assert actions[1..] == rest;
      assert s'.queue[c][n - 1..] == s.queue[c][n..];
      assert s'.queue[c := s.queue[c][n..]] == s.queue[c := s.queue[c][n..]];
    }
  }

  /** A connection that closes is forgotten, with its queue and its mark; all others stay. */
  lemma CloseForgets(s: State, t: Thread, c: Conn)
    requires At(s, t, Servicing) && s.mutex == None && Has(s, c) && s.owner[c] == t
    ensures Enabled(s, Close(t, c))
    ensures var s' := Apply(s, Close(t, c));
            && s'.owner == s.owner - {c} && s'.queue == s.queue - {c} && s'.writable == s.writable - {c}
            && s'.flag == s.flag && s'.place == s.place && s'.mutex == None
  {
  }

  /** Queues do fill: from a start with one thread, a connection that opens gets a broadcast. */
  lemma QueueFills(s: State, message: Message) returns (actions: seq<Action>)
    requires Initial(s) && |s.place| > 0
    ensures Lawful(s, actions)
    ensures 0 in Run(s, actions).queue && Run(s, actions).queue[0] == [message]
  {
    var s1 := Apply(s, Open(0, 0));
    assert s1.queue == map[0 := []] && s1.owner == map[0 := 0];
    var rest := BroadcastRound(s1, {0}, message);
    actions := [Open(0, 0)] + rest;
    assert actions[1..] == rest;
    assert [] + [message] == [message];
  }

  // ---- every queued message can be written by its owner, the mutex holder and its own sender ----

  /** The next step towards emptying c's queue: first the holder of the mutex goes on, then the
      thread that owns c, or the sender that still has to wake it. */
  ghost function Next(s: State, c: Conn): Action
    requires Inv(s) && c in s.owner
  {
    var t := s.owner[c];
    match s.mutex
    case Some(Broadcaster(todo, _)) =>
      if todo == {} then StartFlags else var x :| x in todo; Enqueue(x)
    case Some(Flagging(next)) => if next < |s.flag| then SetFlag else BroadcastUnlock
    case Some(Receiver(_, owes)) => if owes == None then ReceiveUnlock else RequestWrite
    case Some(Writer(w)) =>
      if w == t && s.place[t] == Writing(c) && s.queue[c] != [] then WriteOne(t) else WriteEnd(w)
    case None =>
      match s.place[t]
      case Marking(todo) => if todo == {} then MarksDone(t) else var x :| x in todo; Mark(t, x)
      case Clearing => Clear(t)
      case Awaiting(_) => WriteLock(t)
      case _ => if c in s.writable then Wake(t, c) else if s.flag[t] then Check(t) else AsyncRequest(c)
  }

  // how far c's owner is from having written c
  function Distance(s: State, c: Conn): nat
    requires c in s.owner && s.owner[c] < |s.place|
  {
    match s.place[s.owner[c]]
    case Receiving => 9
    case Awaiting(d) => if d == c then 3 else 9
    case Writing(d) => if d == c then 2 else 8
    case Servicing => if c in s.writable then 4 else 7
    case Marking(_) => 6
    case Clearing => 5
  }

  // how far the holder of the mutex is from releasing it
  function HolderDistance(s: State): nat {
    match s.mutex
    case None => 0
    case Some(Broadcaster(todo, _)) => |todo| + |s.flag| + 3
    case Some(Flagging(next)) => if next <= |s.flag| then |s.flag| - next + 1 else 0
    case Some(Receiver(_, owes)) => if owes == None then 1 else 2
    case Some(Writer(_)) => 1
  }

  function Left(s: State, c: Conn): nat
    requires Has(s, c) && s.owner[c] < |s.place|
  {
    match s.place[s.owner[c]]
    case Marking(todo) => |todo|
    case Writing(_) => |s.queue[c]|
    case _ => 0
  }

  predicate Closer(s: State, s': State, c: Conn)
    requires Has(s, c) && s.owner[c] < |s.place|
    requires Has(s', c) && s'.owner[c] < |s'.place|
  {
    || Distance(s', c) < Distance(s, c)
    || (Distance(s', c) == Distance(s, c) && HolderDistance(s') < HolderDistance(s))
    || (Distance(s', c) == Distance(s, c) && HolderDistance(s') == HolderDistance(s) && Left(s', c) < Left(s, c))
  }

  lemma NextIsEnabled(s: State, c: Conn)
    requires Inv(s) && c in s.owner && s.queue[c] != []
    ensures Enabled(s, Next(s, c))
  {
    assert PlaceSound(s, s.owner[c]);
    assert Covered(s, c);
    if s.mutex.Some? && s.mutex.value.Writer? {
      assert PlaceSound(s, s.mutex.value.t);
    }
  }

  lemma HolderGetsCloser(s: State, c: Conn)
    requires Inv(s) && c in s.owner && s.queue[c] != [] && s.mutex.Some?
    requires Enabled(s, Next(s, c))
    ensures var s' := Apply(s, Next(s, c));
            Has(s', c) && s'.owner[c] < |s'.place| && Closer(s, s', c)
  {
    assert PlaceSound(s, s.owner[c]);
  }

  lemma OwnerGetsCloser(s: State, c: Conn)
    requires Inv(s) && c in s.owner && s.queue[c] != [] && s.mutex.None?
    requires Enabled(s, Next(s, c))
    ensures var s' := Apply(s, Next(s, c));
            Has(s', c) && s'.owner[c] < |s'.place| && Closer(s, s', c)
  {
    assert PlaceSound(s, s.owner[c]);
    assert Covered(s, c);
  }

  /** The steps that count towards writing c: those by which the holder of the mutex gets on to
      release it, those of c's own thread, and the request of a sender that enqueued on c. Opening and
      closing are not among them, so WriteOne is the only one that takes from a queue. */
  predicate Serves(s: State, a: Action, c: Conn)
    requires c in s.owner
  {
    var t := s.owner[c];
    match a
    case Enqueue(_) | StartFlags | SetFlag | BroadcastUnlock | RequestWrite | ReceiveUnlock => true
    case Check(u) => u == t
    case Mark(u, _) => u == t
    case MarksDone(u) => u == t
    case Clear(u) => u == t
    case Wake(u, d) => u == t && d == c
    case WriteLock(u) => u == t
    case WriteOne(u) => u == t && u < |s.place| && s.place[u] == Writing(c)
    case WriteEnd(u) => u == t || s.mutex == Some(Writer(u))
    case AsyncRequest(d) => d == c
    case _ => false
  }

  predicate ServesOnly(s: State, actions: seq<Action>, c: Conn)
    requires Lawful(s, actions)
    decreases actions
  {
    actions == [] ||
    (c in s.owner && Serves(s, actions[0], c) && ServesOnly(Apply(s, actions[0]), actions[1..], c))
  }

  lemma NextServes(s: State, c: Conn)
    requires Inv(s) && c in s.owner && s.queue[c] != [] && Enabled(s, Next(s, c))
    ensures Serves(s, Next(s, c), c) && Apply(s, Next(s, c)).owner == s.owner
  {
    assert PlaceSound(s, s.owner[c]);
  }

  /** From every reachable state the queue of every connection can be written to the end, by steps of
      the mutex holder, of the connection's own thread and of its own senders only: everything in the
      queue, and what the holder adds on the way, is written in order. */
  lemma {:induction false} DeliveryIsAlwaysPossible(s: State, c: Conn) returns (actions: seq<Action>)
    requires Inv(s) && c in s.owner
    ensures Lawful(s, actions) && ServesOnly(s, actions, c)
    ensures Run(s, actions).owner == s.owner
    ensures Has(Run(s, actions), c) && Run(s, actions).queue[c] == []
    ensures WrittenBy(s, actions, c) == s.queue[c] + EnqueuedBy(s, actions, c)
    decreases Distance(s, c), HolderDistance(s), Left(s, c)
  {
    if s.queue[c] == [] {
      return [];
    }
    NextIsEnabled(s, c);
    NextServes(s, c);
    if s.mutex.Some? {
      HolderGetsCloser(s, c);
    } else {
      OwnerGetsCloser(s, c);
    }
    var a := Next(s, c);
    StepKeepsInv(s, a);
    var rest := DeliveryIsAlwaysPossible(Apply(s, a), c);
    actions := [a] + rest;
    assert actions[1..] == rest;
    ServingKeepsOpen(s, actions, c);
    RunMovesQueue(s, actions, c);
    assert WrittenBy(s, actions, c) + [] == WrittenBy(s, actions, c);
  }

  lemma {:induction false} ServingKeepsOpen(s: State, actions: seq<Action>, c: Conn)
    requires Lawful(s, actions) && ServesOnly(s, actions, c)
    ensures StaysOpen(actions, c)
    decreases actions
  {
    if actions == [] {
    } else {
      ServingKeepsOpen(Apply(s, actions[0]), actions[1..], c);
      assert actions == [actions[0]] + actions[1..];
    }
  }

  // ---- the two loops of the thread pool, run without interruption ----

  lemma {:induction false} MarkRound(s: State, t: Thread) returns (actions: seq<Action>)
    requires t < |s.place| == |s.flag| && s.place[t].Marking?
    requires s.place[t].todo <= s.owner.Keys
    ensures Lawful(s, actions) && forall a :: a in actions ==> FlagCycle(a) && a.t == t
    ensures Run(s, actions) == s.(writable := s.writable + s.place[t].todo,
                                  place := s.place[t := Servicing], flag := s.flag[t := false])
    decreases |s.place[t].todo|
  {
    var todo := s.place[t].todo;
    if todo == {} {
      actions := [MarksDone(t), Clear(t)];
      var cleared := Apply(Apply(s, MarksDone(t)), Clear(t));
      assert actions[1..] == [Clear(t)] && [Clear(t)][1..] == [];
      assert s.writable + todo == s.writable;
      assert s.place[t := Clearing][t := Servicing] == s.place[t := Servicing];
      assert Run(s, actions) == Run(Apply(s, MarksDone(t)), [Clear(t)]) == cleared;
    } else {
      var c :| c in todo;
      var s' := Apply(s, Mark(t, c));
      var rest := MarkRound(s', t);
      actions := [Mark(t, c)] + rest;
      assert actions[1..] == rest;
      assert s'.writable + s'.place[t].todo == s.writable + todo;
      assert s'.place[t := Servicing] == s.place[t := Servicing];
    }
  }

  /** handleBroadcastRequest with nobody in between: a set flag marks every connection and is
      cleared, a clear flag changes nothing. */
  lemma CheckRound(s: State, t: Thread) returns (actions: seq<Action>)
    requires At(s, t, Servicing)
    ensures Lawful(s, actions) && forall a :: a in actions ==> FlagCycle(a) && a.t == t
    ensures Run(s, actions) == if s.flag[t]
                               then s.(writable := s.writable + s.owner.Keys, flag := s.flag[t := false])
                               else s
  {
    if s.flag[t] {
      var s' := Apply(s, Check(t));
      var rest := MarkRound(s', t);
      actions := [Check(t)] + rest;
      assert actions[1..] == rest;
      assert s'.place[t := Servicing] == s.place;
    } else {
      actions := [];
    }
  }

  lemma {:induction false} FlagRound(s: State) returns (actions: seq<Action>)
    requires s.mutex.Some? && s.mutex.value.Flagging? && s.mutex.value.next <= |s.flag|
    ensures Lawful(s, actions) && forall a :: a in actions ==> a.SetFlag? || a.BroadcastUnlock?
    ensures var next := s.mutex.value.next;
            Run(s, actions) == s.(mutex := None, flag := s.flag[..next] + seq(|s.flag| - next, _ => true))
    decreases |s.flag| - s.mutex.value.next
  {
    var next := s.mutex.value.next;
    if next == |s.flag| {
      actions := [BroadcastUnlock];
      assert actions[1..] == [];
      assert s.flag[..next] + seq(0, _ => true) == s.flag;
    } else {
      var s' := Apply(s, SetFlag);
      var rest := FlagRound(s');
      actions := [SetFlag] + rest;
      assert actions[1..] == rest;
      assert s'.flag[..next + 1] + seq(|s.flag| - next - 1, _ => true)
          == s.flag[..next] + seq(|s.flag| - next, _ => true);
    }
  }
}
