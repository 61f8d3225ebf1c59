/** The sockets the library asks its application to poll, and the Qt listener that mirrors them. */
module PollDescriptors {
  import opened Wrappers

  type Fd = nat
  type Events = bv16

  const POLLIN: Events := 1
  const POLLOUT: Events := 4

  datatype Pollfd = Pollfd(events: Events, revents: Events)

  // a ReadWriteSocketNotifier: which of its halves are enabled, and how often its signals are connected
  datatype Notifier = Notifier(read: bool, write: bool, slots: nat)

  type Descriptors = map<Fd, Pollfd>
  type Notifiers = map<Fd, Notifier>

  function Enable(n: Notifier, events: Events): Notifier {
    n.(read := events & POLLIN != 0, write := events & POLLOUT != 0)
  }

  // emplace() keeps a notifier that is there, and its connections
  function NewSocket(m: Notifiers, fd: Fd, events: Events): Notifiers {
    var was := if fd in m then m[fd] else Notifier(true, true, 0);
    m[fd := Enable(was.(slots := was.slots + 1), events)]
  }

  // the replay of setListener()
  function Replay(d: Descriptors, m: Notifiers): Notifiers {
    map fd | fd in d.Keys + m.Keys :: if fd in d then NewSocket(m, fd, d[fd].events)[fd] else m[fd]
  }

  // ---- what the listener is to hold ----

  predicate Shows(n: Notifier, events: Events) {
    (n.read <==> events & POLLIN != 0) && (n.write <==> events & POLLOUT != 0)
  }

  ghost predicate Covers(m: Notifiers, d: Descriptors) {
    d.Keys <= m.Keys && forall fd :: fd in d ==> Shows(m[fd], d[fd].events)
  }

  ghost predicate Mirrors(m: Notifiers, d: Descriptors) {
    Covers(m, d) && m.Keys == d.Keys
  }

  // every ready socket is processed once
  ghost predicate FiresOnce(m: Notifiers, d: Descriptors)
    requires Covers(m, d)
  {
    forall fd :: fd in d ==> m[fd].slots == 1
  }

  // ---- runs ----

  type Listener = nat

  datatype Event =
    | Add(fd: Fd, pollfd: Pollfd)
    | Update(fd: Fd, pollfd: Pollfd)
    | Remove(fd: Fd)
    | Attach(listener: Listener)
    | Detach

  /** The descriptors with every listener there is, attached or not, and whether notifiers.at() has
      thrown. */
  datatype State = State(descriptors: Descriptors, attached: Option<Listener>,
                         listeners: map<Listener, Notifiers>, thrown: bool)
  {
    function Held(l: Listener): Notifiers {
      if l in listeners then listeners[l] else map[]
    }

    function Shown(): Notifiers {
      if attached.Some? then Held(attached.value) else map[]
    }

    function With(m: Notifiers): State {
      if attached.Some? then this.(listeners := listeners[attached.value := m]) else this
    }
  }

  const INITIAL := State(map[], None, map[], false)

  function Step(s: State, e: Event): State {
    match e
    case Add(fd, p) =>
      if fd in s.descriptors then s
      else s.(descriptors := s.descriptors[fd := p]).With(NewSocket(s.Shown(), fd, p.events))
    case Update(fd, p) =>
      if fd !in s.descriptors then s
      else
        var m, t := s.Shown(), s.(descriptors := s.descriptors[fd := p]);
        if t.attached.Some? && fd !in m then t.(thrown := true)
        else if t.attached.Some? then t.With(m[fd := Enable(m[fd], p.events)])
        else t
    case Remove(fd) =>
      if fd !in s.descriptors then s
      else s.(descriptors := s.descriptors - {fd}).With(s.Shown() - {fd})
    case Attach(l) => s.(attached := Some(l)).With(Replay(s.descriptors, s.Held(l)))
    case Detach => s.(attached := None)
  }

  function Run(s: State, events: seq<Event>): State
    decreases events
  {
    if events == [] then s else Run(Step(s, events[0]), events[1..])
  }

  ghost predicate Inv(s: State) {
    && !s.thrown
    && (s.attached.Some? ==> Covers(s.Shown(), s.descriptors))
  }

  lemma StepKeepsInv(s: State, e: Event)
    requires Inv(s)
    ensures Inv(Step(s, e))
  {
  }

  /** Whatever is added, updated and removed, in whatever order, duplicates and unknown descriptors
      included, and however listeners come, go and come back: the attached one has a notifier for
      every descriptor, enabled for its events, and notifiers.at() does not throw. */
  lemma {:induction false} RunNeverThrows(s: State, events: seq<Event>)
    requires Inv(s)
    ensures Inv(Run(s, events))
    decreases events
  {
    if events == [] {
    } else {
      StepKeepsInv(s, events[0]);
      RunNeverThrows(Step(s, events[0]), events[1..]);
    }
  }

  /** Attaching makes an exact mirror exactly when the listener holds no socket that is gone, as a
      fresh one does; and each ready socket is processed once exactly when it holds none that is
      still there. */
  lemma AttachIsExactIff(s: State, l: Listener)
    requires Inv(s)
    ensures Inv(Step(s, Attach(l)))
    ensures var t := Step(s, Attach(l));
            && (Mirrors(t.Shown(), t.descriptors) <==> s.Held(l).Keys <= s.descriptors.Keys)
            && (FiresOnce(t.Shown(), t.descriptors)
                <==> forall fd :: fd in s.descriptors && fd in s.Held(l) ==> s.Held(l)[fd].slots == 0)
  {
    StepKeepsInv(s, Attach(l));
    var t := Step(s, Attach(l));
    assert t.Shown() == Replay(s.descriptors, s.Held(l));
    assert t.Shown().Keys == s.descriptors.Keys + s.Held(l).Keys;
    forall fd | fd in s.descriptors
      ensures t.Shown()[fd].slots == (if fd in s.Held(l) then s.Held(l)[fd].slots else 0) + 1
    {
    }
  }

  // sockets the listener still watches although they are gone
  function Stale(s: State): set<Fd> {
    s.Shown().Keys - s.descriptors.Keys
  }

  function Added(events: seq<Event>): set<Fd> {
    set e | e in events && e.Add? :: e.fd
  }

  predicate StaysAttached(events: seq<Event>) {
    forall e :: e in events ==> !e.Attach? && !e.Detach?
  }

  lemma StepShedsStale(s: State, e: Event)
    requires s.attached.Some? && Inv(s) && !e.Attach? && !e.Detach?
    ensures Step(s, e).attached == s.attached
    ensures Stale(Step(s, e)) == Stale(s) - (if e.Add? then {e.fd} else {})
  {
  }

  lemma {:induction false} RunShedsStale(s: State, events: seq<Event>)
    requires s.attached.Some? && Inv(s) && StaysAttached(events)
    ensures Run(s, events).attached == s.attached && Inv(Run(s, events))
    ensures Stale(Run(s, events)) == Stale(s) - Added(events)
    decreases events
  {
    if events == [] {
    } else {
      var e, rest := events[0], events[1..];
      assert events == [e] + rest;
      StepKeepsInv(s, e);
      StepShedsStale(s, e);
      RunShedsStale(Step(s, e), rest);
      assert Added(events) == Added(rest) + (if e.Add? then {e.fd} else {});
    }
  }

  /** After attaching a listener at any moment, and any events since: it mirrors the descriptors
      exactly if and only if every vanished socket it brought along was added anew. */
  lemma {:induction false} MirrorIsExactIff(s: State, l: Listener, events: seq<Event>)
    requires Inv(s) && StaysAttached(events)
    ensures var t := Run(Step(s, Attach(l)), events);
            Mirrors(t.Shown(), t.descriptors)
            <==> s.Held(l).Keys - s.descriptors.Keys <= Added(events)
  {
    var a := Step(s, Attach(l));
    StepKeepsInv(s, Attach(l));
    RunShedsStale(a, events);
    var t := Run(a, events);
    assert a.Shown() == Replay(s.descriptors, s.Held(l));
    assert Stale(a) == s.Held(l).Keys - s.descriptors.Keys;
    var held, sockets := t.Shown().Keys, t.descriptors.Keys;
    assert held == sockets <==> held - sockets == {} by {
      assert held == (held - sockets) + sockets;
    }
    assert Stale(a) - Added(events) == {} <==> Stale(a) <= Added(events) by {
      assert Stale(a) <= (Stale(a) - Added(events)) + Added(events);
    }
  }

  /** The two uses of the theorem: a fresh listener mirrors exactly from then on, and one that missed
      a removal watches the vanished socket until the number is used again. */
  lemma FreshListenerMirrors(s: State, l: Listener, events: seq<Event>)
    requires Inv(s) && s.Held(l) == map[] && StaysAttached(events)
    ensures var t := Run(Step(s, Attach(l)), events);
            Mirrors(t.Shown(), t.descriptors) && !t.thrown
  {
    MirrorIsExactIff(s, l, events);
    StepKeepsInv(s, Attach(l));
    RunNeverThrows(Step(s, Attach(l)), events);
  }

  lemma MissedRemovalStays(fd: Fd, p: Pollfd)
    ensures var t := Run(INITIAL, [Attach(0), Add(fd, p), Detach, Remove(fd), Attach(0)]);
            t.descriptors == map[] && fd in t.Shown()
  {
    var events := [Attach(0), Add(fd, p), Detach, Remove(fd), Attach(0)];
    var s1 := Step(INITIAL, Attach(0));
    var s2 := Step(s1, Add(fd, p));
    var s3 := Step(s2, Detach);
    var s4 := Step(s3, Remove(fd));
    var s5 := Step(s4, Attach(0));
    assert events[1..] == [Add(fd, p), Detach, Remove(fd), Attach(0)];
    assert [Add(fd, p), Detach, Remove(fd), Attach(0)][1..] == [Detach, Remove(fd), Attach(0)];
    assert [Detach, Remove(fd), Attach(0)][1..] == [Remove(fd), Attach(0)];
    assert [Remove(fd), Attach(0)][1..] == [Attach(0)];
    assert Run(INITIAL, events) == Run(s1, events[1..]);
    assert Run(s1, [Add(fd, p), Detach, Remove(fd), Attach(0)]) == Run(s2, [Detach, Remove(fd), Attach(0)]);
    assert Run(s2, [Detach, Remove(fd), Attach(0)]) == Run(s3, [Remove(fd), Attach(0)]);
    assert Run(s3, [Remove(fd), Attach(0)]) == Run(s4, [Attach(0)]) == s5;
    assert s4.descriptors == map[] && fd in s4.listeners[0];
  }

  // ---- the descriptors from the history alone ----

  /** The last accepted events of a descriptor: those of the add that made it known, or of an update
      since. */
  function Current(events: seq<Event>, fd: Fd): Option<Pollfd> {
    if events == [] then None
    else
      var before := Current(events[..|events| - 1], fd);
      match events[|events| - 1]
      case Add(d, p) => if d == fd && before == None then Some(p) else before
      case Update(d, p) => if d == fd && before != None then Some(p) else before
      case Remove(d) => if d == fd then None else before
      case Attach(_) => before
      case Detach => before
  }

  lemma {:induction false} RunAppend(s: State, events: seq<Event>, e: Event)
    ensures Run(s, events + [e]) == Step(Run(s, events), e)
    decreases events
  {
    if events == [] {
      assert ([] + [e])[1..] == [];
    } else {
      assert (events + [e])[1..] == events[1..] + [e];
      RunAppend(Step(s, events[0]), events[1..], e);
    }
  }

  lemma {:induction false} RunHoldsCurrent(events: seq<Event>, fd: Fd)
    ensures var d := Run(INITIAL, events).descriptors;
            match Current(events, fd)
            case Some(p) => fd in d && d[fd] == p
            case None => fd !in d
  {
    if events == [] {
    } else {
      var before, last := events[..|events| - 1], events[|events| - 1];
      RunHoldsCurrent(before, fd);
      assert events == before + [last];
      RunAppend(INITIAL, before, last);
    }
  }

  /** After every history, an attached listener watches each known socket for exactly what was asked
      last: reading for bit 0, writing for bit 2. */
  lemma ListenerShowsHistory(events: seq<Event>, fd: Fd)
    requires Run(INITIAL, events).attached.Some? && Current(events, fd).Some?
    ensures var m := Run(INITIAL, events).Shown();
            && fd in m
            && (m[fd].read <==> Current(events, fd).value.events & 1 != 0)
            && (m[fd].write <==> Current(events, fd).value.events & 4 != 0)
  {
    RunNeverThrows(INITIAL, events);
    RunHoldsCurrent(events, fd);
  }

  // ---- the classes ----

  class SocketProcessor {
    var notifiers: Notifiers

    constructor ()
      ensures notifiers == map[]
    {
      notifiers := map[];
    }

    method OnNewSocket(fd: Fd, events: Events)
      modifies this
      ensures notifiers == NewSocket(old(notifiers), fd, events)
    {
      if fd !in notifiers {
        notifiers := notifiers[fd := Notifier(true, true, 0)];
      }
      var notifier := Enable(notifiers[fd], events);
      notifiers := notifiers[fd := notifier.(slots := notifier.slots + 1)];
    }

    // notifiers.at() throws when there is no such socket
    method OnUpdateSocket(fd: Fd, events: Events) returns (thrown: bool)
      modifies this
      ensures thrown <==> fd !in old(notifiers)
      ensures notifiers == if thrown then old(notifiers)
                           else old(notifiers)[fd := Enable(old(notifiers)[fd], events)]
    {
      thrown := fd !in notifiers;
      if !thrown {
        notifiers := notifiers[fd := Enable(notifiers[fd], events)];
      }
    }

    method OnDeleteSocket(fd: Fd)
      modifies this
      ensures notifiers == old(notifiers) - {fd}
    {
      notifiers := notifiers - {fd};
    }
  }

  class PollDescriptors {
    var pollDescriptors: Descriptors
    var listener: SocketProcessor?

    constructor ()
      ensures pollDescriptors == map[] && listener == null
    {
      pollDescriptors, listener := map[], null;
    }

    // this with its listener, which is number 0 here
    function View(): State
      reads this, listener
    {
      if listener == null then State(pollDescriptors, None, map[], false)
      else State(pollDescriptors, Some(0), map[0 := listener.notifiers], false)
    }

    method AddDescriptor(fd: Fd, pollfd: Pollfd)
      modifies this`pollDescriptors, listener
      ensures View() == Step(old(View()), Add(fd, pollfd))
    {
      if fd in pollDescriptors {
        return;
      }
      pollDescriptors := pollDescriptors[fd := pollfd];
      if listener != null {
        listener.OnNewSocket(fd, pollfd.events);
      }
    }

    /** With a listener that covers the descriptors, at() does not throw. */
    method UpdateDescriptor(fd: Fd, pollfd: Pollfd)
      requires Inv(View())
      modifies this`pollDescriptors, listener
      ensures View() == Step(old(View()), Update(fd, pollfd)) && Inv(View())
    {
      StepKeepsInv(View(), Update(fd, pollfd));
      if fd !in pollDescriptors {
        return;
      }
      pollDescriptors := pollDescriptors[fd := pollfd];
      if listener != null {
        var thrown := listener.OnUpdateSocket(fd, pollfd.events);
        assert !thrown;
      }
    }

    method RemoveDescriptor(fd: Fd)
      modifies this`pollDescriptors, listener
      ensures View() == Step(old(View()), Remove(fd))
    {
      if fd !in pollDescriptors {
        return;
      }
      if listener != null {
        listener.OnDeleteSocket(fd);
      }
      pollDescriptors := pollDescriptors - {fd};
    }

    method ReplayTo(l: SocketProcessor)
      modifies l
      ensures l.notifiers == Replay(pollDescriptors, old(l.notifiers))
    {
      ghost var before := l.notifiers;
      var todo := pollDescriptors.Keys;
      while todo != {}
        invariant todo <= pollDescriptors.Keys
        invariant l.notifiers.Keys == before.Keys + (pollDescriptors.Keys - todo)
        invariant forall fd :: fd in l.notifiers ==>
                    l.notifiers[fd]
                    == if fd in pollDescriptors && fd !in todo
                       then NewSocket(before, fd, pollDescriptors[fd].events)[fd] else before[fd]
        decreases todo
      {
        var fd :| fd in todo;
        l.OnNewSocket(fd, pollDescriptors[fd].events);
        todo := todo - {fd};
      }
      assert l.notifiers.Keys == Replay(pollDescriptors, before).Keys;
    }

    method SetListener(l: SocketProcessor?)
      modifies this`listener, l
      ensures listener == l && pollDescriptors == old(pollDescriptors)
      ensures l != null ==> l.notifiers == Replay(pollDescriptors, old(l.notifiers))
    {
      listener := l;
      if l != null {
        ReplayTo(l);
      }
    }
  }
}
