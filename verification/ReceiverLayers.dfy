/** The three layers a method can be registered in: synchronous, asynchronous and cancellable. */
module ReceiverLayers {
  import opened Wrappers

  // an std::function: empty, or one the application registered
  datatype Callback = Empty | Action(id: nat)

  datatype Layer = Sync | Async | Cancellable

  // which receiver class was instantiated, named after its most derived layer
  type Kind = Layer

  datatype Methods = Methods(kind: Kind,
                             sync: map<string, Callback>,
                             async: map<string, Callback>,
                             cancellable: map<string, Callback>)

  datatype Target = Intercept | Run(layer: Layer, callback: Callback)

  const CANCEL := "cancel"
  const PROGRESS := "progress"
  const RESERVED := "rpc."

  predicate BeginsWith(text: string, other: string) {
    other <= text
  }

  predicate IsValidName(kind: Kind, name: string) {
    && !(kind == Cancellable && (BeginsWith(name, CANCEL) || BeginsWith(name, PROGRESS)))
    && !BeginsWith(name, RESERVED)
  }

  predicate HasLayer(kind: Kind, layer: Layer) {
    layer == Sync || kind == Cancellable || kind == layer
  }

  function Registered(m: Methods, layer: Layer): map<string, Callback> {
    match layer
    case Sync => m.sync
    case Async => m.async
    case Cancellable => m.cancellable
  }

  // isRegisteredMethodName, down the chain of overrides
  predicate IsRegistered(m: Methods, name: string) {
    || (m.kind == Cancellable && (name in m.cancellable || name == CANCEL))
    || (m.kind != Sync && name in m.async)
    || name in m.sync
  }

  // process(), down the chain of overrides; the last one indexes its map with operator[]
  function Dispatch(m: Methods, name: string): Target {
    if m.kind == Cancellable && name == CANCEL then Intercept
    else if m.kind == Cancellable && name in m.cancellable then Run(Cancellable, m.cancellable[name])
    else if m.kind != Sync && name in m.async then Run(Async, m.async[name])
    else Run(Sync, if name in m.sync then m.sync[name] else Empty)
  }

  datatype Registration = Registration(layer: Layer, name: string, action: nat)

  // registerMethod: a reserved name throws and changes nothing
  function Register(m: Methods, r: Registration): Methods {
    if !IsValidName(m.kind, r.name) then m
    else
      match r.layer
      case Sync => m.(sync := m.sync[r.name := Action(r.action)])
      case Async => m.(async := m.async[r.name := Action(r.action)])
      case Cancellable => m.(cancellable := m.cancellable[r.name := Action(r.action)])
  }

  function RegisterAll(kind: Kind, history: seq<Registration>): Methods {
    if history == [] then Methods(kind, map[], map[], map[])
    else Register(RegisterAll(kind, history[..|history| - 1]), history[|history| - 1])
  }

  /** The action last registered for a method in a layer, from the history alone. */
  function Latest(kind: Kind, history: seq<Registration>, layer: Layer, name: string): Option<nat> {
    if history == [] || !IsValidName(kind, name) then None
    else
      var last := history[|history| - 1];
      if last.layer == layer && last.name == name then Some(last.action)
      else Latest(kind, history[..|history| - 1], layer, name)
  }

  lemma {:induction false} MapsHoldLatest(kind: Kind, history: seq<Registration>, layer: Layer, name: string)
    ensures RegisterAll(kind, history).kind == kind
    ensures var m := Registered(RegisterAll(kind, history), layer);
            match Latest(kind, history, layer, name)
            case Some(action) => name in m && m[name] == Action(action)
            case None => name !in m
  {
    if history == [] {
    } else {
      var before, last := history[..|history| - 1], history[|history| - 1];
      MapsHoldLatest(kind, before, layer, name);
      assert Registered(Register(RegisterAll(kind, before), last), layer)
          == if layer == last.layer && IsValidName(kind, last.name)
             then Registered(RegisterAll(kind, before), layer)[last.name := Action(last.action)]
             else Registered(RegisterAll(kind, before), layer);
      if !IsValidName(kind, name) {
        assert Latest(kind, before, layer, name) == None;
      }
    }
  }

  /** Names that begin with "rpc.", and in a cancellable receiver with "cancel" or "progress", are never
      registered in any layer; every other name is. */
  lemma ReservedNamesAreRefused(m: Methods, r: Registration)
    ensures |r.name| >= 4 && r.name[..4] == "rpc." ==> Register(m, r) == m
    ensures m.kind == Cancellable && |r.name| >= 6 && r.name[..6] == "cancel" ==> Register(m, r) == m
    ensures m.kind == Cancellable && |r.name| >= 8 && r.name[..8] == "progress" ==> Register(m, r) == m
    ensures !(|r.name| >= 4 && r.name[..4] == "rpc.")
            && !(m.kind == Cancellable && |r.name| >= 6 && r.name[..6] == "cancel")
            && !(m.kind == Cancellable && |r.name| >= 8 && r.name[..8] == "progress") ==>
              && r.name in Registered(Register(m, r), r.layer)
              && Registered(Register(m, r), r.layer)[r.name] == Action(r.action)
  {
    assert "rpc." <= r.name <==> |r.name| >= 4 && r.name[..4] == "rpc.";
    assert "cancel" <= r.name <==> |r.name| >= 6 && r.name[..6] == "cancel";
    assert "progress" <= r.name <==> |r.name| >= 8 && r.name[..8] == "progress";
  }

  // what the design wants: the most derived layer that knows the method
  function MostDerived(kind: Kind, history: seq<Registration>, name: string): Option<(Layer, nat)> {
    var c := if kind == Cancellable then Latest(kind, history, Cancellable, name) else None;
    var a := if kind != Sync then Latest(kind, history, Async, name) else None;
    var s := Latest(kind, history, Sync, name);
    if c.Some? then Some((Cancellable, c.value))
    else if a.Some? then Some((Async, a.value))
    else if s.Some? then Some((Sync, s.value))
    else None
  }

  /** After every registration history: a method that passes isRegisteredMethodName runs the action
      last registered for it in the most derived layer, never an empty callback; only "cancel" of a
      cancellable receiver is taken away, and no handler can have that name there. */
  lemma DispatchReachesMostDerived(kind: Kind, history: seq<Registration>, name: string)
    ensures var m := RegisterAll(kind, history);
            && (IsRegistered(m, name) <==>
                  MostDerived(kind, history, name).Some? || (kind == Cancellable && name == CANCEL))
            && (Dispatch(m, name) == Intercept <==> kind == Cancellable && name == CANCEL)
            && (Dispatch(m, name) == Intercept ==> MostDerived(kind, history, name) == None)
            && (IsRegistered(m, name) && Dispatch(m, name) != Intercept ==>
                  var (layer, action) := MostDerived(kind, history, name).value;
                  Dispatch(m, name) == Run(layer, Action(action)))
  {
    MapsHoldLatest(kind, history, Cancellable, name);
    MapsHoldLatest(kind, history, Async, name);
    MapsHoldLatest(kind, history, Sync, name);
  }

  class Receiver {
    const kind: Kind
    var sync: map<string, Callback>
    var async: map<string, Callback>
    var cancellable: map<string, Callback>

    constructor (kind: Kind)
      ensures this.kind == kind && View() == RegisterAll(kind, [])
    {
      this.kind := kind;
      sync, async, cancellable := map[], map[], map[];
    }

    function View(): Methods
      reads this
    {
      Methods(kind, sync, async, cancellable)
    }

    method RegisterMethod(layer: Layer, name: string, action: nat) returns (accepted: bool)
      requires HasLayer(kind, layer)
      modifies this
      ensures accepted <==> IsValidName(kind, name)
      ensures View() == Register(old(View()), Registration(layer, name, action))
    {
      if kind == Cancellable && (BeginsWith(name, CANCEL) || BeginsWith(name, PROGRESS)) {
        return false;
      }
      if BeginsWith(name, RESERVED) {
        return false;
      }
      match layer {
        case Sync => sync := sync[name := Action(action)];
        case Async => async := async[name := Action(action)];
        case Cancellable => cancellable := cancellable[name := Action(action)];
      }
      return true;
    }

    /** Finds what process() runs. The maps stay as they are for a registered method; operator[]
        inserts an empty callback for any other. */
    method Process(name: string) returns (target: Target)
      modifies this`sync
      ensures target == Dispatch(old(View()), name)
      ensures View() == if IsRegistered(old(View()), name) then old(View())
                        else old(View()).(sync := old(sync)[name := Empty])
    {
      if kind == Cancellable {
        if name == CANCEL {
          return Intercept;
        }
        if name in cancellable {
          return Run(Cancellable, cancellable[name]);
        }
      }
      if kind != Sync && name in async {
        return Run(Async, async[name]);
      }
      if name !in sync {
        sync := sync[name := Empty];
      }
      return Run(Sync, sync[name]);
    }
  }
}
