/** How the connection handler chooses the response to an HTTP request. */
module HttpRouting {
  import opened Wrappers
  import opened HttpRegistry

  const REGISTRY := "registry"
  const ROOT := "/"

  datatype Decision =
    | Filtered
    | ListRegistry
    | Call(endpoint: string, path: string, func: Func)   // path: what the handler is given
    | NotSupported(allow: string)                        // 405 with an Allow header
    | NotFound                                           // 404

  // findEndpoint: the first match, else "/"
  function FindEndpoint(t: Table, verb: Method, path: string): Option<string> {
    match FirstMatch(t[Index(verb)], path)
    case Some(endpoint) => Some(endpoint)
    case None => if Registered(t, verb, ROOT).Some? then Some(ROOT) else None
  }

  function RemoveEndpointFromPath(endpoint: string, path: string): string {
    if endpoint == ROOT then path
    else if |endpoint| >= |path| then ""
    else path[|endpoint|..]
  }

  // *endpoint.rbegin() == '/': reads the last character, so there must be one
  predicate EndsWithSlash(endpoint: string)
    requires endpoint != ""
  {
    endpoint[|endpoint| - 1] == '/'
  }

  lemma FoundEndpoint(t: Table, verb: Method, path: string)
    requires Ordered(t)
    ensures FindEndpoint(t, verb, path).Some? ==>
              var endpoint := FindEndpoint(t, verb, path).value;
              && Registered(t, verb, endpoint).Some?
              && (endpoint == ROOT || Matches(endpoint, path))
              && (endpoint == "" ==> RemoveEndpointFromPath(endpoint, path) == "")
  {
    FirstMatchIsLongest(t[Index(verb)], path);
    if FirstMatch(t[Index(verb)], path).Some? {
      LookupFinds(t[Index(verb)], FirstMatch(t[Index(verb)], path).value);
    }
  }

  function Decide(t: Table, filtered: bool, verb: Method, path: string): Decision
    requires Ordered(t)
  {
    if filtered then Filtered
    else if verb == GET && path == REGISTRY then ListRegistry
    else
      FoundEndpoint(t, verb, path);
      var found := FindEndpoint(t, verb, path);
      if found.Some? &&
         var stripped := RemoveEndpointFromPath(found.value, path);
         stripped == "" || EndsWithSlash(found.value)
      then
        Call(found.value, RemoveEndpointFromPath(found.value, path), Registered(t, verb, found.value).value)
      else
        var allow := Join(Allowed(t, path));
        if allow != "" then NotSupported(allow) else NotFound
  }

  lemma ExactMatchIsFirst(t: Table, verb: Method, path: string)
    requires Ordered(t) && Registered(t, verb, path).Some?
    ensures FirstMatch(t[Index(verb)], path) == Some(path)
  {
    var m := t[Index(verb)];
    FirstMatchIsLongest(m, path);
    LookupFinds(m, path);
    var i :| 0 <= i < |m| && m[i].path == path;
    assert Matches(m[i].path, path);
  }

  /** An unfiltered request for a registered method and path always reaches that very handler. */
  lemma RegisteredIsReached(t: Table, verb: Method, path: string)
    requires Ordered(t) && Registered(t, verb, path).Some?
    requires !(verb == GET && path == REGISTRY)
    ensures Decide(t, false, verb, path)
            == Call(path, if path == ROOT then ROOT else "", Registered(t, verb, path).value)
  {
    ExactMatchIsFirst(t, verb, path);
  }

  /** Every decision there is, case by case. */
  ghost predicate Decides(t: Table, filtered: bool, verb: Method, path: string, decision: Decision) {
    if filtered then decision == Filtered
    else if verb == GET && path == "registry" then decision == ListRegistry
    else if Registered(t, verb, path).Some? then
      decision == Call(path, if path == "/" then "/" else "", Registered(t, verb, path).value)
    else
      match decision
      case Call(e, rest, func) =>
        Registered(t, verb, e) == Some(func) && (if e == "/" then rest == path else e + rest == path)
      case NotSupported(allow) => allow == Join(Allowed(t, path)) && allow != ""
      case NotFound => Allowed(t, path) == []
      case _ => false
  }

  lemma DecideDecides(t: Table, filtered: bool, verb: Method, path: string)
    requires Ordered(t)
    ensures Decides(t, filtered, verb, path, Decide(t, filtered, verb, path))
  {
    if !filtered && !(verb == GET && path == REGISTRY) {
      if Registered(t, verb, path).Some? {
        RegisteredIsReached(t, verb, path);
      } else {
        ChosenHandlerGetsTheRest(t, filtered, verb, path);
        AllowNamesRegistered(t, path, verb);
      }
    }
  }

  // Server::handle() throws for the reserved endpoint
  predicate KeepsReserved(history: seq<Change>) {
    forall c :: c in history && c.Add? ==> c.path != REGISTRY
  }

  lemma {:induction false} ReservedIsNeverRegistered(history: seq<Change>, verb: Method)
    requires KeepsReserved(history)
    ensures Current(history, verb, REGISTRY) == None
  {
    if history == [] {
    } else {
      assert history[|history| - 1] in history;
      ReservedIsNeverRegistered(history[..|history| - 1], verb);
    }
  }

  /** So after every history of a server, whatever is registered is reached: with the handler added
      first since the endpoint was last removed. */
  lemma HandledIsReached(history: seq<Change>, verb: Method, path: string)
    requires KeepsReserved(history) && Current(history, verb, path).Some?
    ensures Ordered(ApplyAll(history))
    ensures Decide(ApplyAll(history), false, verb, path)
            == Call(path, if path == ROOT then ROOT else "", Current(history, verb, path).value)
  {
    TableHoldsCurrent(history, verb, path);
    ReservedIsNeverRegistered(history, verb);
    RegisteredIsReached(ApplyAll(history), verb, path);
  }

  /** A chosen handler is the registered one, its endpoint and the path it is given make up the
      request's path (the root endpoint is given all of it), and only a directory gets a rest. */
  lemma ChosenHandlerGetsTheRest(t: Table, filtered: bool, verb: Method, path: string)
    requires Ordered(t)
    ensures match Decide(t, filtered, verb, path)
            case Call(endpoint, rest, func) =>
              && Registered(t, verb, endpoint) == Some(func)
              && (if endpoint == ROOT then rest == path else endpoint + rest == path)
              && (rest != "" ==> endpoint != "" && EndsWithSlash(endpoint))
            case _ => true
  {
    FoundEndpoint(t, verb, path);
    FirstMatchIsLongest(t[Index(verb)], path);
  }

  lemma AllowNamesRegistered(t: Table, path: string, verb: Method)
    ensures Split(Join(Allowed(t, path))) == Allowed(t, path)
    ensures Name(verb) in Allowed(t, path) <==> Registered(t, verb, path).Some?
    ensures Join(Allowed(t, path)) == "" <==> Allowed(t, path) == []
  {
    IndexIsPosition(verb);
    AllowedNames(t, path, METHODS, verb);
    SplitUndoesJoin(Allowed(t, path));
  }

  // the methods a path has, from the history alone, in the order of the enumeration
  function CurrentNames(history: seq<Change>, path: string, verbs: seq<Method>): seq<string> {
    if verbs == [] then []
    else
      (if Current(history, verbs[0], path).Some? then [Name(verbs[0])] else [])
      + CurrentNames(history, path, verbs[1..])
  }

  lemma {:induction false} AllowedAreCurrent(history: seq<Change>, path: string, verbs: seq<Method>)
    ensures AllowedFrom(ApplyAll(history), path, verbs) == CurrentNames(history, path, verbs)
  {
    if verbs == [] {
    } else {
      TableHoldsCurrent(history, verbs[0], path);
      AllowedAreCurrent(history, path, verbs[1..]);
    }
  }

  /** After every history of adds and removes: a 405 names in its Allow header exactly the methods
      registered for this very path, in their fixed order, never the request's own, and a 404 means
      there are none. */
  lemma RefusalsAreSound(history: seq<Change>, filtered: bool, verb: Method, path: string, other: Method)
    ensures Ordered(ApplyAll(history))
    ensures match Decide(ApplyAll(history), filtered, verb, path)
            case NotSupported(allow) =>
              && Split(allow) == CurrentNames(history, path, METHODS)
              && (Name(other) in Split(allow) <==> Current(history, other, path).Some?)
              && Current(history, verb, path) == None
              && Split(allow) != []
            case NotFound => Current(history, other, path) == None && CurrentNames(history, path, METHODS) == []
            case _ => true
  {
    var t := ApplyAll(history);
    AllowedAreCurrent(history, path, METHODS);
    TableHoldsCurrent(history, other, path);
    TableHoldsCurrent(history, verb, path);
    AllowNamesRegistered(t, path, other);
    if Registered(t, verb, path).Some? && !(verb == GET && path == REGISTRY) {
      RegisteredIsReached(t, verb, path);
    }
    if Allowed(t, path) != [] {
      AllowNamesRegistered(t, path, verb);
    }
  }

  /** A registered directory that is the longest registered prefix of the path is called with the rest
      of it. */
  lemma DirectoryIsCalled(t: Table, verb: Method, directory: string, path: string)
    requires Ordered(t) && Registered(t, verb, directory).Some? && !(verb == GET && path == REGISTRY)
    requires directory != "" && directory[|directory| - 1] == '/' && directory <= path
    requires forall e :: Registered(t, verb, e).Some? && e <= path ==> |e| <= |directory|
    ensures Decide(t, false, verb, path)
            == Call(directory, if directory == "/" then path else path[|directory|..],
                    Registered(t, verb, directory).value)
  {
    var m := t[Index(verb)];
    FirstMatchIsLongest(m, path);
    LookupFinds(m, directory);
    var i :| 0 <= i < |m| && m[i].path == directory;
    assert m[i].path <= path;
    var found := FirstMatch(m, path).value;
    LookupFinds(m, found);
    assert found == directory;
  }

  // the longest endpoint that is a prefix of the path takes the whole path, or is a directory
  ghost predicate LongestTakes(t: Table, verb: Method, path: string) {
    exists e :: IsLongestMatch(t[Index(verb)], path, Some(e)) && (e == path || EndsInSlash(e))
  }

  predicate EndsInSlash(endpoint: string) {
    endpoint != "" && EndsWithSlash(endpoint)
  }

  /** When a handler is called at all. The root endpoint is meant for every request that no other
      takes, yet it is asked only if no endpoint is a prefix of the path: a registered "a" takes "ab"
      away from it, and from any shorter directory, and the request is refused. */
  lemma HandlerIsCalledIff(t: Table, verb: Method, path: string)
    requires Ordered(t) && !(verb == GET && path == REGISTRY)
    ensures Decide(t, false, verb, path).Call? <==>
              || LongestTakes(t, verb, path)
              || (IsLongestMatch(t[Index(verb)], path, None) && Registered(t, verb, ROOT).Some?)
  {
    var m := t[Index(verb)];
    FirstMatchIsLongest(m, path);
    var found := FirstMatch(m, path);
    if found.Some? {
      assert RemoveEndpointFromPath(found.value, path) == "" ==> found.value == path;
      if found.value == path || EndsInSlash(found.value) {
        assert IsLongestMatch(m, path, Some(found.value));
      }
    }
    if LongestTakes(t, verb, path) {
      var e :| IsLongestMatch(m, path, Some(e)) && (e == path || EndsInSlash(e));
      LongestMatchIsUnique(m, path, Some(e), found);
    }
    if IsLongestMatch(m, path, None) {
      LongestMatchIsUnique(m, path, None, found);
    }
  }

  /** The case in point: with "/" and "a" registered, a request for "ab" finds nothing. */
  lemma RootIsPassedOver(f: Func, g: Func)
    ensures var t := ApplyAll([Add(GET, ROOT, f), Add(GET, "a", g)]);
            Ordered(t) && Registered(t, GET, ROOT) == Some(f) && Decide(t, false, GET, "ab") == NotFound
  {
    var history := [Add(GET, ROOT, f), Add(GET, "a", g)];
    var t := ApplyAll(history);
    TableHoldsCurrent(history, GET, ROOT);
    var first := history[..1];
    assert first == [Add(GET, ROOT, f)] && first[..0] == [];
    assert ApplyAll(first) == Apply(ApplyAll([]), Add(GET, ROOT, f));
    var m := [Endpoint(ROOT, f)];
    assert ApplyAll(first)[0] == m;
    assert Lookup(m, "a") == None && Lookup(m, ROOT) == Some(f);
    assert t == Apply(ApplyAll(first), Add(GET, "a", g));
    assert Less(ROOT, "a");
    assert t[0] == Insert(m, Endpoint("a", g)) == [Endpoint("a", g)] + m;
    assert t[0][0] == Endpoint("a", g) && t[0][1..] == m;
    assert FirstMatch(t[0], "ab") == Some("a") by {
      assert "a" <= "ab";
    }
    AllowedAreCurrent(history, "ab", METHODS);
    NothingCurrent(history, "ab", METHODS);
  }

  lemma {:induction false} NothingCurrent(history: seq<Change>, path: string, verbs: seq<Method>)
    requires forall c :: c in history ==> c.path != path
    ensures CurrentNames(history, path, verbs) == []
  {
    if verbs == [] {
    } else {
      NeverAdded(history, verbs[0], path);
      NothingCurrent(history, path, verbs[1..]);
    }
  }

  lemma {:induction false} NeverAdded(history: seq<Change>, verb: Method, path: string)
    requires forall c :: c in history ==> c.path != path
    ensures Current(history, verb, path) == None
  {
    if history == [] {
    } else {
      assert history[|history| - 1] in history;
      NeverAdded(history[..|history| - 1], verb, path);
    }
  }
}
