/** The registry of HTTP endpoints. Each method has an ordered map of endpoints, greatest first;
    the first endpoint that is a prefix of the path is taken for the most specific one. */
module HttpRegistry {
  import opened Wrappers
  import opened JsonModel

  datatype Method = GET | POST | PUT | PATCH | DELETE | OPTIONS

  type Func = nat   // a RESTFunc of the application

  datatype Endpoint = Endpoint(path: string, func: Func)

  // std::map<std::string, RESTFunc, std::greater<std::string>> in iteration order
  type FuncMap = seq<Endpoint>

  // operator< of std::string
  predicate Less(a: string, b: string) {
    b != [] && (a == [] || a[0] < b[0] || (a[0] == b[0] && Less(a[1..], b[1..])))
  }

  ghost predicate Descending(m: FuncMap) {
    forall i, j :: 0 <= i < j < |m| ==> Less(m[j].path, m[i].path)
  }

  function Keys(m: FuncMap): set<string> {
    set i | 0 <= i < |m| :: m[i].path
  }

  lemma {:induction false} LessIsTransitive(a: string, b: string, c: string)
    requires Less(a, b) && Less(b, c)
    ensures Less(a, c)
  {
    if a != [] && a[0] == b[0] == c[0] {
      LessIsTransitive(a[1..], b[1..], c[1..]);
    }
  }

  lemma {:induction false} LessIsIrreflexive(a: string)
    ensures !Less(a, a)
  {
    if a == [] {
    } else {
      LessIsIrreflexive(a[1..]);
    }
  }

  lemma {:induction false} LessIsTotal(a: string, b: string)
    ensures Less(a, b) || a == b || Less(b, a)
  {
    if a != [] && b != [] && a[0] == b[0] {
      LessIsTotal(a[1..], b[1..]);
      assert a == [a[0]] + a[1..] && b == [b[0]] + b[1..];
    }
  }

  lemma {:induction false} ShorterPrefixIsLess(a: string, b: string)
    requires a < b
    ensures Less(a, b)
  {
    if a == [] {
    } else {
      ShorterPrefixIsLess(a[1..], b[1..]);
    }
  }

  // ---- the map ----

  predicate ContainsKey(m: FuncMap, path: string) {
    exists i :: 0 <= i < |m| && m[i].path == path
  }

  function Insert(m: FuncMap, e: Endpoint): FuncMap {
    if m == [] || Less(m[0].path, e.path) then [e] + m
    else [m[0]] + Insert(m[1..], e)
  }

  function Erase(m: FuncMap, path: string): FuncMap {
    if m == [] then []
    else if m[0].path == path then m[1..]
    else [m[0]] + Erase(m[1..], path)
  }

  function Lookup(m: FuncMap, path: string): Option<Func> {
    if m == [] then None
    else if m[0].path == path then Some(m[0].func)
    else Lookup(m[1..], path)
  }

  lemma {:induction false} LookupFinds(m: FuncMap, path: string)
    ensures Lookup(m, path).Some? <==> ContainsKey(m, path)
  {
    if m == [] {
    } else {
      LookupFinds(m[1..], path);
      if ContainsKey(m, path) && m[0].path != path {
        var i :| 0 <= i < |m| && m[i].path == path;
        assert m[1..][i - 1].path == path;
      }
    }
  }

  // all paths of m are below p
  ghost predicate Below(m: FuncMap, p: string) {
    forall i :: 0 <= i < |m| ==> Less(m[i].path, p)
  }

  lemma DescendingTail(m: FuncMap)
    requires m != [] && Descending(m)
    ensures Descending(m[1..]) && Below(m[1..], m[0].path)
  {
  }

  lemma DescendingCons(e: Endpoint, m: FuncMap)
    requires Descending(m) && Below(m, e.path)
    ensures Descending([e] + m)
  {
  }

  lemma {:induction false} InsertIsOrdered(m: FuncMap, e: Endpoint, path: string)
    requires Descending(m) && !ContainsKey(m, e.path)
    ensures Descending(Insert(m, e))
    ensures forall p :: Below(m, p) && Less(e.path, p) ==> Below(Insert(m, e), p)
    ensures Lookup(Insert(m, e), path) == if path == e.path then Some(e.func) else Lookup(m, path)
  {
    if m == [] {
    } else if Less(m[0].path, e.path) {
      forall i | 0 <= i < |m| ensures Less(m[i].path, e.path) {
        if i > 0 {
          LessIsTransitive(m[i].path, m[0].path, e.path);
        }
      }
      DescendingCons(e, m);
      LessIsIrreflexive(e.path);
      if path == e.path && Lookup(m, path).Some? {
        LookupFinds(m, path);
      }
    } else {
      LessIsTotal(m[0].path, e.path);
      DescendingTail(m);
      InsertIsOrdered(m[1..], e, path);
      DescendingCons(m[0], Insert(m[1..], e));
    }
  }

  lemma {:induction false} EraseIsOrdered(m: FuncMap, gone: string, path: string)
    requires Descending(m)
    ensures Descending(Erase(m, gone))
    ensures forall p :: Below(m, p) ==> Below(Erase(m, gone), p)
    ensures Lookup(Erase(m, gone), path) == if path == gone then None else Lookup(m, path)
  {
    if m == [] {
    } else {
      DescendingTail(m);
      if m[0].path == gone {
        if path == gone && ContainsKey(m[1..], gone) {
          LessIsIrreflexive(gone);
        }
        LookupFinds(m[1..], path);
      } else {
        EraseIsOrdered(m[1..], gone, path);
        DescendingCons(m[0], Erase(m[1..], gone));
        forall p | Below(m, p) ensures Below(Erase(m, gone), p) {
          assert Below(m[1..], p);
        }
      }
    }
  }

  // ---- routing ----

  predicate Matches(endpoint: string, path: string) {
    if endpoint == "" then path == "" else endpoint <= path
  }

  function FirstMatch(m: FuncMap, path: string): Option<string> {
    if m == [] then None
    else if Matches(m[0].path, path) then Some(m[0].path)
    else FirstMatch(m[1..], path)
  }

  /** Longest-prefix routing, with no order in sight: a registered prefix of the path, and every other
      is shorter; the empty endpoint is only for the empty path. */
  ghost predicate IsLongestMatch(m: FuncMap, path: string, found: Option<string>) {
    match found
    case None =>
      forall i :: 0 <= i < |m| && m[i].path <= path ==> m[i].path == "" && path != ""
    case Some(endpoint) =>
      && ContainsKey(m, endpoint) && endpoint <= path && (endpoint == "" ==> path == "")
      && forall i :: 0 <= i < |m| && m[i].path <= path ==>
           m[i].path == endpoint || |m[i].path| < |endpoint|
  }

  lemma GreaterMatchIsLonger(a: string, b: string, path: string)
    requires Matches(a, path) && Matches(b, path) && Less(b, a)
    ensures |b| < |a|
  {
    if |a| <= |b| {
      if a == b {
        LessIsIrreflexive(a);
      } else {
        assert a == path[..|a|] && b == path[..|b|];
        assert a < b;
        ShorterPrefixIsLess(a, b);
        LessIsTransitive(a, b, a);
        LessIsIrreflexive(a);
      }
    }
  }

  /** In a map ordered from the greatest endpoint down, the first match is the longest. */
  lemma {:induction false} FirstMatchIsLongest(m: FuncMap, path: string)
    requires Descending(m)
    ensures IsLongestMatch(m, path, FirstMatch(m, path))
  {
    if m == [] {
    } else if Matches(m[0].path, path) {
      forall i | 0 < i < |m| && Matches(m[i].path, path) ensures |m[i].path| < |m[0].path| {
        GreaterMatchIsLonger(m[0].path, m[i].path, path);
      }
      assert ContainsKey(m, m[0].path);
    } else {
      FirstMatchIsLongest(m[1..], path);
      forall i | 0 < i < |m| ensures m[i] == m[1..][i - 1] {
      }
      if FirstMatch(m, path).Some? {
        var k :| 0 <= k < |m[1..]| && m[1..][k].path == FirstMatch(m, path).value;
        assert m[k + 1].path == FirstMatch(m, path).value;
      }
    }
  }

  lemma LongestMatchIsUnique(m: FuncMap, path: string, one: Option<string>, other: Option<string>)
    requires IsLongestMatch(m, path, one) && IsLongestMatch(m, path, other)
    ensures one == other
  {
    if one.Some? {
      var i :| 0 <= i < |m| && m[i].path == one.value;
      assert Matches(m[i].path, path);
    }
    if other.Some? {
      var j :| 0 <= j < |m| && m[j].path == other.value;
      assert Matches(m[j].path, path);
    }
  }

  // ---- the six maps ----

  // std::array<FuncMap, size_t(Method::ALL)>
  type Table = t: seq<FuncMap> | |t| == 6 witness seq(6, _ => [])

  function Index(verb: Method): nat
    ensures Index(verb) < 6
  {
    match verb case GET => 0 case POST => 1 case PUT => 2 case PATCH => 3 case DELETE => 4 case OPTIONS => 5
  }

  const METHODS: seq<Method> := [GET, POST, PUT, PATCH, DELETE, OPTIONS]

  function Name(verb: Method): string {
    match verb
    case GET => "GET" case POST => "POST" case PUT => "PUT"
    case PATCH => "PATCH" case DELETE => "DELETE" case OPTIONS => "OPTIONS"
  }

  function Registered(t: Table, verb: Method, path: string): Option<Func> {
    Lookup(t[Index(verb)], path)
  }

  ghost predicate Ordered(t: Table) {
    forall k :: 0 <= k < 6 ==> Descending(t[k])
  }

  datatype Change = Add(verb: Method, path: string, func: Func) | Remove(path: string)

  function EraseAll(t: Table, path: string): Table {
    seq(6, k requires 0 <= k < 6 => Erase(t[k], path))
  }

  function Apply(t: Table, c: Change): Table {
    match c
    case Add(verb, path, func) =>
      if Lookup(t[Index(verb)], path).Some? then t
      else t[Index(verb) := Insert(t[Index(verb)], Endpoint(path, func))]
    case Remove(path) => EraseAll(t, path)
  }

  function ApplyAll(history: seq<Change>): Table {
    if history == [] then seq(6, _ => [])
    else Apply(ApplyAll(history[..|history| - 1]), history[|history| - 1])
  }

  /** What is registered, from the history alone: the first add since the last remove. */
  function Current(history: seq<Change>, verb: Method, path: string): Option<Func> {
    if history == [] then None
    else
      var before := Current(history[..|history| - 1], verb, path);
      match history[|history| - 1]
      case Add(v, p, func) => if v == verb && p == path && before == None then Some(func) else before
      case Remove(p) => if p == path then None else before
  }

  lemma StepIsOrdered(t: Table, c: Change, verb: Method, path: string)
    requires Ordered(t)
    ensures Ordered(Apply(t, c))
    ensures Registered(Apply(t, c), verb, path) ==
              match c
              case Add(v, p, func) =>
                if v == verb && p == path && Registered(t, verb, path) == None then Some(func)
                else Registered(t, verb, path)
              case Remove(p) => if p == path then None else Registered(t, verb, path)
  {
    match c
    case Add(v, p, func) =>
      var m := t[Index(v)];
      LookupFinds(m, p);
      if Lookup(m, p) == None {
        InsertIsOrdered(m, Endpoint(p, func), path);
      }
    case Remove(p) =>
      forall k | 0 <= k < 6 ensures Descending(Apply(t, c)[k]) {
        EraseIsOrdered(t[k], p, path);
      }
      EraseIsOrdered(t[Index(verb)], p, path);
  }

  lemma {:induction false} TableHoldsCurrent(history: seq<Change>, verb: Method, path: string)
    ensures Ordered(ApplyAll(history))
    ensures Registered(ApplyAll(history), verb, path) == Current(history, verb, path)
  {
    if history == [] {
    } else {
      TableHoldsCurrent(history[..|history| - 1], verb, path);
      StepIsOrdered(ApplyAll(history[..|history| - 1]), history[|history| - 1], verb, path);
    }
  }

  // ---- the Allow header ----

  function AllowedFrom(t: Table, path: string, verbs: seq<Method>): seq<string> {
    if verbs == [] then []
    else (if Registered(t, verbs[0], path).Some? then [Name(verbs[0])] else []) + AllowedFrom(t, path, verbs[1..])
  }

  /** The methods registered for exactly this path, in the order of the enumeration. */
  function Allowed(t: Table, path: string): seq<string> {
    AllowedFrom(t, path, METHODS)
  }

  function Join(names: seq<string>): string {
    if names == [] then "" else if |names| == 1 then names[0] else names[0] + ", " + Join(names[1..])
  }

  // splits at every comma and drops the blank after it; the way a client reads the header
  function Split(text: string): seq<string> {
    if text == "" then [] else SplitRest("", text)
  }

  function SplitRest(word: string, text: string): seq<string>
    decreases |text|
  {
    if text == "" then [word]
    else if text[0] == ',' then [word] + SplitRest("", if |text| >= 2 then text[2..] else "")
    else SplitRest(word + [text[0]], text[1..])
  }

  predicate IsWord(name: string) {
    name != "" && forall k :: 0 <= k < |name| ==> name[k] != ','
  }

  lemma {:induction false} SplitWord(word: string, name: string, rest: string)
    requires forall k :: 0 <= k < |name| ==> name[k] != ','
    ensures SplitRest(word, name + rest) == SplitRest(word + name, rest)
    decreases name
  {
    if name == "" {
      assert name + rest == rest && word + name == word;
    } else {
      SplitWord(word + [name[0]], name[1..], rest);
      assert (name + rest)[1..] == name[1..] + rest;
      assert word + [name[0]] + name[1..] == word + name;
    }
  }

  lemma {:induction false} SplitUndoesJoin(names: seq<string>)
    requires forall n :: n in names ==> IsWord(n)
    ensures Split(Join(names)) == names
    ensures Join(names) == "" <==> names == []
  {
    if names == [] {
    } else {
      assert IsWord(names[0]);
      SplitUndoesJoin(names[1..]);
      if |names| == 1 {
        SplitWord("", names[0], "");
        assert names[0] + "" == names[0] && "" + names[0] == names[0];
      } else {
        var rest := Join(names[1..]);
        SplitWord("", names[0], ", " + rest);
        assert names[0] + (", " + rest) == Join(names);
        assert (", " + rest)[2..] == rest;
        assert "" + names[0] == names[0];
        assert names == [names[0]] + names[1..];
      }
    }
  }

  lemma {:induction false} JoinSnoc(names: seq<string>, name: string)
    requires forall k :: 0 <= k < |names| ==> names[k] != ""
    ensures Join(names + [name]) == Join(names) + if Join(names) == "" then name else ", " + name
    ensures Join(names) == "" <==> names == []
  {
    if names == [] {
      assert [] + [name] == [name];
    } else {
      JoinSnoc(names[1..], name);
      assert (names + [name])[1..] == names[1..] + [name];
      if |names| > 1 {
        assert names[0] + ", " + (Join(names[1..]) + (", " + name)) == names[0] + ", " + Join(names[1..]) + (", " + name);
      }
    }
  }

  lemma NamesDiffer(v: Method, other: Method)
    ensures Name(v) == Name(other) <==> v == other
  {
  }

  lemma NameIsWord(v: Method)
    ensures IsWord(Name(v))
  {
  }

  lemma {:induction false} AllowedNames(t: Table, path: string, verbs: seq<Method>, v: Method)
    ensures Name(v) in AllowedFrom(t, path, verbs) <==> v in verbs && Registered(t, v, path).Some?
    ensures forall n :: n in AllowedFrom(t, path, verbs) ==> IsWord(n)
  {
    if verbs == [] {
    } else {
      AllowedNames(t, path, verbs[1..], v);
      NamesDiffer(v, verbs[0]);
      NameIsWord(verbs[0]);
      assert v in verbs <==> v == verbs[0] || v in verbs[1..];
      hide Name, IsWord;
    }
  }

  lemma {:induction false} AllowedSnoc(t: Table, path: string, verbs: seq<Method>, v: Method)
    ensures AllowedFrom(t, path, verbs + [v])
            == AllowedFrom(t, path, verbs) + if Registered(t, v, path).Some? then [Name(v)] else []
  {
    if verbs == [] {
    } else {
      AllowedSnoc(t, path, verbs[1..], v);
      assert (verbs + [v])[1..] == verbs[1..] + [v];
    }
  }

  function Appended(text: string, name: string): string {
    text + if text == "" then name else ", " + name
  }

  // the header after the first k methods were looked at
  function AllowHeader(t: Table, path: string, k: nat): string
    requires k <= 6
  {
    Join(AllowedFrom(t, path, METHODS[..k]))
  }

  lemma IndexIsPosition(verb: Method)
    ensures METHODS[Index(verb)] == verb
  {
  }

  lemma PositionIsIndex(k: nat)
    requires k < 6
    ensures Index(METHODS[k]) == k
  {
  }

  lemma AllowHeaderEnds(t: Table, path: string)
    ensures AllowHeader(t, path, 0) == "" && AllowHeader(t, path, 6) == Join(Allowed(t, path))
  {
    assert METHODS[..6] == METHODS;
  }

  lemma AllowedStep(t: Table, path: string, k: nat)
    requires k < 6
    ensures AllowedFrom(t, path, METHODS[..k + 1])
            == AllowedFrom(t, path, METHODS[..k]) + if Lookup(t[k], path).Some? then [Name(METHODS[k])] else []
  {
    assert METHODS[..k + 1] == METHODS[..k] + [METHODS[k]];
    PositionIsIndex(k);
    AllowedSnoc(t, path, METHODS[..k], METHODS[k]);
  }

  lemma AllowHeaderStep(t: Table, path: string, k: nat)
    requires k < 6
    ensures AllowHeader(t, path, k + 1)
            == if Lookup(t[k], path).Some?
               then Appended(AllowHeader(t, path, k), Name(METHODS[k]))
               else AllowHeader(t, path, k)
  {
    var names := AllowedFrom(t, path, METHODS[..k]);
    AllowedStep(t, path, k);
    AllowedNames(t, path, METHODS[..k], METHODS[k]);
    forall i | 0 <= i < |names| ensures names[i] != "" {
      assert names[i] in names;
    }
    JoinSnoc(names, Name(METHODS[k]));
    assert names + [] == names;
  }

  lemma IsAllowedAt(t: Table, path: string, k: nat)
    requires k < 6 && forall verb :: Registered(t, verb, path).Some?
    ensures Lookup(t[k], path).Some?
  {
    PositionIsIndex(k);
    assert Registered(t, METHODS[k], path).Some?;
  }

  /** The names of a path that has all methods, in their order. */
  lemma AllMethodsAreAllowed(t: Table, path: string)
    requires forall verb :: Registered(t, verb, path).Some?
    ensures Allowed(t, path) == ["GET", "POST", "PUT", "PATCH", "DELETE", "OPTIONS"]
  {
    assert METHODS[..0] == [] && METHODS[..6] == METHODS;
    var names := ["GET", "POST", "PUT", "PATCH", "DELETE", "OPTIONS"];
    assert names[..6] == names;
    for k := 0 to 6
      invariant k <= 6 && AllowedFrom(t, path, METHODS[..k]) == names[..k]
    {
      IsAllowedAt(t, path, k);
      AllowedStep(t, path, k);
      NameAt(k);
      hide AllowedFrom, Name;
      assert names[..k + 1] == names[..k] + [names[k]];
    }
  }

  lemma NameAt(k: nat)
    requires k < 6
    ensures Name(METHODS[k]) == ["GET", "POST", "PUT", "PATCH", "DELETE", "OPTIONS"][k]
  {
  }

  // ---- the registry as JSON ----

  function Listed(body: map<string, seq<string>>, path: string): seq<string> {
    if path in body then body[path] else []
  }

  // body lists, for every path, those of the first k methods that are registered for it
  ghost predicate ListsFirst(body: map<string, seq<string>>, t: Table, k: nat)
    requires k <= 6
  {
    forall path ::
      && Listed(body, path) == AllowedFrom(t, path, METHODS[..k])
      && (path in body ==> body[path] != [])
  }

  lemma ListsNothing(t: Table)
    ensures ListsFirst(map[], t, 0)
  {
  }

  // body after the first i endpoints of m were looked at
  function AppendFirst(body: map<string, seq<string>>, m: FuncMap, i: nat, name: string): map<string, seq<string>>
    requires i <= |m|
  {
    if i == 0 then body
    else
      var before := AppendFirst(body, m, i - 1, name);
      before[m[i - 1].path := Listed(before, m[i - 1].path) + [name]]
  }

  lemma NoKeyInNothing(m: FuncMap, path: string)
    ensures !ContainsKey(m[..0], path)
  {
  }

  lemma ContainsKeyStep(m: FuncMap, i: nat, path: string)
    requires Descending(m) && 0 < i <= |m|
    ensures ContainsKey(m[..i], path) <==> ContainsKey(m[..i - 1], path) || m[i - 1].path == path
    ensures m[i - 1].path == path ==> !ContainsKey(m[..i - 1], path)
  {
    LessIsIrreflexive(path);
    assert m[..i] == m[..i - 1] + [m[i - 1]];
    if m[i - 1].path == path {
      assert m[..i][i - 1].path == path;
    }
    if ContainsKey(m[..i - 1], path) {
      var j :| 0 <= j < i - 1 && m[..i - 1][j].path == path;
      assert m[..i][j].path == path;
    }
  }

  lemma {:induction false} AppendFirstLists(body: map<string, seq<string>>, m: FuncMap, i: nat, name: string, path: string)
    requires Descending(m) && i <= |m|
    ensures Listed(AppendFirst(body, m, i, name), path)
            == Listed(body, path) + if ContainsKey(m[..i], path) then [name] else []
    ensures path in AppendFirst(body, m, i, name) && path !in body ==> AppendFirst(body, m, i, name)[path] != []
    ensures path in body ==> path in AppendFirst(body, m, i, name)
  {
    hide Descending, ContainsKey;
    if i == 0 {
      NoKeyInNothing(m, path);
    } else {
      AppendFirstLists(body, m, i - 1, name, path);
      ContainsKeyStep(m, i, path);
    }
  }

  lemma PathListsOneMore(t: Table, body: map<string, seq<string>>, verb: Method, path: string)
    requires Ordered(t)
    requires Listed(body, path) == AllowedFrom(t, path, METHODS[..Index(verb)])
    requires path in body ==> body[path] != []
    ensures var m := t[Index(verb)];
            var longer := AppendFirst(body, m, |m|, Name(verb));
            && Listed(longer, path) == AllowedFrom(t, path, METHODS[..Index(verb) + 1])
            && (path in longer ==> longer[path] != [])
  {
    IndexIsPosition(verb);
    var m := t[Index(verb)];
    assert m[..|m|] == m;
    hide AllowedFrom, AppendFirst;
    AllowedStep(t, path, Index(verb));
    LookupFinds(m, path);
    AppendFirstLists(body, m, |m|, Name(verb), path);
  }

  lemma ListsOneMore(t: Table, body: map<string, seq<string>>, verb: Method)
    requires Ordered(t) && ListsFirst(body, t, Index(verb))
    ensures var m := t[Index(verb)];
            ListsFirst(AppendFirst(body, m, |m|, Name(verb)), t, Index(verb) + 1)
  {
    var m := t[Index(verb)];
    var longer := AppendFirst(body, m, |m|, Name(verb));
    hide AllowedFrom, AppendFirst, Listed, Name;
    forall path
      ensures Listed(longer, path) == AllowedFrom(t, path, METHODS[..Index(verb) + 1])
      ensures path in longer ==> longer[path] != []
    {
      PathListsOneMore(t, body, verb, path);
    }
  }

  function Names(names: seq<string>): Json {
    Arr(seq(|names|, i requires 0 <= i < |names| => Str(names[i])))
  }

  function ToJson(body: map<string, seq<string>>): Json {
    if body == map[] then Null else Obj(map path | path in body :: Names(body[path]))
  }

  function Paths(t: Table): set<string> {
    set k, i | 0 <= k < 6 && 0 <= i < |t[k]| :: t[k][i].path
  }

  /** What the registry lists: every endpoint with the very methods its Allow header names. */
  function RegistryJson(t: Table): Json {
    if Paths(t) == {} then Null else Obj(map path | path in Paths(t) :: Names(Allowed(t, path)))
  }

  lemma PathsAreAllowed(t: Table, path: string)
    ensures path in Paths(t) <==> Allowed(t, path) != []
  {
    if path in Paths(t) {
      var k, i :| 0 <= k < 6 && 0 <= i < |t[k]| && t[k][i].path == path;
      PositionIsIndex(k);
      LookupFinds(t[k], path);
      AllowedNames(t, path, METHODS, METHODS[k]);
    }
    if Allowed(t, path) != [] {
      var verb := SomeAllowed(t, path, METHODS);
      IndexIsPosition(verb);
      LookupFinds(t[Index(verb)], path);
      var i :| 0 <= i < |t[Index(verb)]| && t[Index(verb)][i].path == path;
    }
  }

  lemma {:induction false} SomeAllowed(t: Table, path: string, verbs: seq<Method>) returns (verb: Method)
    requires AllowedFrom(t, path, verbs) != []
    ensures Registered(t, verb, path).Some?
  {
    if Registered(t, verbs[0], path).Some? {
      verb := verbs[0];
    } else {
      verb := SomeAllowed(t, path, verbs[1..]);
    }
  }

  predicate ListsNames(json: Json, names: seq<string>) {
    json.Arr? && |json.items| == |names| && forall i :: 0 <= i < |names| ==> json.items[i] == Str(names[i])
  }

  /** Every endpoint with the very methods its Allow header names, null when there is none. */
  ghost predicate ListsAllowed(json: Json, t: Table) {
    && (json.Obj? || (json.Null? && forall path :: Allowed(t, path) == []))
    && (forall path :: json.Has(path) <==> Allowed(t, path) != [])
    && (forall path :: json.Has(path) ==> ListsNames(json.Get(path), Allowed(t, path)))
  }

  lemma ListsAll(body: map<string, seq<string>>, t: Table)
    requires ListsFirst(body, t, 6)
    ensures ListsAllowed(ToJson(body), t)
  {
    assert METHODS[..6] == METHODS;
    hide AllowedFrom;
    forall path
      ensures path in body <==> Allowed(t, path) != []
      ensures path in body ==> body[path] == Allowed(t, path)
    {
      assert Listed(body, path) == AllowedFrom(t, path, METHODS[..6]);
    }
    if body == map[] {
      forall path ensures Allowed(t, path) == [] {
        assert path !in body;
      }
    }
  }

  lemma ListsTheRegistry(body: map<string, seq<string>>, t: Table)
    requires ListsFirst(body, t, 6)
    ensures ToJson(body) == RegistryJson(t)
  {
    assert METHODS[..6] == METHODS;
    hide AllowedFrom, Paths, Names;
    forall path
      ensures path in body <==> path in Paths(t)
      ensures path in body ==> body[path] == Allowed(t, path)
    {
      PathsAreAllowed(t, path);
      assert Listed(body, path) == AllowedFrom(t, path, METHODS[..6]);
    }
    assert body.Keys == Paths(t);
    if body == map[] {
      assert Paths(t) == {};
    } else {
      assert (map path | path in body :: Names(body[path])) == (map path | path in Paths(t) :: Names(Allowed(t, path)));
    }
  }

  class Registry {
    const methods: array<FuncMap>

    constructor ()
      ensures fresh(methods) && Valid() && View() == ApplyAll([])
    {
      methods := new FuncMap[6](_ => []);
    }

    ghost predicate Valid()
      reads this, methods
    {
      methods.Length == 6 && Ordered(methods[..])
    }

    function View(): Table
      requires methods.Length == 6
      reads this, methods
    {
      methods[..]
    }

    /** A method and path that are taken already are refused. */
    method AddEndpoint(verb: Method, path: string, func: Func) returns (added: bool)
      requires Valid()
      modifies methods
      ensures Valid()
      ensures added <==> Registered(old(View()), verb, path).None?
      ensures View() == Apply(old(View()), Add(verb, path, func))
    {
      StepIsOrdered(View(), Add(verb, path, func), verb, path);
      if Lookup(methods[Index(verb)], path).Some? {
        return false;
      }
      methods[Index(verb)] := Insert(methods[Index(verb)], Endpoint(path, func));
      return true;
    }

    method RemoveEndpoint(path: string) returns (found: bool)
      requires Valid()
      modifies methods
      ensures Valid()
      ensures found <==> exists verb :: Registered(old(View()), verb, path).Some?
      ensures View() == Apply(old(View()), Remove(path))
    {
      StepIsOrdered(View(), Remove(path), GET, path);
      found := false;
      for k := 0 to methods.Length
        invariant found <==> exists j :: 0 <= j < k && Lookup(old(methods[..])[j], path).Some?
        invariant forall j :: 0 <= j < k ==> methods[j] == Erase(old(methods[..])[j], path)
        invariant forall j :: k <= j < methods.Length ==> methods[j] == old(methods[..])[j]
      {
        if Lookup(methods[k], path).Some? {
          found := true;
        }
        methods[k] := Erase(methods[k], path);
      }
      if found {
        ghost var j :| 0 <= j < 6 && Lookup(old(methods[..])[j], path).Some?;
        PositionIsIndex(j);
        assert Registered(old(View()), METHODS[j], path).Some?;
      }
      assert View() == Apply(old(View()), Remove(path));
    }

    /** _find: std::find_if over the ordered map. */
    method Find(verb: Method, path: string) returns (found: Option<string>)
      requires Valid()
      ensures found == FirstMatch(View()[Index(verb)], path)
      ensures IsLongestMatch(View()[Index(verb)], path, found)
    {
      var m := methods[Index(verb)];
      FirstMatchIsLongest(m, path);
      for i := 0 to |m|
        invariant FirstMatch(m, path) == FirstMatch(m[i..], path)
      {
        if Matches(m[i].path, path) {
          return Some(m[i].path);
        }
        assert m[i..][1..] == m[i + 1..];
      }
      return None;
    }

    // one of the six lines of getAllowedMethods
    method AppendIfContained(allow: string, verb: Method, path: string) returns (longer: string)
      requires Valid() && allow == AllowHeader(View(), path, Index(verb))
      ensures longer == AllowHeader(View(), path, Index(verb) + 1)
    {
      AllowHeaderStep(View(), path, Index(verb));
      IndexIsPosition(verb);
      longer := allow;
      if Lookup(methods[Index(verb)], path).Some? {
        longer := longer + if longer == "" then Name(verb) else ", " + Name(verb);
      }
    }

    method GetAllowedMethods(path: string) returns (allow: string)
      requires Valid()
      ensures allow == Join(Allowed(View(), path))
    {
      AllowHeaderEnds(View(), path);
      hide AllowHeader, Allowed, Join;
      allow := AppendIfContained("", GET, path);
      allow := AppendIfContained(allow, POST, path);
      allow := AppendIfContained(allow, PUT, path);
      allow := AppendIfContained(allow, PATCH, path);
      allow := AppendIfContained(allow, DELETE, path);
      allow := AppendIfContained(allow, OPTIONS, path);
    }

    // one of the six loops of toJson
    method AppendMethod(body: map<string, seq<string>>, verb: Method) returns (longer: map<string, seq<string>>)
      requires Valid() && ListsFirst(body, View(), Index(verb))
      ensures ListsFirst(longer, View(), Index(verb) + 1)
    {
      var m := methods[Index(verb)];
      longer := body;
      for i := 0 to |m|
        invariant longer == AppendFirst(body, m, i, Name(verb))
      {
        var path := m[i].path;
        longer := longer[path := (if path in longer then longer[path] else []) + [Name(verb)]];
      }
      ListsOneMore(View(), body, verb);
    }

    method ToJsonBody() returns (json: Json)
      requires Valid()
      ensures json == RegistryJson(View()) && ListsAllowed(json, View())
    {
      var body: map<string, seq<string>> := map[];
      ListsNothing(View());
      for k := 0 to 6
        invariant ListsFirst(body, View(), k)
      {
        PositionIsIndex(k);
        body := AppendMethod(body, METHODS[k]);
      }
      ListsAll(body, View());
      ListsTheRegistry(body, View());
      json := ToJson(body);
    }
  }
}
