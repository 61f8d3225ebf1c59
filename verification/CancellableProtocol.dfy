/** The race on the table of pending requests of a cancellable JSON-RPC receiver, as a state machine.
    Every critical section is split where another thread can look in between: taking the mutex and
    the work done under it are separate steps, and so is answering after the mutex was released. */
module CancellableProtocol {
  import opened Wrappers
  import opened JsonModel

  // one call of process() on a cancellable method; its JSON-RPC id is looked up in State.ids
  type Request = nat

  datatype CancelFn = CallDone | Application(owner: Request)

  // respond is None when operator[] had to create the entry: an empty std::function
  datatype Entry = Entry(cancel: CancelFn, respond: Option<Request>)

  datatype Stage = Arrived | Registering | Running | Installing | Returned

  datatype Holder =
    | ByRegister(r: Request)
    | ByReply(r: Request)
    | ByInstall(r: Request)
    | ByCancel(id: Json)
    | ByCancelled(id: Json)   // the cancel function was called, the entry is not erased yet

  datatype Answer = Result | Aborted

  datatype Reply = Reply(request: Request, answer: Answer)

  /** The receiver's own bookkeeping: who is where in process(), and what the mutex guards. */
  datatype Table = Table(
    ids: map<Request, Json>,
    stage: map<Request, Stage>,
    mutex: Option<Holder>,
    pending: map<Json, Entry>,
    retired: set<Request>)              // their actions let go of the response callback
  {
    predicate At(r: Request, where: Stage) {
      r in ids && r in stage && stage[r] == where
    }

    // the action was called, so its response callback is in the application's hands
    predicate Started(r: Request) {
      At(r, Running) || At(r, Installing) || At(r, Returned)
    }
  }

  datatype State = State(
    table: Table,
    claimed: multiset<Request>,         // skipResponse() returned false, respond() not called yet
    dones: multiset<Option<Request>>,   // done closures in the hands of the application
    sent: seq<Reply>,
    emptyCalls: nat)                    // calls of an empty respond function

  datatype Action =
    | Arrive(r: Request, id: Json)
    | RegisterLock(r: Request)
    | RegisterWrite(r: Request)
    | TryReply(r: Request)
    | ReplyErase(r: Request)
    | Send(r: Request)
    | ReturnPlain(r: Request)
    | InstallLock(r: Request)
    | InstallWrite(r: Request)
    | CancelLock(id: Json)
    | CancelCall(id: Json)
    | CancelErase(id: Json)
    | Done(respond: Option<Request>)
    | Retire(r: Request)

  const INIT := State(Table(map[], map[], None, map[], {}), multiset{}, multiset{}, [], 0)

  predicate Enabled(s: State, a: Action) {
    var t := s.table;
    match a
    case Arrive(r, id) => r !in t.ids
    case RegisterLock(r) => t.At(r, Arrived) && t.mutex == None
    case RegisterWrite(r) => t.At(r, Registering) && t.mutex == Some(ByRegister(r))
    case TryReply(r) => t.Started(r) && r !in t.retired
    case ReplyErase(r) => t.Started(r) && t.mutex == Some(ByReply(r))
    case Send(r) => r in s.claimed
    case ReturnPlain(r) => t.At(r, Running)
    case InstallLock(r) => t.At(r, Running) && t.mutex == None
    case InstallWrite(r) => t.At(r, Installing) && t.mutex == Some(ByInstall(r))
    case CancelLock(id) => t.mutex == None
    case CancelCall(id) => t.mutex == Some(ByCancel(id))
    case CancelErase(id) => t.mutex == Some(ByCancelled(id))
    case Done(respond) => respond in s.dones
    case Retire(r) => t.Started(r) && t.mutex != Some(ByReply(r))
  }

  // respond() is called: an answer for the request behind it, or a call of an empty function
  function Answered(s: State, respond: Option<Request>, answer: Answer): (r: State)
    ensures r.table == s.table && r.claimed == s.claimed && r.dones == s.dones
  {
    match respond
    case Some(r) => s.(sent := s.sent + [Reply(r, answer)])
    case None => s.(emptyCalls := s.emptyCalls + 1)
  }

  function Apply(s: State, a: Action): State
    requires Enabled(s, a)
  {
    var t := s.table;
    match a
    case Arrive(r, id) =>
      s.(table := t.(ids := t.ids[r := id], stage := t.stage[r := Arrived]))
    case RegisterLock(r) =>
      s.(table := t.(mutex := Some(ByRegister(r)), stage := t.stage[r := Registering]))
    case RegisterWrite(r) =>
      s.(table := t.(pending := t.pending[t.ids[r] := Entry(CallDone, Some(r))],
                     mutex := None, stage := t.stage[r := Running]))
    case TryReply(r) =>
      if t.mutex == None then s.(table := t.(mutex := Some(ByReply(r)))) else s
    case ReplyErase(r) =>
      if t.ids[r] in t.pending
      then s.(table := t.(pending := t.pending - {t.ids[r]}, mutex := None),
              claimed := s.claimed + multiset{r})
      else s.(table := t.(mutex := None))
    case Send(r) =>
      Answered(s.(claimed := s.claimed - multiset{r}), Some(r), Result)
    case ReturnPlain(r) =>
      s.(table := t.(stage := t.stage[r := Returned]))
    case InstallLock(r) =>
      s.(table := t.(mutex := Some(ByInstall(r)), stage := t.stage[r := Installing]))
    case InstallWrite(r) =>
      var respond := if t.ids[r] in t.pending then t.pending[t.ids[r]].respond else None;
      s.(table := t.(pending := t.pending[t.ids[r] := Entry(Application(r), respond)],
                     mutex := None, stage := t.stage[r := Returned]))
    case CancelLock(id) =>
      s.(table := t.(mutex := Some(ByCancel(id))))
    case CancelCall(id) =>
      if id !in t.pending then s.(table := t.(mutex := None))
      else
        var entry := t.pending[id];
        var called := s.(table := t.(mutex := Some(ByCancelled(id))));
        if entry.cancel == CallDone then Answered(called, entry.respond, Aborted)
        else called.(dones := called.dones + multiset{entry.respond})
    case CancelErase(id) =>
      s.(table := t.(pending := t.pending - {id}, mutex := None))
    case Done(respond) =>
      Answered(s.(dones := s.dones - multiset{respond}), respond, Aborted)
    case Retire(r) =>
      s.(table := t.(retired := t.retired + {r}))
  }

  /** A request that may still reply, or whose entry is in the table and not about to be cancelled.
      An action that replies once and lets go of the callback has its request alive no longer than
      that; one that keeps the callback has it alive for ever. */
  predicate Live(t: Table, r: Request) {
    r in t.ids && (r !in t.retired || (Holds(t, r) && t.mutex != Some(ByCancel(t.ids[r]))))
  }

  /** What the code needs of its surroundings: a new request does not have the id of a live one, and
      a cancel function is installed while there is an entry under its id. */
  ghost predicate Disciplined(t: Table, a: Action) {
    match a
    case Arrive(r, id) => forall q :: Live(t, q) ==> t.ids[q] != id
    case InstallWrite(r) => r in t.ids && t.ids[r] in t.pending
    case _ => true
  }

  predicate Feasible(s: State, actions: seq<Action>)
    decreases actions
  {
    actions == [] || (Enabled(s, actions[0]) && Feasible(Apply(s, actions[0]), actions[1..]))
  }

  function Run(s: State, actions: seq<Action>): State
    requires Feasible(s, actions)
    decreases actions
  {
    if actions == [] then s else Run(Apply(s, actions[0]), actions[1..])
  }

  ghost predicate Lawful(s: State, actions: seq<Action>)
    decreases actions
  {
    actions == [] ||
    (&& Enabled(s, actions[0])
     && Disciplined(s.table, actions[0])
     && Lawful(Apply(s, actions[0]), actions[1..]))
  }

  lemma LawfulIsFeasible(s: State, actions: seq<Action>)
    requires Lawful(s, actions)
    ensures Feasible(s, actions)
    decreases actions
  {
  }

  // ---- the right to reply ----

  function Count(sent: seq<Reply>, r: Request): nat {
    if sent == [] then 0
    else Count(sent[..|sent| - 1], r) + if sent[|sent| - 1].request == r then 1 else 0
  }

  // the table holds r's right, unless a cancel has just taken it out through the cancel function
  predicate Holds(t: Table, r: Request) {
    && r in t.ids
    && t.ids[r] in t.pending
    && t.pending[t.ids[r]].respond == Some(r)
    && t.mutex != Some(ByCancelled(t.ids[r]))
  }

  predicate NotRegistered(t: Table, r: Request) {
    t.At(r, Arrived) || t.At(r, Registering)
  }

  /** Everything that still can, or did, answer request r. */
  function Rights(s: State, r: Request): nat {
    (if NotRegistered(s.table, r) then 1 else 0) +
    (if Holds(s.table, r) then 1 else 0) +
    s.claimed[r] + s.dones[Some(r)] + Count(s.sent, r)
  }

  ghost predicate DistinctIds(t: Table) {
    forall r1, r2 :: Live(t, r1) && Live(t, r2) && t.ids[r1] == t.ids[r2] ==> r1 == r2
  }

  ghost predicate MutexSound(t: Table) {
    && (forall r :: r in t.ids ==> r in t.stage)
    && (forall r :: t.At(r, Registering) <==> t.mutex == Some(ByRegister(r)))
    && (forall r :: t.At(r, Installing) <==> t.mutex == Some(ByInstall(r)))
    && (t.mutex.Some? && t.mutex.value.ByReply? ==> t.Started(t.mutex.value.r) && t.mutex.value.r !in t.retired)
    && (forall r :: r in t.retired ==> t.Started(r))
    && (t.mutex.Some? && t.mutex.value.ByCancelled? ==> t.mutex.value.id in t.pending)
  }

  ghost predicate EntriesSound(t: Table) {
    forall id :: id in t.pending ==>
      && t.pending[id].respond.Some?
      && t.Started(t.pending[id].respond.value)
      && t.ids[t.pending[id].respond.value] == id
  }

  ghost predicate TableSound(t: Table) {
    MutexSound(t) && EntriesSound(t)
  }

  ghost predicate TableInv(t: Table) {
    DistinctIds(t) && TableSound(t)
  }

  ghost predicate Conserved(s: State) {
    && s.emptyCalls == 0
    && s.dones[None] == 0
    && (forall r :: r in s.table.ids ==> Rights(s, r) == 1)
    && (forall r :: r !in s.table.ids ==> Rights(s, r) == 0)
  }

  ghost predicate Inv(s: State) {
    TableInv(s.table) && Conserved(s)
  }

  lemma CountAppend(sent: seq<Reply>, reply: Reply, r: Request)
    ensures Count(sent + [reply], r) == Count(sent, r) + if reply.request == r then 1 else 0
  {
    assert (sent + [reply])[..|sent|] == sent;
  }

  lemma AnsweredCounts(s: State, respond: Option<Request>, answer: Answer, r: Request)
    ensures Count(Answered(s, respond, answer).sent, r)
            == Count(s.sent, r) + if respond == Some(r) then 1 else 0
  {
    if respond.Some? {
      CountAppend(s.sent, Reply(respond.value, answer), r);
    }
  }

  // a step leaves every right where it is or moves it; only an arrival creates one
  predicate Moved(s: State, a: Action, r: Request)
    requires Enabled(s, a)
  {
    Rights(Apply(s, a), r) == Rights(s, r) + if a.Arrive? && a.r == r then 1 else 0
  }

  lemma ArrivalKeepsTable(s: State, a: Action)
    requires TableSound(s.table) && Enabled(s, a) && Disciplined(s.table, a)
    requires a.Arrive?
    ensures TableSound(Apply(s, a).table)
  {
  }

  lemma RegistrationKeepsTable(s: State, a: Action)
    requires TableSound(s.table) && Enabled(s, a) && Disciplined(s.table, a)
    requires a.RegisterLock? || a.RegisterWrite?
    ensures TableSound(Apply(s, a).table)
  {
  }

  lemma ReplyKeepsTable(s: State, a: Action)
    requires TableSound(s.table) && Enabled(s, a) && Disciplined(s.table, a)
    requires a.TryReply? || a.ReplyErase?
    ensures TableSound(Apply(s, a).table)
  {
  }

  lemma AnsweringKeepsTable(s: State, a: Action)
    requires Enabled(s, a) && (a.Send? || a.Done?)
    ensures Apply(s, a).table == s.table
  {
  }

  lemma ReturnKeepsTable(s: State, a: Action)
    requires TableSound(s.table) && Enabled(s, a) && (a.ReturnPlain? || a.InstallLock?)
    ensures TableSound(Apply(s, a).table)
  {
  }

  lemma InstallationKeepsTable(s: State, a: Action)
    requires TableSound(s.table) && Enabled(s, a) && Disciplined(s.table, a)
    requires a.InstallWrite?
    ensures TableSound(Apply(s, a).table)
  {
  }

  lemma CancelLockKeepsTable(s: State, a: Action)
    requires TableSound(s.table) && Enabled(s, a) && a.CancelLock?
    ensures TableSound(Apply(s, a).table)
  {
  }

  lemma CancelCallKeepsTable(s: State, a: Action)
    requires TableSound(s.table) && Enabled(s, a) && a.CancelCall?
    ensures TableSound(Apply(s, a).table)
  {
  }

  lemma CancelEraseKeepsTable(s: State, a: Action)
    requires TableSound(s.table) && Enabled(s, a) && a.CancelErase?
    ensures TableSound(Apply(s, a).table)
  {
  }

  lemma RetirementKeepsTable(s: State, a: Action)
    requires TableSound(s.table) && Enabled(s, a) && a.Retire?
    ensures TableSound(Apply(s, a).table)
  {
  }

  lemma ReplyingKeepsLive(s: State, a: Action, r: Request)
    requires TableSound(s.table) && Enabled(s, a) && (a.TryReply? || a.ReplyErase? || a.Retire? || a.Send? || a.Done?)
    ensures Live(Apply(s, a).table, r) ==> Live(s.table, r)
  {
  }

  lemma RegisteringKeepsLive(s: State, a: Action, r: Request)
    requires TableSound(s.table) && Enabled(s, a) && Disciplined(s.table, a)
    requires a.RegisterLock? || a.RegisterWrite? || a.ReturnPlain? || a.InstallLock? || a.InstallWrite?
    ensures Live(Apply(s, a).table, r) ==> Live(s.table, r)
  {
  }

  lemma CancellingKeepsLive(s: State, a: Action, r: Request)
    requires TableSound(s.table) && Enabled(s, a) && (a.CancelLock? || a.CancelCall? || a.CancelErase?)
    ensures Live(Apply(s, a).table, r) ==> Live(s.table, r)
  {
  }

  // no step but an arrival brings a request to life
  lemma StepKeepsLive(s: State, a: Action, r: Request)
    requires TableSound(s.table) && Enabled(s, a) && Disciplined(s.table, a)
    ensures Live(Apply(s, a).table, r) ==> Live(s.table, r) || (a.Arrive? && a.r == r)
  {
    hide Apply, TableSound, Live;
    match a
    case Arrive(_, _) => ArrivingKeepsLive(s, a, r);
    case RegisterLock(_) | RegisterWrite(_) | ReturnPlain(_) | InstallLock(_) | InstallWrite(_) =>
      RegisteringKeepsLive(s, a, r);
    case CancelLock(_) | CancelCall(_) | CancelErase(_) => CancellingKeepsLive(s, a, r);
    case TryReply(_) | ReplyErase(_) | Retire(_) | Send(_) | Done(_) => ReplyingKeepsLive(s, a, r);
  }

  lemma ArrivingKeepsLive(s: State, a: Action, r: Request)
    requires TableSound(s.table) && Enabled(s, a) && a.Arrive?
    ensures r != a.r && Live(Apply(s, a).table, r) ==> Live(s.table, r)
  {
  }

  lemma StepKeepsDistinct(s: State, a: Action)
    requires TableInv(s.table) && Enabled(s, a) && Disciplined(s.table, a)
    ensures DistinctIds(Apply(s, a).table)
  {
    hide Apply, TableSound, Live;
    StepKeepsIds(s, a);
    forall r ensures Live(Apply(s, a).table, r) ==> Live(s.table, r) || (a.Arrive? && a.r == r) {
      StepKeepsLive(s, a, r);
    }
    forall r | Live(s.table, r) ensures r in s.table.ids {
      LiveHasId(s.table, r);
    }
    forall r | Live(Apply(s, a).table, r) ensures r in Apply(s, a).table.ids {
      LiveHasId(Apply(s, a).table, r);
    }
  }

  lemma LiveHasId(t: Table, r: Request)
    requires Live(t, r)
    ensures r in t.ids
  {
  }

  lemma RegistrationMovesRights(s: State, a: Action, r: Request)
    requires TableInv(s.table) && Enabled(s, a) && Disciplined(s.table, a)
    requires a.Arrive? || a.RegisterLock? || a.RegisterWrite?
    ensures Moved(s, a, r)
  {
  }

  lemma ReplyMovesRights(s: State, a: Action, r: Request)
    requires TableInv(s.table) && Enabled(s, a)
    requires a.TryReply? || a.ReplyErase?
    ensures Moved(s, a, r)
  {
    assert a.ReplyErase? ==> Live(s.table, a.r);
  }

  lemma InstallationMovesRights(s: State, a: Action, r: Request)
    requires TableInv(s.table) && Enabled(s, a) && Disciplined(s.table, a)
    requires a.ReturnPlain? || a.InstallLock? || a.InstallWrite?
    ensures Moved(s, a, r)
  {
  }

  lemma CancelCallMovesRights(s: State, a: Action, r: Request)
    requires TableSound(s.table) && Enabled(s, a) && a.CancelCall?
    ensures Moved(s, a, r)
  {
    if a.id in s.table.pending && s.table.pending[a.id].cancel == CallDone {
      var called := s.(table := s.table.(mutex := Some(ByCancelled(a.id))));
      AnsweredCounts(called, s.table.pending[a.id].respond, Aborted, r);
    }
  }

  lemma CancellationMovesRights(s: State, a: Action, r: Request)
    requires TableSound(s.table) && Enabled(s, a)
    requires a.CancelLock? || a.CancelCall? || a.CancelErase?
    ensures Moved(s, a, r)
  {
    if a.CancelCall? {
      hide Apply, TableSound, Rights;
      CancelCallMovesRights(s, a, r);
    }
  }

  /** Where a reply takes the right from: a reply that erases an entry erases its own, and has the
      answer under way then; one that finds no entry leaves everything as it is. */
  lemma ReplyTakesRight(s: State, r: Request)
    requires TableInv(s.table) && Enabled(s, ReplyErase(r))
    ensures var s' := Apply(s, ReplyErase(r));
            && s'.sent == s.sent && s'.dones == s.dones && !Holds(s'.table, r)
            && (if s.table.ids[r] in s.table.pending
                then Holds(s.table, r) && s'.claimed == s.claimed + multiset{r}
                else s'.claimed == s.claimed && s'.table.pending == s.table.pending)
  {
    assert Live(s.table, r);
  }

  /** Where a cancel takes the right to: the temporary entry answers at once, an installed function is
      given a done closure with the right. */
  lemma CancelTakesRight(s: State, id: Json)
    requires TableSound(s.table) && Enabled(s, CancelCall(id)) && id in s.table.pending
    ensures var s', q := Apply(s, CancelCall(id)), s.table.pending[id].respond.value;
            && Holds(s.table, q) && !Holds(s'.table, q) && s'.claimed == s.claimed
            && (if s.table.pending[id].cancel == CallDone
                then s'.sent == s.sent + [Reply(q, Aborted)] && s'.dones == s.dones
                else s'.sent == s.sent && s'.dones == s.dones + multiset{Some(q)})
  {
  }

  lemma SendMovesRights(s: State, a: Action, r: Request)
    requires Enabled(s, a) && a.Send?
    ensures Moved(s, a, r)
  {
    hide Holds, NotRegistered;
    AnsweredCounts(s.(claimed := s.claimed - multiset{a.r}), Some(a.r), Result, r);
  }

  lemma DoneMovesRights(s: State, a: Action, r: Request)
    requires Enabled(s, a) && a.Done?
    ensures Moved(s, a, r)
  {
    hide Holds, NotRegistered;
    var left := s.dones - multiset{a.respond};
    assert left[Some(r)] == s.dones[Some(r)] - if a.respond == Some(r) then 1 else 0;
    AnsweredCounts(s.(dones := left), a.respond, Aborted, r);
  }

  lemma RetirementMovesRights(s: State, a: Action, r: Request)
    requires Enabled(s, a) && a.Retire?
    ensures Moved(s, a, r)
  {
  }

  lemma StepCallsNoEmptyFunction(s: State, a: Action)
    requires EntriesSound(s.table) && Enabled(s, a) && Disciplined(s.table, a)
    requires s.emptyCalls == 0 && s.dones[None] == 0
    ensures Apply(s, a).emptyCalls == 0 && Apply(s, a).dones[None] == 0
  {
  }

  lemma StepKeepsIds(s: State, a: Action)
    requires Enabled(s, a)
    ensures Apply(s, a).table.ids == if a.Arrive? then s.table.ids[a.r := a.id] else s.table.ids
  {
    hide Answered;
  }

  lemma StepKeepsTable(s: State, a: Action)
    requires TableInv(s.table) && Enabled(s, a) && Disciplined(s.table, a)
    ensures TableInv(Apply(s, a).table)
  {
    StepKeepsDistinct(s, a);
    hide Apply, TableSound, DistinctIds;
    match a
    case Arrive(_, _) => ArrivalKeepsTable(s, a);
    case RegisterLock(_) | RegisterWrite(_) => RegistrationKeepsTable(s, a);
    case TryReply(_) | ReplyErase(_) => ReplyKeepsTable(s, a);
    case ReturnPlain(_) | InstallLock(_) => ReturnKeepsTable(s, a);
    case InstallWrite(_) => InstallationKeepsTable(s, a);
    case CancelLock(_) => CancelLockKeepsTable(s, a);
    case CancelCall(_) => CancelCallKeepsTable(s, a);
    case CancelErase(_) => CancelEraseKeepsTable(s, a);
    case Send(_) | Done(_) => AnsweringKeepsTable(s, a);
    case Retire(_) => RetirementKeepsTable(s, a);
  }

  lemma StepMovesRights(s: State, a: Action, r: Request)
    requires TableInv(s.table) && Enabled(s, a) && Disciplined(s.table, a)
    ensures Moved(s, a, r)
  {
    hide Apply, TableSound, DistinctIds, Rights;
    match a
    case Arrive(_, _) | RegisterLock(_) | RegisterWrite(_) => RegistrationMovesRights(s, a, r);
    case TryReply(_) | ReplyErase(_) => ReplyMovesRights(s, a, r);
    case ReturnPlain(_) | InstallLock(_) | InstallWrite(_) => InstallationMovesRights(s, a, r);
    case CancelLock(_) | CancelCall(_) | CancelErase(_) => CancellationMovesRights(s, a, r);
    case Send(_) => SendMovesRights(s, a, r);
    case Done(_) => DoneMovesRights(s, a, r);
    case Retire(_) => RetirementMovesRights(s, a, r);
  }

  lemma StepKeepsInv(s: State, a: Action)
    requires Inv(s) && Enabled(s, a) && Disciplined(s.table, a)
    ensures Inv(Apply(s, a))
  {
    hide Apply, Rights, EntriesSound, MutexSound, DistinctIds;
    StepKeepsTable(s, a);
    StepKeepsIds(s, a);
    StepCallsNoEmptyFunction(s, a);
    forall r: Request
      ensures Rights(Apply(s, a), r) == Rights(s, r) + if a.Arrive? && a.r == r then 1 else 0
    {
      StepMovesRights(s, a, r);
    }
  }

  // ---- whole runs ----

  lemma {:induction false} RunKeepsInv(s: State, actions: seq<Action>)
    requires Inv(s) && Lawful(s, actions)
    ensures Feasible(s, actions) && Inv(Run(s, actions))
    decreases actions
  {
    if actions == [] {
    } else {
      StepKeepsInv(s, actions[0]);
      RunKeepsInv(Apply(s, actions[0]), actions[1..]);
    }
  }

  /** In every interleaving the right to answer a request exists exactly once: in the table, with
      an answer under way, in a done closure, or spent on an answer already sent. */
  lemma ReplyRightIsConserved(actions: seq<Action>)
    requires Lawful(INIT, actions)
    ensures Feasible(INIT, actions)
    ensures var s := Run(INIT, actions);
            && (forall r :: r in s.table.ids ==> Rights(s, r) == 1 && Count(s.sent, r) <= 1)
            && s.emptyCalls == 0
  {
    RunKeepsInv(INIT, actions);
  }

  lemma AtMostOnce(s: State, r: Request)
    requires Conserved(s)
    ensures Count(s.sent, r) <= 1
  {
    assert Rights(s, r) <= 1;
  }

  lemma Unroll(s: State, a: Action, rest: seq<Action>)
    requires Enabled(s, a)
    ensures Feasible(s, [a] + rest) <==> Feasible(Apply(s, a), rest)
    ensures Lawful(s, [a] + rest) <==> Disciplined(s.table, a) && Lawful(Apply(s, a), rest)
    ensures Feasible(Apply(s, a), rest) ==> Run(s, [a] + rest) == Run(Apply(s, a), rest)
  {
    assert ([a] + rest)[1..] == rest;
  }

  lemma Then(s: State, actions: seq<Action>, a: Action)
    requires Lawful(s, actions) && Feasible(s, actions)
    requires Enabled(Run(s, actions), a) && Disciplined(Run(s, actions).table, a)
    ensures Lawful(s, actions + [a]) && Feasible(s, actions + [a])
    ensures Run(s, actions + [a]) == Apply(Run(s, actions), a)
    decreases actions
  {
    if actions == [] {
      Unroll(s, a, []);
      assert [] + [a] == [a] + [];
    } else {
      Then(Apply(s, actions[0]), actions[1..], a);
      assert actions + [a] == [actions[0]] + (actions[1..] + [a]);
      Unroll(s, actions[0], actions[1..] + [a]);
    }
  }

  lemma FirstRegisters(id: Json) returns (actions: seq<Action>)
    ensures actions == [Arrive(0, id), RegisterLock(0), RegisterWrite(0)]
    ensures Lawful(INIT, actions) && Feasible(INIT, actions)
    ensures Run(INIT, actions) == State(Table(map[0 := id], map[0 := Running], None, map[id := Entry(CallDone, Some(0))], {}),
                                        multiset{}, multiset{}, [], 0)
  {
    actions := [];
    Then(INIT, actions, Arrive(0, id));
    actions := actions + [Arrive(0, id)];
    Then(INIT, actions, RegisterLock(0));
    actions := actions + [RegisterLock(0)];
    Then(INIT, actions, RegisterWrite(0));
    actions := actions + [RegisterWrite(0)];
  }

  lemma FirstReplies(id: Json) returns (actions: seq<Action>)
    ensures actions == [Arrive(0, id), RegisterLock(0), RegisterWrite(0), TryReply(0), ReplyErase(0)]
    ensures Lawful(INIT, actions) && Feasible(INIT, actions)
    ensures Run(INIT, actions) == State(Table(map[0 := id], map[0 := Running], None, map[], {}),
                                        multiset{0}, multiset{}, [], 0)
  {
    actions := FirstRegisters(id);
    Then(INIT, actions, TryReply(0));
    actions := actions + [TryReply(0)];
    Then(INIT, actions, ReplyErase(0));
    actions := actions + [ReplyErase(0)];
  }

  // ---- breaking the discipline ----

  ghost predicate ConservedForever(s: State) {
    forall actions :: Lawful(s, actions) ==> Feasible(s, actions) && Conserved(Run(s, actions))
  }

  // one more step breaks conservation as soon as a broken state can be reached
  lemma BreaksLater(s: State, a: Action)
    requires Enabled(s, a) && Disciplined(s.table, a)
    requires !ConservedForever(Apply(s, a))
    ensures !ConservedForever(s)
  {
    var rest :| Lawful(Apply(s, a), rest) && !(Feasible(Apply(s, a), rest) && Conserved(Run(Apply(s, a), rest)));
    Unroll(s, a, rest);
    LawfulIsFeasible(Apply(s, a), rest);
    assert Lawful(s, [a] + rest);
  }

  lemma BrokenNow(s: State)
    requires !Conserved(s)
    ensures !ConservedForever(s)
  {
    assert Lawful(s, []) && Run(s, []) == s;
  }

  // ---- the cancel function must find its request in the table ----

  // whatever happens next, request r is answered at most once
  ghost predicate AnsweredAtMostOnce(s: State, r: Request) {
    forall actions :: Lawful(s, actions) ==>
      Feasible(s, actions) && Count(Run(s, actions).sent, r) <= 1
  }

  function UnderWay(s: State, r: Request): nat {
    s.claimed[r] + s.dones[Some(r)]
  }

  lemma SpendOne(s: State, r: Request) returns (a: Action)
    requires UnderWay(s, r) > 0
    ensures (a.Send? || a.Done?) && Enabled(s, a)
    ensures UnderWay(Apply(s, a), r) == UnderWay(s, r) - 1
    ensures Count(Apply(s, a).sent, r) == Count(s.sent, r) + 1
  {
    if r in s.claimed {
      a := Send(r);
      AnsweredCounts(s.(claimed := s.claimed - multiset{r}), Some(r), Result, r);
    } else {
      a := Done(Some(r));
      AnsweredCounts(s.(dones := s.dones - multiset{Some(r)}), Some(r), Aborted, r);
    }
  }

  // answers under way can all be delivered, whatever the other threads do
  lemma {:induction false} SpendAll(s: State, r: Request) returns (actions: seq<Action>)
    ensures Lawful(s, actions) && Feasible(s, actions)
    ensures Count(Run(s, actions).sent, r) == UnderWay(s, r) + Count(s.sent, r)
    decreases UnderWay(s, r)
  {
    if UnderWay(s, r) == 0 {
      actions := [];
    } else {
      var a := SpendOne(s, r);
      var rest := SpendAll(Apply(s, a), r);
      actions := [a] + rest;
      Unroll(s, a, rest);
    }
  }

  lemma LateInstallLetsReplyPass(s: State, r: Request)
    requires Inv(s) && s.table.mutex == Some(ByInstall(r)) && s.table.ids[r] !in s.table.pending
    requires r !in s.table.retired
    ensures var s0 := Apply(s, InstallWrite(r));
            && Enabled(s0, TryReply(r)) && Enabled(Apply(s0, TryReply(r)), ReplyErase(r))
            && var s2 := Apply(Apply(s0, TryReply(r)), ReplyErase(r));
               UnderWay(s2, r) + Count(s2.sent, r) == 2
  {
  }

  lemma InstallingLateAnswersTwice(s: State, r: Request) returns (actions: seq<Action>)
    requires Inv(s) && s.table.mutex == Some(ByInstall(r)) && s.table.ids[r] !in s.table.pending
    requires r !in s.table.retired
    ensures var s' := Apply(s, InstallWrite(r));
            && Lawful(s', actions) && Feasible(s', actions)
            && Count(Run(s', actions).sent, r) == 2
  {
    LateInstallLetsReplyPass(s, r);
    hide Apply, Inv;
    var s0 := Apply(s, InstallWrite(r));
    var s1 := Apply(s0, TryReply(r));
    var s2 := Apply(s1, ReplyErase(r));
    var rest := SpendAll(s2, r);
    actions := [TryReply(r)] + ([ReplyErase(r)] + rest);
    Unroll(s1, ReplyErase(r), rest);
    Unroll(s0, TryReply(r), [ReplyErase(r)] + rest);
  }

  // a cancel of the entry that line 150 created hands out a done closure that calls nothing
  lemma InstallingLateCallsNothing(s: State, r: Request)
    requires Inv(s) && s.table.mutex == Some(ByInstall(r)) && s.table.ids[r] !in s.table.pending
    ensures var s0 := Apply(s, InstallWrite(r));
            && Enabled(s0, CancelLock(s.table.ids[r]))
            && Enabled(Apply(s0, CancelLock(s.table.ids[r])), CancelCall(s.table.ids[r]))
            && None in Apply(Apply(s0, CancelLock(s.table.ids[r])), CancelCall(s.table.ids[r])).dones
  {
  }

  lemma InstallingLateBreaks(s: State, r: Request)
    requires Inv(s) && s.table.mutex == Some(ByInstall(r)) && s.table.ids[r] !in s.table.pending
    ensures !ConservedForever(Apply(s, InstallWrite(r)))
  {
    InstallingLateCallsNothing(s, r);
    var id := s.table.ids[r];
    hide Apply, Inv;
    var s0 := Apply(s, InstallWrite(r));
    var s1 := Apply(s0, CancelLock(id));
    BrokenNow(Apply(s1, CancelCall(id)));
    BreaksLater(s1, CancelCall(id));
    BreaksLater(s0, CancelLock(id));
  }

  /** Installing a cancel function keeps all rights exactly when there is still an entry under the
      id: line 150 otherwise creates one again, a cancel of which calls an empty function. For an
      action that kept its response callback it is even worse: its next reply passes a second time. */
  lemma InstallIsSafeIffPending(s: State, r: Request)
    requires Inv(s) && s.table.mutex == Some(ByInstall(r))
    ensures s.table.ids[r] in s.table.pending <==> ConservedForever(Apply(s, InstallWrite(r)))
    ensures r !in s.table.retired ==>
              (s.table.ids[r] in s.table.pending <==> AnsweredAtMostOnce(Apply(s, InstallWrite(r)), r))
  {
    assert s.table.At(r, Installing);
    hide Apply, TableInv, Conserved;
    var s' := Apply(s, InstallWrite(r));
    if s.table.ids[r] in s.table.pending {
      StepKeepsInv(s, InstallWrite(r));
      forall actions | Lawful(s', actions)
        ensures Feasible(s', actions) && Conserved(Run(s', actions)) && Count(Run(s', actions).sent, r) <= 1
      {
        RunKeepsInv(s', actions);
        AtMostOnce(Run(s', actions), r);
      }
    } else {
      InstallingLateBreaks(s, r);
      if r !in s.table.retired {
        var actions := InstallingLateAnswersTwice(s, r);
      }
    }
  }

  lemma InitialInv()
    ensures Inv(INIT)
  {
  }

  lemma FirstIsCancelled(id: Json) returns (actions: seq<Action>)
    ensures actions == [Arrive(0, id), RegisterLock(0), RegisterWrite(0), CancelLock(id), CancelCall(id), CancelErase(id)]
    ensures Lawful(INIT, actions) && Feasible(INIT, actions)
    ensures Run(INIT, actions).table == Table(map[0 := id], map[0 := Running], None, map[], {})
  {
    actions := FirstRegisters(id);
    Then(INIT, actions, CancelLock(id));
    actions := actions + [CancelLock(id)];
    Then(INIT, actions, CancelCall(id));
    actions := actions + [CancelCall(id)];
    Then(INIT, actions, CancelErase(id));
    actions := actions + [CancelErase(id)];
  }

  /** Such a late installation does happen: the action replies, or is cancelled, before it returns
      its cancel function. */
  lemma LateInstallIsReachable(id: Json, byCancel: bool) returns (actions: seq<Action>)
    ensures actions == [Arrive(0, id), RegisterLock(0), RegisterWrite(0)]
                       + (if byCancel then [CancelLock(id), CancelCall(id), CancelErase(id)]
                          else [TryReply(0), ReplyErase(0)])
                       + [InstallLock(0)]
    ensures Lawful(INIT, actions) && Feasible(INIT, actions)
    ensures var s := Run(INIT, actions);
            && Inv(s) && s.table.mutex == Some(ByInstall(0)) && 0 in s.table.ids
            && s.table.ids[0] !in s.table.pending && 0 !in s.table.retired
  {
    if byCancel {
      actions := FirstIsCancelled(id);
    } else {
      actions := FirstReplies(id);
    }
    Then(INIT, actions, InstallLock(0));
    actions := actions + [InstallLock(0)];
    assert Run(INIT, actions).table == Table(map[0 := id], map[0 := Installing], Some(ByInstall(0)), map[], {});
    InitialInv();
    hide Apply, Inv;
    RunKeepsInv(INIT, actions);
  }

  // ---- ids must not be reused ----

  // register r: take the mutex and write the entry
  lemma RegisterNow(s: State, r: Request) returns (s': State)
    requires s.table.At(r, Arrived) && s.table.mutex == None
    ensures Enabled(s, RegisterLock(r)) && Enabled(Apply(s, RegisterLock(r)), RegisterWrite(r))
    ensures s' == Apply(Apply(s, RegisterLock(r)), RegisterWrite(r))
    ensures s'.table.mutex == None && s'.table.ids == s.table.ids
    ensures s'.table.At(r, Running) && s'.table.retired == s.table.retired
    ensures s'.table.pending == s.table.pending[s.table.ids[r] := Entry(CallDone, Some(r))]
    ensures s'.claimed == s.claimed && s'.dones == s.dones && s'.sent == s.sent
    ensures forall q, where :: q != r ==> s'.table.At(q, where) == s.table.At(q, where)
  {
    s' := Apply(Apply(s, RegisterLock(r)), RegisterWrite(r));
  }

  // r registers under the id of q: q's right, if it was in the table, is gone
  lemma OverwritingLosesRight(s: State, q: Request, r: Request)
    requires s.table.mutex == None && s.table.At(r, Arrived)
    requires q != r && q in s.table.ids && s.table.ids[q] == s.table.ids[r]
    requires !NotRegistered(s.table, q)
    ensures Enabled(s, RegisterLock(r)) && Enabled(Apply(s, RegisterLock(r)), RegisterWrite(r))
    ensures var s' := Apply(Apply(s, RegisterLock(r)), RegisterWrite(r));
            && Rights(s', q) == Rights(s, q) - (if Holds(s.table, q) then 1 else 0)
            && !Holds(s'.table, q)
  {
    var s' := RegisterNow(s, r);
  }

  // r registered under the id of q: a repeated reply of q's action passes in r's place
  lemma SharedIdLetsReplyPass(s: State, q: Request)
    requires s.table.mutex == None && s.table.Started(q) && s.table.ids[q] in s.table.pending
    requires !Holds(s.table, q) && q !in s.table.retired
    ensures Enabled(s, TryReply(q)) && Enabled(Apply(s, TryReply(q)), ReplyErase(q))
    ensures Rights(Apply(Apply(s, TryReply(q)), ReplyErase(q)), q) == Rights(s, q) + 1
  {
  }

  lemma ReusedIdBreaks(s: State, q: Request, r: Request)
    requires s.table.mutex == None && s.table.At(r, Arrived)
    requires q != r && q in s.table.ids && s.table.ids[q] == s.table.ids[r]
    requires s.table.Started(q) && Live(s.table, q) && Rights(s, q) == 1
    ensures !ConservedForever(s)
  {
    OverwritingLosesRight(s, q, r);
    var s' := RegisterNow(s, r);
    if Rights(s', q) == 0 {
      BrokenNow(s');
    } else {
      SharedIdLetsReplyPass(s', q);
      BrokenNow(Apply(Apply(s', TryReply(q)), ReplyErase(q)));
      BreaksLater(Apply(s', TryReply(q)), ReplyErase(q));
      BreaksLater(s', TryReply(q));
    }
    BreaksLater(Apply(s, RegisterLock(r)), RegisterWrite(r));
    BreaksLater(s, RegisterLock(r));
  }

  lemma ReusedIdBreaksArrival(s: State, q: Request, r: Request, id: Json)
    requires Inv(s) && s.table.mutex == None && r !in s.table.ids
    requires Live(s.table, q) && s.table.ids[q] == id
    ensures !ConservedForever(Apply(s, Arrive(r, id)))
  {
    var s' := Apply(s, Arrive(r, id));
    if s'.table.At(q, Arrived) {
      var s2 := RegisterNow(s', q);
      assert Rights(s2, q) == 1;
      ReusedIdBreaks(s2, q, r);
      BreaksLater(Apply(s', RegisterLock(q)), RegisterWrite(q));
      BreaksLater(s', RegisterLock(q));
    } else {
      assert Rights(s', q) == 1;
      ReusedIdBreaks(s', q, r);
    }
  }

  // how many steps the holder of the mutex is from releasing it
  function HeldFor(t: Table): nat {
    match t.mutex
    case None => 0
    case Some(ByCancel(_)) => 2
    case Some(_) => 1
  }

  // the holder's next step
  function Releasing(t: Table): Action
    requires t.mutex.Some?
  {
    match t.mutex.value
    case ByRegister(x) => RegisterWrite(x)
    case ByReply(x) => ReplyErase(x)
    case ByInstall(x) => InstallWrite(x)
    case ByCancel(id) => CancelCall(id)
    case ByCancelled(id) => CancelErase(id)
  }

  // a cancel function is about to be installed although there is no entry under its id any more
  predicate InstallsLate(t: Table) {
    t.mutex.Some? && t.mutex.value.ByInstall? && t.mutex.value.r in t.ids && t.ids[t.mutex.value.r] !in t.pending
  }

  lemma ReleasingIsLawful(s: State)
    requires TableSound(s.table) && s.table.mutex.Some? && !InstallsLate(s.table)
    ensures var a := Releasing(s.table);
            && Enabled(s, a) && Disciplined(s.table, a) && !a.Arrive?
            && HeldFor(Apply(s, a).table) < HeldFor(s.table)
            && !InstallsLate(Apply(s, a).table)
  {
  }

  lemma CancellingKeepsOthersAlive(s: State, q: Request)
    requires TableSound(s.table) && s.table.mutex.Some? && Live(s.table, q)
    requires s.table.mutex.value.ByCancel? || s.table.mutex.value.ByCancelled?
    requires Enabled(s, Releasing(s.table))
    ensures Live(Apply(s, Releasing(s.table)).table, q)
  {
    hide EntriesSound, MutexSound;
  }

  lemma ReleasingKeepsAlive(s: State, q: Request)
    requires TableInv(s.table) && s.table.mutex.Some? && !InstallsLate(s.table) && Live(s.table, q)
    requires Enabled(s, Releasing(s.table))
    ensures Live(Apply(s, Releasing(s.table)).table, q)
  {
    var a := Releasing(s.table);
    if a.CancelCall? || a.CancelErase? {
      hide *;
      CancellingKeepsOthersAlive(s, q);
    } else {
      assert a.RegisterWrite? || a.ReplyErase? ==> a.r == q || s.table.ids[a.r] != s.table.ids[q] by {
        assert a.RegisterWrite? || a.ReplyErase? ==> Live(s.table, a.r);
      }
      hide EntriesSound, DistinctIds, MutexSound;
    }
  }

  lemma ReleasingAfterArrival(s: State, r: Request, id: Json)
    requires TableSound(s.table) && s.table.mutex.Some? && !InstallsLate(s.table) && r !in s.table.ids
    ensures var a := Releasing(s.table);
            && Enabled(s, a) && Enabled(Apply(s, Arrive(r, id)), a)
            && Disciplined(Apply(s, Arrive(r, id)).table, a)
            && r !in Apply(s, a).table.ids
  {
    hide Answered;
  }

  predicate Commute(s: State, a: Action, b: Action)
    requires Enabled(s, a) && Enabled(Apply(s, a), b) && Enabled(s, b) && Enabled(Apply(s, b), a)
  {
    Apply(Apply(s, a), b) == Apply(Apply(s, b), a)
  }

  lemma ArrivalAndStageCommute(s: State, r: Request, id: Json, a: Action)
    requires a.RegisterWrite? || a.ReplyErase? || a.InstallWrite?
    requires Enabled(s, Arrive(r, id)) && Enabled(s, a)
    requires Enabled(Apply(s, Arrive(r, id)), a) && Enabled(Apply(s, a), Arrive(r, id))
    ensures Commute(s, Arrive(r, id), a)
  {
    assert a.r != r;
    var one, other := Apply(Apply(s, Arrive(r, id)), a).table, Apply(Apply(s, a), Arrive(r, id)).table;
    assert one.stage == other.stage;
  }

  lemma ArrivalAndCancelCommute(s: State, r: Request, id: Json, a: Action)
    requires a.CancelCall? || a.CancelErase?
    requires Enabled(s, Arrive(r, id)) && Enabled(s, a)
    requires Enabled(Apply(s, Arrive(r, id)), a) && Enabled(Apply(s, a), Arrive(r, id))
    ensures Commute(s, Arrive(r, id), a)
  {
  }

  // an arrival and a release do not see each other
  lemma ArrivalCommutes(s: State, r: Request, id: Json)
    requires s.table.mutex.Some?
    requires Enabled(s, Arrive(r, id)) && Enabled(s, Releasing(s.table))
    requires Enabled(Apply(s, Arrive(r, id)), Releasing(s.table))
    requires Enabled(Apply(s, Releasing(s.table)), Arrive(r, id))
    ensures Commute(s, Arrive(r, id), Releasing(s.table))
  {
    hide Apply, Commute, Enabled;
    var a := Releasing(s.table);
    if a.CancelCall? || a.CancelErase? {
      ArrivalAndCancelCommute(s, r, id, a);
    } else {
      ArrivalAndStageCommute(s, r, id, a);
    }
  }

  lemma {:induction false} ReusedIdBreaksAnyArrival(s: State, q: Request, r: Request, id: Json)
    requires Inv(s) && !InstallsLate(s.table) && r !in s.table.ids
    requires Live(s.table, q) && s.table.ids[q] == id
    ensures !ConservedForever(Apply(s, Arrive(r, id)))
    decreases HeldFor(s.table)
  {
    if s.table.mutex == None {
      ReusedIdBreaksArrival(s, q, r, id);
    } else {
      var a := Releasing(s.table);
      ReleasingIsLawful(s);
      ReleasingKeepsAlive(s, q);
      ReleasingAfterArrival(s, r, id);
      ArrivalCommutes(s, r, id);
      StepKeepsIds(s, a);
      StepKeepsInv(s, a);
      hide Apply, Inv;
      ReusedIdBreaksAnyArrival(Apply(s, a), q, r, id);
      BreaksLater(Apply(s, Arrive(r, id)), a);
    }
  }

  // with a late installation under way no lawful step takes or releases the mutex any more
  ghost predicate Stuck(s: State) {
    InstallsLate(s.table) && TableSound(s.table) && Conserved(s)
  }

  predicate LeavesTable(a: Action) {
    a.Arrive? || a.TryReply? || a.Send? || a.Done? || a.Retire? || a.ReturnPlain?
  }

  lemma StuckStep(s: State, a: Action)
    requires Stuck(s) && Enabled(s, a) && Disciplined(s.table, a)
    ensures LeavesTable(a) && InstallsLate(Apply(s, a).table)
  {
  }

  lemma StuckMovesNothing(s: State, a: Action, r: Request)
    requires Stuck(s) && Enabled(s, a) && LeavesTable(a)
    ensures Moved(s, a, r)
  {
    hide Conserved;
    match a
    case Send(_) => SendMovesRights(s, a, r);
    case Done(_) => DoneMovesRights(s, a, r);
    case Retire(_) => RetirementMovesRights(s, a, r);
    case _ =>
  }

  lemma StuckKeepsTable(s: State, a: Action)
    requires Stuck(s) && Enabled(s, a) && LeavesTable(a)
    ensures TableSound(Apply(s, a).table)
  {
    hide Conserved, Moved, Apply, TableSound, Rights;
    match a
    case Arrive(_, _) => ArrivalWithAnyIdKeepsTable(s, a);
    case TryReply(_) => ReplyKeepsTable(s, a);
    case ReturnPlain(_) => ReturnKeepsTable(s, a);
    case Send(_) | Done(_) => AnsweringKeepsTable(s, a);
    case Retire(_) => RetirementKeepsTable(s, a);
    case _ =>
  }

  lemma StuckStaysStuck(s: State, a: Action)
    requires Stuck(s) && Enabled(s, a) && Disciplined(s.table, a)
    ensures Stuck(Apply(s, a))
  {
    StuckStep(s, a);
    StuckKeepsTable(s, a);
    StepKeepsIds(s, a);
    StepCallsNoEmptyFunction(s, a);
    hide Apply, Rights, TableSound, InstallsLate;
    forall r: Request
      ensures Rights(Apply(s, a), r) == Rights(s, r) + if a.Arrive? && a.r == r then 1 else 0
    {
      StuckMovesNothing(s, a, r);
    }
  }

  lemma {:induction false} StuckConserves(s: State, actions: seq<Action>)
    requires Stuck(s) && Lawful(s, actions)
    ensures Feasible(s, actions) && Conserved(Run(s, actions))
    decreases actions
  {
    if actions == [] {
    } else {
      StuckStaysStuck(s, actions[0]);
      StuckConserves(Apply(s, actions[0]), actions[1..]);
    }
  }

  lemma ArrivalWithAnyIdKeepsTable(s: State, a: Action)
    requires TableSound(s.table) && Enabled(s, a) && a.Arrive?
    ensures TableSound(Apply(s, a).table)
  {
  }

  lemma ArrivalIntoStuckConserves(s: State, r: Request, id: Json)
    requires Inv(s) && InstallsLate(s.table) && r !in s.table.ids
    ensures ConservedForever(Apply(s, Arrive(r, id)))
  {
    var a := Arrive(r, id);
    var s' := Apply(s, a);
    ArrivalWithAnyIdKeepsTable(s, a);
    assert InstallsLate(s'.table);
    assert s'.emptyCalls == 0 && s'.dones[None] == 0;
    StepKeepsIds(s, a);
    forall q: Request
      ensures Rights(s', q) == Rights(s, q) + if r == q then 1 else 0
    {
      StuckMovesNothing(s, a, q);
    }
    hide Apply, Rights, TableSound, InstallsLate;
    assert Stuck(s');
    forall actions | Lawful(s', actions)
      ensures Feasible(s', actions) && Conserved(Run(s', actions))
    {
      StuckConserves(s', actions);
    }
  }

  /** A new request keeps every right to reply exactly when no live request has its id, or a late
      installation has stopped the receiver already. The ids of different clients meet in one table, so
      this binds all clients together. */
  lemma ArrivalIsSafeIffNoLiveRequest(s: State, r: Request, id: Json)
    requires Inv(s) && r !in s.table.ids
    ensures InstallsLate(s.table) || (forall q :: Live(s.table, q) ==> s.table.ids[q] != id)
            <==> ConservedForever(Apply(s, Arrive(r, id)))
  {
    hide Apply, TableInv, Conserved;
    var s' := Apply(s, Arrive(r, id));
    if InstallsLate(s.table) {
      ArrivalIntoStuckConserves(s, r, id);
    } else if q :| Live(s.table, q) && s.table.ids[q] == id {
      ReusedIdBreaksAnyArrival(s, q, r, id);
    } else {
      StepKeepsInv(s, Arrive(r, id));
      forall actions | Lawful(s', actions)
        ensures Feasible(s', actions) && Conserved(Run(s', actions))
      {
        RunKeepsInv(s', actions);
      }
    }
  }

  /** While all actions keep their response callbacks, every request that ever came is alive, and
      the id must never have been used. */
  lemma ArrivalIsSafeIffIdIsNew(s: State, r: Request, id: Json)
    requires Inv(s) && r !in s.table.ids && s.table.retired == {}
    ensures InstallsLate(s.table) || id !in s.table.ids.Values <==> ConservedForever(Apply(s, Arrive(r, id)))
  {
    ArrivalIsSafeIffNoLiveRequest(s, r, id);
    assert forall q :: Live(s.table, q) <==> q in s.table.ids;
    assert id in s.table.ids.Values <==> exists q :: q in s.table.ids && s.table.ids[q] == id;
  }

  /** Two requesters both count from 0: the second one's first request takes the first one's right. */
  lemma TwoClientsClash() returns (actions: seq<Action>)
    ensures actions == [Arrive(0, Int(0)), RegisterLock(0), RegisterWrite(0)]
    ensures Lawful(INIT, actions) && Feasible(INIT, actions)
    ensures var s := Run(INIT, actions);
            && Inv(s) && 1 !in s.table.ids
            && !ConservedForever(Apply(s, Arrive(1, Int(0))))
  {
    actions := FirstRegisters(Int(0));
    var s3 := Run(INIT, actions);
    assert s3.table.mutex == None && 1 !in s3.table.ids && Live(s3.table, 0) && s3.table.ids[0] == Int(0);
    InitialInv();
    hide Apply, Inv;
    RunKeepsInv(INIT, actions);
    ArrivalIsSafeIffNoLiveRequest(s3, 1, Int(0));
  }

  // ---- a reply that meets a locked mutex is dropped ----

  ghost predicate Untouched(t: Table, r: Request) {
    && Holds(t, r)
    && t.mutex != Some(ByReply(r))
    && t.mutex != Some(ByCancel(t.ids[r]))
  }

  lemma OthersRegisterBeside(s: State, a: Action, r: Request)
    requires TableInv(s.table) && Enabled(s, a) && Disciplined(s.table, a)
    requires a.Arrive? || a.RegisterLock? || a.RegisterWrite? || a.ReturnPlain? || a.InstallLock? || a.InstallWrite?
    requires Untouched(s.table, r)
    ensures Untouched(Apply(s, a).table, r)
  {
    assert a.RegisterWrite? ==> a.r != r && s.table.ids[a.r] != s.table.ids[r] by {
      assert Live(s.table, r);
      assert a.RegisterWrite? ==> Live(s.table, a.r);
    }
    hide MutexSound, EntriesSound, DistinctIds, Live;
  }

  lemma OthersReplyBeside(s: State, a: Action, r: Request)
    requires TableInv(s.table) && Enabled(s, a)
    requires a.TryReply? || a.ReplyErase? || a.Retire? || a.Send? || a.Done?
    requires Untouched(s.table, r) && a != TryReply(r)
    ensures Untouched(Apply(s, a).table, r)
  {
    assert a.ReplyErase? ==> a.r != r && s.table.ids[a.r] != s.table.ids[r] by {
      assert Live(s.table, r);
      assert a.ReplyErase? ==> Live(s.table, a.r);
    }
    hide MutexSound, EntriesSound, DistinctIds, Live;
  }

  lemma OthersCancelBeside(s: State, a: Action, r: Request)
    requires TableInv(s.table) && Enabled(s, a)
    requires a.CancelLock? || a.CancelCall? || a.CancelErase?
    requires Untouched(s.table, r) && a != CancelLock(s.table.ids[r])
    ensures Untouched(Apply(s, a).table, r)
  {
    hide MutexSound, EntriesSound, DistinctIds, Live;
  }

  lemma OthersLeaveUntouched(s: State, a: Action, r: Request)
    requires TableInv(s.table) && Enabled(s, a) && Disciplined(s.table, a)
    requires Untouched(s.table, r) && a != TryReply(r) && a != CancelLock(s.table.ids[r])
    ensures Untouched(Apply(s, a).table, r)
  {
    hide Apply, TableInv, Disciplined;
    match a
    case Arrive(_, _) | RegisterLock(_) | RegisterWrite(_) | ReturnPlain(_) | InstallLock(_) | InstallWrite(_) =>
      OthersRegisterBeside(s, a, r);
    case TryReply(_) | ReplyErase(_) | Retire(_) | Send(_) | Done(_) => OthersReplyBeside(s, a, r);
    case CancelLock(_) | CancelCall(_) | CancelErase(_) => OthersCancelBeside(s, a, r);
  }

  /** The action's reply is dropped whenever any holder at all has the mutex. Then nothing but
      another reply or a cancel of this very request can ever answer it. */
  lemma {:induction false} DroppedReplyIsNeverSent(s: State, r: Request, actions: seq<Action>)
    requires Inv(s) && Untouched(s.table, r) && s.table.mutex != None
    requires Enabled(s, TryReply(r)) && Lawful(Apply(s, TryReply(r)), actions)
    requires TryReply(r) !in actions && CancelLock(s.table.ids[r]) !in actions
    ensures var s' := Apply(s, TryReply(r));
            && Feasible(s', actions)
            && Count(Run(s', actions).sent, r) == 0
            && Holds(Run(s', actions).table, r)
  {
    LeftPending(s, r, actions);
  }

  lemma {:induction false} LeftPending(s: State, r: Request, actions: seq<Action>)
    requires Inv(s) && Untouched(s.table, r) && Lawful(s, actions)
    requires TryReply(r) !in actions && CancelLock(s.table.ids[r]) !in actions
    ensures Feasible(s, actions) && Count(Run(s, actions).sent, r) == 0 && Holds(Run(s, actions).table, r)
    decreases actions
  {
    if actions == [] {
    } else {
      OthersLeaveUntouched(s, actions[0], r);
      StepKeepsIds(s, actions[0]);
      StepKeepsInv(s, actions[0]);
      LeftPending(Apply(s, actions[0]), r, actions[1..]);
    }
  }

  // an answer to r can be sent without another reply or a cancel of r
  ghost predicate CanBeAnswered(s: State, r: Request) {
    exists actions ::
      && Lawful(s, actions) && Feasible(s, actions)
      && TryReply(r) !in actions && (r in s.table.ids ==> CancelLock(s.table.ids[r]) !in actions)
      && Count(Run(s, actions).sent, r) > 0
  }

  lemma SendMovesCount(s: State, r: Request)
    requires r in s.claimed
    ensures Enabled(s, Send(r)) && Count(Apply(s, Send(r)).sent, r) == Count(s.sent, r) + 1
  {
    AnsweredCounts(s.(claimed := s.claimed - multiset{r}), Some(r), Result, r);
  }

  // the reply holds the mutex: it erases its entry and is sent
  lemma ReplyGoesOn(s: State, r: Request)
    requires s.table.mutex == Some(ByReply(r)) && s.table.Started(r) && s.table.ids[r] in s.table.pending
    ensures Enabled(s, ReplyErase(r)) && Enabled(Apply(s, ReplyErase(r)), Send(r))
    ensures Disciplined(s.table, ReplyErase(r)) && Disciplined(Apply(s, ReplyErase(r)).table, Send(r))
    ensures Count(Apply(Apply(s, ReplyErase(r)), Send(r)).sent, r) > 0
  {
    SendMovesCount(Apply(s, ReplyErase(r)), r);
  }

  lemma ReplyGoesThrough(s: State, r: Request)
    requires s.table.mutex == Some(ByReply(r)) && s.table.Started(r) && s.table.ids[r] in s.table.pending
    ensures CanBeAnswered(s, r)
  {
    ReplyGoesOn(s, r);
    hide Apply, Enabled, Disciplined, Count;
    var s2 := Apply(s, ReplyErase(r));
    var actions := [ReplyErase(r)] + ([Send(r)] + []);
    Unroll(s2, Send(r), []);
    Unroll(s, ReplyErase(r), [Send(r)] + []);
    assert Run(s, actions) == Apply(s2, Send(r));
  }

  /** A reply is heard exactly when it finds the mutex free; whoever holds it, and for whatever
      request, it is lost. Left aside are another reply and a cancel of r under way themselves. */
  lemma ReplyIsHeardIffMutexIsFree(s: State, r: Request)
    requires Inv(s) && Holds(s.table, r) && Enabled(s, TryReply(r))
    requires s.table.mutex != Some(ByReply(r)) && s.table.mutex != Some(ByCancel(s.table.ids[r]))
    ensures s.table.mutex == None <==> CanBeAnswered(Apply(s, TryReply(r)), r)
  {
    var s' := Apply(s, TryReply(r));
    if s.table.mutex == None {
      ReplyGoesThrough(s', r);
    } else {
      assert s' == s;
      forall actions | Lawful(s, actions) && TryReply(r) !in actions && CancelLock(s.table.ids[r]) !in actions
        ensures Feasible(s, actions) && Count(Run(s, actions).sent, r) == 0
      {
        LawfulIsFeasible(s, actions);
        LeftPending(s, r, actions);
      }
    }
  }

  /** The case the comment on skipResponse does not mention: the holder need not be a cancel. From
      every reachable state, a reply that comes while another request registers is lost. */
  lemma RegistrationOfAnotherDropsReply(s: State, r: Request, other: Request)
    returns (actions: seq<Action>)
    requires Inv(s) && s.table.mutex == None
    requires Holds(s.table, r) && r !in s.table.retired && s.table.At(other, Arrived)
    ensures actions == [RegisterLock(other), TryReply(r), RegisterWrite(other)]
    ensures Lawful(s, actions) && Feasible(s, actions)
    ensures var s' := Run(s, actions);
            s'.table.mutex == None && s'.sent == s.sent && s'.claimed == s.claimed && Holds(s'.table, r)
  {
    var s1 := Apply(s, RegisterLock(other));
    var s2 := Apply(s1, TryReply(r));
    var s3 := Apply(s2, RegisterWrite(other));
    Unroll(s2, RegisterWrite(other), []);
    Unroll(s1, TryReply(r), [RegisterWrite(other)] + []);
    Unroll(s, RegisterLock(other), [TryReply(r)] + ([RegisterWrite(other)] + []));
    actions := [RegisterLock(other)] + ([TryReply(r)] + ([RegisterWrite(other)] + []));
  }

  /** A state of this kind is reached by two requests. */
  lemma DroppedReplyIsReachable(id: Json, other: Json) returns (actions: seq<Action>)
    requires id != other
    ensures Lawful(INIT, actions) && Feasible(INIT, actions)
    ensures var s := Run(INIT, actions);
            && Inv(s) && s.table.mutex == None && Holds(s.table, 0) && 0 !in s.table.retired
            && s.table.At(1, Arrived)
  {
    actions := FirstRegisters(id);
    Then(INIT, actions, Arrive(1, other));
    actions := actions + [Arrive(1, other)];
    InitialInv();
    RunKeepsInv(INIT, actions);
  }

  /** An action that returned without a cancel function, or whose function is installed, installs none
      any more. */
  lemma ReturnedInstallsNothing(s: State, r: Request)
    ensures Enabled(s, ReturnPlain(r)) ==>
              Apply(s, ReturnPlain(r)) == s.(table := s.table.(stage := s.table.stage[r := Returned]))
    ensures Enabled(s, InstallWrite(r)) ==> Apply(s, InstallWrite(r)).table.At(r, Returned)
    ensures s.table.At(r, Returned) ==> !Enabled(s, InstallLock(r)) && !Enabled(s, InstallWrite(r))
  {
  }

  // ---- whose cancel function a cancel calls ----

  // every entry has its own request's cancel function, or the temporary one
  ghost predicate OwnCancels(t: Table) {
    forall id :: id in t.pending && t.pending[id].cancel.Application? ==>
      t.pending[id].respond == Some(t.pending[id].cancel.owner)
  }

  /** A cancel calls the function of the request it answers as long as every cancel function is
      installed into its own request's entry: exactly then a step keeps this. */
  lemma StepKeepsOwnCancels(s: State, a: Action)
    requires Inv(s) && Enabled(s, a) && Disciplined(s.table, a) && OwnCancels(s.table)
    ensures OwnCancels(Apply(s, a).table) <==> (a.InstallWrite? ==> Holds(s.table, a.r))
  {
    hide Conserved, DistinctIds, Rights;
    match a
    case InstallWrite(r) =>
      var t := Apply(s, a).table;
      assert t.pending[s.table.ids[r]] == Entry(Application(r), s.table.pending[s.table.ids[r]].respond);
    case Send(_) | Done(_) => AnsweringKeepsTable(s, a);
    case _ =>
  }

  // request 0 has replied, and its action has still to return its cancel function
  lemma FirstHasReplied(id: Json) returns (actions: seq<Action>)
    ensures actions == [Arrive(0, id), RegisterLock(0), RegisterWrite(0), TryReply(0), ReplyErase(0), Send(0), Retire(0)]
    ensures Lawful(INIT, actions) && Feasible(INIT, actions)
    ensures Run(INIT, actions) == State(Table(map[0 := id], map[0 := Running], None, map[], {0}),
                                        multiset{}, multiset{}, [Reply(0, Result)], 0)
  {
    actions := FirstReplies(id);
    Then(INIT, actions, Send(0));
    actions := actions + [Send(0)];
    Then(INIT, actions, Retire(0));
    actions := actions + [Retire(0)];
  }

  /** The failing case: request 1 has the id of request 0, which has replied and let go of its
      callback, and then 0's action returns its cancel function. A cancel of 1 calls it. */
  lemma InstallsForAnother(id: Json) returns (actions: seq<Action>)
    ensures Lawful(INIT, actions) && Feasible(INIT, actions)
    ensures id in Run(INIT, actions).table.pending
            && Run(INIT, actions).table.pending[id] == Entry(Application(0), Some(1))
  {
    actions := FirstHasReplied(id);
    Then(INIT, actions, Arrive(1, id));
    actions := actions + [Arrive(1, id)];
    Then(INIT, actions, RegisterLock(1));
    actions := actions + [RegisterLock(1)];
    Then(INIT, actions, RegisterWrite(1));
    actions := actions + [RegisterWrite(1)];
    assert Run(INIT, actions).table.pending == map[id := Entry(CallDone, Some(1))];
    Then(INIT, actions, InstallLock(0));
    actions := actions + [InstallLock(0)];
    Then(INIT, actions, InstallWrite(0));
    actions := actions + [InstallWrite(0)];
  }

  // ---- which answer is sent, and why ----

  /** What each step sends: a reply that passed sends the result, a done closure and the temporary
      cancel function send the abortion, and nothing else sends anything. */
  lemma SentByStep(s: State, a: Action)
    requires Enabled(s, a)
    ensures Apply(s, a).sent == s.sent +
              match a
              case Send(r) => [Reply(r, Result)]
              case Done(Some(r)) => [Reply(r, Aborted)]
              case CancelCall(id) =>
                if id in s.table.pending && s.table.pending[id].cancel == CallDone && s.table.pending[id].respond.Some?
                then [Reply(s.table.pending[id].respond.value, Aborted)] else []
              case _ => []
  {
    assert s.sent + [] == s.sent;
  }

  predicate ResultUnderWay(s: State, r: Request) {
    r in s.claimed || Reply(r, Result) in s.sent
  }

  predicate AbortionUnderWay(s: State, r: Request) {
    Some(r) in s.dones || Reply(r, Aborted) in s.sent
  }

  lemma ResultHasStep(s: State, a: Action, r: Request)
    requires Enabled(s, a)
    ensures ResultUnderWay(Apply(s, a), r) ==> ResultUnderWay(s, r) || a == ReplyErase(r)
  {
    SentByStep(s, a);
  }

  lemma AbortionHasStep(s: State, a: Action, r: Request)
    requires EntriesSound(s.table) && Enabled(s, a)
    ensures AbortionUnderWay(Apply(s, a), r) ==>
              AbortionUnderWay(s, r) || (r in s.table.ids && a == CancelCall(s.table.ids[r]))
  {
    SentByStep(s, a);
  }

  /** Over every run: a request is answered with its result only if its action replied, and with
      Request aborted only if a cancel named its id. */
  lemma {:induction false} AnswersHaveTheirCause(s: State, actions: seq<Action>, r: Request)
    requires Inv(s) && Lawful(s, actions)
    ensures Feasible(s, actions)
    ensures ResultUnderWay(Run(s, actions), r) ==> ResultUnderWay(s, r) || ReplyErase(r) in actions
    ensures AbortionUnderWay(Run(s, actions), r) ==>
              || AbortionUnderWay(s, r)
              || (r in Run(s, actions).table.ids && CancelCall(Run(s, actions).table.ids[r]) in actions)
    decreases actions
  {
    if actions == [] {
    } else {
      var a := actions[0];
      ResultHasStep(s, a, r);
      AbortionHasStep(s, a, r);
      StepKeepsInv(s, a);
      StepKeepsIds(s, a);
      AnswersHaveTheirCause(Apply(s, a), actions[1..], r);
      if r in s.table.ids {
        RunKeepsIds(Apply(s, a), actions[1..], r);
      }
    }
  }

  lemma {:induction false} RunKeepsIds(s: State, actions: seq<Action>, r: Request)
    requires r in s.table.ids && Feasible(s, actions)
    ensures r in Run(s, actions).table.ids && Run(s, actions).table.ids[r] == s.table.ids[r]
    decreases actions
  {
    if actions == [] {
    } else {
      StepKeepsIds(s, actions[0]);
      RunKeepsIds(Apply(s, actions[0]), actions[1..], r);
    }
  }
}
