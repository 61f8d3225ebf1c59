/** The code sections of the cancellable receiver that touch the pending-request table, each run
    without interruption, proved against the steps of CancellableProtocol. */
module CancellableReceiver {
  import opened Wrappers
  import opened JsonModel
  import opened CancellableProtocol

  // a cancel that nothing interrupts, in terms of the steps
  function CancelNow(s: State, target: Json): State
    requires s.table.mutex == None
  {
    if target in s.table.pending
    then Apply(Apply(Apply(s, CancelLock(target)), CancelCall(target)), CancelErase(target))
    else s
  }

  /** What a cancel does, in terms of the table: an entry goes, and either the temporary cancel function
      answers Request aborted at once, or the application's is given a done closure with the right to
      do so. An unknown target changes nothing. */
  predicate CancelsRequest(before: State, after: State, target: Json) {
    if target !in before.table.pending then after == before
    else
      var entry := before.table.pending[target];
      && after.table == before.table.(pending := before.table.pending - {target})
      && after.claimed == before.claimed
      && match entry.cancel
         case CallDone =>
           && after.dones == before.dones
           && (if entry.respond.Some?
               then after.sent == before.sent + [Reply(entry.respond.value, Aborted)] && after.emptyCalls == before.emptyCalls
               else after.sent == before.sent && after.emptyCalls == before.emptyCalls + 1)
         case Application(_) =>
           && after.dones == before.dones + multiset{entry.respond}
           && after.sent == before.sent && after.emptyCalls == before.emptyCalls
  }

  lemma CancelNowCancels(s: State, target: Json)
    requires s.table.mutex == None
    ensures CancelsRequest(s, CancelNow(s, target), target)
  {
  }

  lemma CancelStepKeepsRight(s: State, a: Action, r: Request)
    requires Inv(s) && Enabled(s, a) && (a.CancelLock? || a.CancelCall? || a.CancelErase?)
    ensures Inv(Apply(s, a)) && Rights(Apply(s, a), r) == Rights(s, r)
  {
    hide TableSound, DistinctIds, Conserved, Rights, Apply, Enabled;
    StepMovesRights(s, a, r);
    StepKeepsInv(s, a);
  }

  lemma CancelStepsFollow(s: State, target: Json)
    requires s.table.mutex == None && target in s.table.pending
    ensures Enabled(s, CancelLock(target))
    ensures Enabled(Apply(s, CancelLock(target)), CancelCall(target))
    ensures Enabled(Apply(Apply(s, CancelLock(target)), CancelCall(target)), CancelErase(target))
  {
  }

  /** No right to reply is lost in a cancel: it moves from the entry to the answer or the closure. */
  lemma CancelNowKeepsRights(s: State, target: Json, r: Request)
    requires Inv(s) && s.table.mutex == None
    ensures Inv(CancelNow(s, target)) && Rights(CancelNow(s, target), r) == Rights(s, r)
  {
    if target in s.table.pending {
      CancelStepsFollow(s, target);
      hide Inv, Rights, Apply, Enabled;
      var s1 := Apply(s, CancelLock(target));
      CancelStepKeepsRight(s, CancelLock(target), r);
      CancelStepKeepsRight(s1, CancelCall(target), r);
      CancelStepKeepsRight(Apply(s1, CancelCall(target)), CancelErase(target), r);
    }
  }

  // a valid cancel is a notification that names an id
  predicate NamesRequest(id: Json, params: Option<Json>) {
    id.Null? && params.Some? && params.value.Has("id")
  }

  class PendingRequests {
    var ids: map<Request, Json>
    var stage: map<Request, Stage>
    var mutex: Option<Holder>
    var requests: map<Json, Entry>
    var retired: set<Request>
    var claimed: multiset<Request>
    var dones: multiset<Option<Request>>
    var sent: seq<Reply>
    var emptyCalls: nat

    constructor ()
      ensures View() == INIT
    {
      ids, stage, mutex, requests, retired := map[], map[], None, map[], {};
      claimed, dones, sent, emptyCalls := multiset{}, multiset{}, [], 0;
    }

    function View(): State
      reads this
    {
      State(Table(ids, stage, mutex, requests, retired), claimed, dones, sent, emptyCalls)
    }

    // the stored respond function is called; an empty one throws
    method Respond(respond: Option<Request>, answer: Answer)
      modifies this`sent, this`emptyCalls
      ensures View() == Answered(old(View()), respond, answer)
    {
      match respond {
        case Some(r) => sent := sent + [Reply(r, answer)];
        case None => emptyCalls := emptyCalls + 1;
      }
    }

    /** process() for a cancellable method, up to the call of the action. */
    method Register(r: Request, id: Json)
      requires r !in ids && mutex == None
      modifies this
      ensures var arrived := Apply(old(View()), Arrive(r, id));
              && Enabled(arrived, RegisterLock(r))
              && Enabled(Apply(arrived, RegisterLock(r)), RegisterWrite(r))
              && View() == Apply(Apply(arrived, RegisterLock(r)), RegisterWrite(r))
    {
      ids := ids[r := id];
      stage := stage[r := Running];
      requests := requests[id := Entry(CallDone, Some(r))];
      assert stage == old(stage)[r := Arrived][r := Registering][r := Running];
    }

    method SkipResponse(r: Request) returns (skip: bool)
      requires View().table.Started(r) && r !in retired
      modifies this`mutex, this`requests, this`claimed
      ensures skip <==> old(mutex != None || ids[r] !in requests)
      ensures old(mutex) == None ==>
                && Enabled(Apply(old(View()), TryReply(r)), ReplyErase(r))
                && View() == Apply(Apply(old(View()), TryReply(r)), ReplyErase(r))
      ensures old(mutex) != None ==> View() == Apply(old(View()), TryReply(r))
    {
      if mutex != None {
        return true;
      }
      mutex := Some(ByReply(r));
      if ids[r] !in requests {
        mutex := None;
        return true;
      }
      requests := requests - {ids[r]};
      claimed := claimed + multiset{r};
      mutex := None;
      return false;
    }

    /** The response callback handed to the action. */
    method ReplyCallback(r: Request)
      requires View().table.Started(r) && r !in retired
      modifies this`mutex, this`requests, this`claimed, this`sent, this`emptyCalls
      ensures sent == old(sent) + if old(mutex == None && ids[r] in requests) then [Reply(r, Result)] else []
      ensures mutex == old(mutex) && claimed == old(claimed) && emptyCalls == old(emptyCalls)
      ensures requests == if old(mutex) == None then old(requests) - {ids[r]} else old(requests)
    {
      var skip := SkipResponse(r);
      if skip {
        return;
      }
      claimed := claimed - multiset{r};
      hide Apply, Enabled;
      Respond(Some(r), Result);
    }

    method InstallCancel(r: Request)
      requires View().table.At(r, Running) && mutex == None
      modifies this`stage, this`requests
      ensures var locked := Apply(old(View()), InstallLock(r));
              && Enabled(locked, InstallWrite(r))
              && View() == Apply(locked, InstallWrite(r))
      ensures requests == old(requests)[ids[r] := Entry(Application(r), if old(ids[r] in requests) then old(requests[ids[r]].respond) else None)]
    {
      var respond := if ids[r] in requests then requests[ids[r]].respond else None;
      requests := requests[ids[r] := Entry(Application(r), respond)];
      stage := stage[r := Returned];
      assert stage == old(stage)[r := Installing][r := Returned];
    }

    // the stored cancel function is called while the mutex is held
    method CallCancelFunction(target: Json)
      requires mutex == Some(ByCancel(target)) && target in requests
      modifies this`mutex, this`dones, this`sent, this`emptyCalls
      ensures View() == Apply(old(View()), CancelCall(target))
      ensures mutex == Some(ByCancelled(target))
    {
      mutex := Some(ByCancelled(target));
      var entry := requests[target];
      if entry.cancel == CallDone {
        Respond(entry.respond, Aborted);
      } else {
        dones := dones + multiset{entry.respond};
      }
    }

    method EraseCancelled(target: Json)
      requires mutex == Some(ByCancelled(target))
      modifies this`mutex, this`requests
      ensures View() == Apply(old(View()), CancelErase(target))
    {
      requests := requests - {target};
      mutex := None;
    }

    method CancelRequest(target: Json)
      requires mutex == None
      modifies this`mutex, this`requests, this`dones, this`sent, this`emptyCalls
      ensures View() == CancelNow(old(View()), target)
      ensures CancelsRequest(old(View()), View(), target)
      ensures old(Inv(View())) ==> Inv(View()) && forall r: Request :: Rights(View(), r) == Rights(old(View()), r)
    {
      ghost var before := View();
      CancelNowCancels(before, target);
      forall r: Request | Inv(before)
        ensures Inv(CancelNow(before, target)) && Rights(CancelNow(before, target), r) == Rights(before, r)
      {
        CancelNowKeepsRights(before, target, r);
      }
      hide CancelsRequest, Inv, Rights;
      mutex := Some(ByCancel(target));
      if target !in requests {
        mutex := None;
        return;
      }
      assert View() == Apply(old(View()), CancelLock(target));
      hide Apply;
      CallCancelFunction(target);
      EraseCancelled(target);
    }

    /** A cancel notification; params is None when its text is no JSON. */
    method ProcessCancel(id: Json, params: Option<Json>)
      requires mutex == None
      modifies this`mutex, this`requests, this`dones, this`sent, this`emptyCalls
      ensures View() == if NamesRequest(id, params)
                        then CancelNow(old(View()), params.value.Get("id"))
                        else old(View())
      ensures !id.Null? ==> View() == old(View())
      ensures params.None? ==> View() == old(View())
      ensures params.Some? && !params.value.Has("id") ==> View() == old(View())
      ensures id.Null? && params.Some? && params.value.Has("id") ==>
                CancelsRequest(old(View()), View(), params.value.Get("id"))
      ensures old(Inv(View())) ==> Inv(View()) && forall r: Request :: Rights(View(), r) == Rights(old(View()), r)
    {
      if !id.Null? || params.None? || !params.value.Has("id") {
        return;
      }
      CancelRequest(params.value.Get("id"));
    }

    /** The application calls the done closure it was given. */
    method CallDoneClosure(respond: Option<Request>)
      requires respond in dones
      modifies this`dones, this`sent, this`emptyCalls
      ensures View() == Apply(old(View()), Done(respond))
    {
      dones := dones - multiset{respond};
      Respond(respond, Aborted);
    }

    /** The action lets go of the response callback it was given. */
    method ReleaseCallback(r: Request)
      requires View().table.Started(r) && mutex == None
      modifies this`retired
      ensures View() == Apply(old(View()), Retire(r))
    {
      retired := retired + {r};
    }
  }
}
