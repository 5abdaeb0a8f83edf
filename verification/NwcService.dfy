/** The service object around the payment protocol: the requests being handled, the
    prompts shown, the user's answers, and what a handler does under the wallet gate. */
module NwcService {
  import opened Prelude
  import opened NwcPayments
  import S = NwcStore

  lemma RunExtends(run: seq<State>, steps: seq<Step>, step: Step)
    requires Run(run, steps) && Enabled(run[|steps|], step)
    ensures Run(run + [Next(run[|steps|], step)], steps + [step])
  {
    var longer, all := run + [Next(run[|steps|], step)], steps + [step];
    forall i {:trigger all[i]} | 0 <= i < |all| ensures Leads(longer[i], all[i], longer[i + 1]) {
      if i < |steps| {
        assert Leads(run[i], steps[i], run[i + 1]);
      }
    }
  }

  /** Prompts of these connections. */
  function OfConnection(waiting: map<S.Id, Prompt>, connection: S.Id): set<S.Id> {
    set id | id in waiting && waiting[id].connection == connection
  }

  function PromptsOfAccount(waiting: map<S.Id, Prompt>, account: int): set<S.Id> {
    set id | id in waiting && waiting[id].account == account
  }

  /** The tables and the two maps the service holds. The ghost history makes every sequence
      of calls a run of the machine, so its results hold of every service; `state` also has
      what the service only sees: the vault, the clock, the handlers and their phases. */
  class Service {
    const store: S.Store
    var waiting: map<S.Id, Prompt>
    var activeRequests: set<S.Id>
    ghost var state: State
    ghost var run: seq<State>
    ghost var steps: seq<Step>

    /** The fields are those of this state. */
    ghost predicate Shows(s: State)
      reads this, store
    {
      && s.connections == store.connections && s.requests == store.requests && s.payments == store.payments
      && s.active == activeRequests && s.waiting == waiting
    }

    ghost predicate Valid()
      reads this, store
    {
      Run(run, steps) && run[|steps|] == state && Shows(state)
    }

    /** Handler `t` is at this point. */
    ghost predicate Runs(t: int, task: Task)
      reads this
    {
      t in state.tasks && state.tasks[t] == task
    }

    constructor (store: S.Store, accounts: map<int, S.Id>, now: nat)
      requires store.connections == map[] && store.requests == map[] && store.payments == map[]
      ensures this.store == store && Valid() && Initial(state)
    {
      this.store, waiting, activeRequests, steps := store, map[], {}, [];
      var start :=
        State(map[], map[], map[], accounts, {}, map[], map[], Nobody, {}, now, 0, multiset{}, []);
      state, run := start, [start];
    }

    /** Takes note of a step whose writes have just been made. */
    ghost method Note(step: Step)
      requires Run(run, steps) && run[|steps|] == state && Enabled(state, step) && Shows(Next(state, step))
      modifies this`state, this`run, this`steps
      ensures Valid() && state == Next(old(state), step) && Took([step])
    {
      RunExtends(run, steps, step);
      state := Next(state, step);
      run, steps := run + [state], steps + [step];
    }

    ghost method NoteHandle(t: int, step: HandlerStep)
      requires Run(run, steps) && run[|steps|] == state && HandlerEnabled(state, t, step)
        && Shows(HandlerNext(state, t, step))
      modifies this`state, this`run, this`steps
      ensures Valid() && state == HandlerNext(old(state), t, step) && Took([Handle(t, step)])
    {
      Note(Handle(t, step));
    }

    ghost method NoteAsk(t: int, step: AskStep)
      requires Run(run, steps) && run[|steps|] == state && AskEnabled(state, t, step) && Shows(AskNext(state, t, step))
      modifies this`state, this`run, this`steps
      ensures Valid() && state == AskNext(old(state), t, step) && Took([Ask(t, step)])
    {
      Note(Ask(t, step));
    }

    ghost method NoteSettle(t: int, step: SettleStep)
      requires Run(run, steps) && run[|steps|] == state && SettleEnabled(state, t, step)
        && Shows(SettleNext(state, t, step))
      modifies this`state, this`run, this`steps
      ensures Valid() && state == SettleNext(old(state), t, step) && Took([Step.Settle(t, step)])
    {
      Note(Step.Settle(t, step));
    }

    ghost method NoteWorld(step: WorldStep)
      requires Run(run, steps) && run[|steps|] == state && WorldEnabled(state, step) && Shows(WorldNext(state, step))
      modifies this`state, this`run, this`steps
      ensures Valid() && state == WorldNext(old(state), step) && Took([World(step)])
    {
      Note(World(step));
    }

    /** The history grew by these steps. */
    twostate predicate Took(more: seq<Step>)
      reads this
    {
      old(run) <= run && steps == old(steps) + more
    }

    twostate predicate Grew()
      reads this
    {
      old(run) <= run && old(steps) <= steps
    }

    // ----- Handling a request -----

    /** Starts handling a request unless its connection is revoked or a copy of it is
        being handled already. */
    method Enter(t: int, task: Task) returns (entered: bool)
      requires Valid() && Runs(t, task) && task.phase == Received
      modifies this
      ensures Valid() && (entered <==> S.Active(store.connections, task.connection) && task.id !in old(activeRequests))
      ensures Took([Handle(t, if entered then HandlerStep.Enter else Refuse)])
    {
      entered := task.connection in store.connections && !store.connections[task.connection].revoked
                 && task.id !in activeRequests;
      if entered {
        activeRequests := activeRequests + {task.id};
        NoteHandle(t, HandlerStep.Enter);
      } else {
        NoteHandle(t, Refuse);
      }
    }

    /** Admits the request durably. A replay that has its response ends here with it. */
    method Begin(t: int, task: Task, now: nat) returns (admission: S.Begin, reply: Option<string>)
      requires Valid() && Runs(t, task) && task.phase == Guarded && state.clock == now
      modifies this, store
      ensures Valid() && Grew() && admission == S.Admission(old(store.requests), task.id, task.connection, now)
      ensures store.requests == S.Admitted(old(store.requests), task.id, task.connection, now)
      ensures reply == if admission == S.Replay then Cached(state, task.id) else None
      ensures Runs(t, task.(admission := admission, phase := if reply.Some? then Done else Begun))
      ensures activeRequests == if reply.Some? then old(activeRequests) - {task.id} else old(activeRequests)
    {
      admission := Admit(t, task, now);
      reply := None;
      if admission == S.Replay {
        reply := Replayed(t, task.(admission := admission, phase := Begun));
      }
    }

    method Admit(t: int, task: Task, now: nat) returns (admission: S.Begin)
      requires Valid() && Runs(t, task) && task.phase == Guarded && state.clock == now
      modifies this`state, this`run, this`steps, store
      ensures Valid() && Took([Handle(t, BeginRequest)])
      ensures admission == S.Admission(old(store.requests), task.id, task.connection, now)
      ensures store.requests == S.Admitted(old(store.requests), task.id, task.connection, now)
      ensures Runs(t, task.(admission := admission, phase := Begun))
    {
      admission := store.Begin(task.id, task.connection, now);
      NoteHandle(t, BeginRequest);
    }

    method Replayed(t: int, task: Task) returns (reply: Option<string>)
      requires Valid() && Runs(t, task) && task.phase == Begun && task.admission == S.Replay
      modifies this
      ensures Valid() && Took(if reply.Some? then [Handle(t, ReplayCached)] else [])
      ensures reply == Cached(old(state), task.id) == Cached(state, task.id)
      ensures Runs(t, task.(phase := if reply.Some? then Done else Begun))
      ensures activeRequests == if reply.Some? then old(activeRequests) - {task.id} else old(activeRequests)
    {
      reply := store.Cached(task.id);
      if reply.Some? {
        activeRequests := activeRequests - {task.id};
        NoteHandle(t, ReplayCached);
      }
    }

    /** Stores the response and drops the guard. */
    method Finish(t: int, task: Task, response: string)
      requires Valid() && Runs(t, task) && task.phase == Replying
      modifies this, store
      ensures Valid() && Took([Handle(t, HandlerStep.Finish(response))]) && Cached(old(state), task.id).None?
      ensures task.id in store.requests ==> store.requests[task.id].response == Some(response)
    {
      Unanswered(t);
      store.Finish(task.id, response);
      activeRequests := activeRequests - {task.id};
      NoteHandle(t, HandlerStep.Finish(response));
    }

    /** A handler that is about to answer has no response stored. */
    lemma Unanswered(t: int)
      requires Valid() && t in state.tasks && state.tasks[t].phase == Replying
      ensures Cached(state, state.tasks[t].id).None?
    {
      RunKeeps(run, steps, |steps|);
      assert TaskOk(state, t);
    }

    // ----- Asking the user -----

    /** Shows the prompt, open for two minutes, the review's life and the request's deadline
        at most. */
    method Show(t: int, task: Task, reviewExpiry: nat, now: nat) returns (expiry: nat)
      requires Valid() && Runs(t, task) && task.phase == Deciding && MayPay(task) && state.clock == now
      modifies this
      ensures Valid() && expiry == Min(reviewExpiry, Min(task.deadline, now + 120))
      ensures Took([Ask(t, AskStep.Show(expiry))])
    {
      expiry := Min(reviewExpiry, Min(task.deadline, now + 120));
      waiting := waiting[task.id := Prompt(t, task.connection, task.account, expiry)];
      NoteAsk(t, AskStep.Show(expiry));
    }

    /** Resolves a prompt once: an answer that counts takes it off the list, one that does
        not leaves it there. `listening` says whether its handler still waits. */
    method Answer(id: S.Id, allow: bool, unlocked: set<int>, now: nat, listening: bool) returns (ok: bool)
      requires Valid() && unlocked == state.unlocked && now == state.clock
      requires id in waiting && waiting[id].task in state.tasks ==>
        (listening <==> state.tasks[waiting[id].task].phase.Prompted?)
      modifies this
      ensures Valid()
      ensures ok <==>
        && id in old(waiting) && listening
        && (allow ==>
              && old(waiting)[id].account in unlocked && now < old(waiting)[id].expiry
              && old(waiting)[id].connection in store.connections
              && !store.connections[old(waiting)[id].connection].revoked)
      ensures !(id in old(waiting) && CanAnswer(old(state), old(waiting)[id], allow)) ==>
        state == old(state) && Took([])
      ensures id in old(waiting) && CanAnswer(old(state), old(waiting)[id], allow) ==>
        Took([Ask(old(waiting)[id].task, if listening then AskStep.Answer(id, allow) else AnswerLate(id))])
    {
      if id !in waiting {
        return false;
      }
      var item := waiting[id];
      if allow {
        if item.account !in unlocked {
          return false;
        }
        var active := item.connection in store.connections && !store.connections[item.connection].revoked;
        if now >= item.expiry || !active {
          return false;
        }
      }
      Listed(id);
      waiting := waiting - {id};
      NoteAsk(item.task, if listening then AskStep.Answer(id, allow) else AnswerLate(id));
      return listening;
    }

    /** A listed prompt has its handler. */
    lemma Listed(id: S.Id)
      requires Valid() && id in waiting
      ensures waiting[id].task in state.tasks
    {
      RunKeeps(run, steps, |steps|);
      assert PromptOk(state, id);
    }

    /** Waits, and takes the prompt off the list. `turns` is what the handler saw: a yes it
        heard is the answer given to it, and permission at the last turn is permission now. */
    method Resolve(t: int, task: Task, turns: seq<Turn>) returns (approved: bool)
      requires Valid() && Runs(t, task) && task.phase.Prompted?
      requires (exists k :: ApprovedAt(turns, k)) ==> task.phase.answer == Some(true) && Permitted(state, task)
      modifies this
      ensures Valid() && (approved <==> exists k :: ApprovedAt(turns, k))
      ensures Took(if approved then [Ask(t, WaitApproved)] else [Ask(t, WaitDeclined), Ask(t, DropPrompt)])
    {
      approved := WaitForApproval(turns);
      if approved {
        waiting := waiting - {task.id};
        NoteAsk(t, WaitApproved);
      } else {
        NoteAsk(t, WaitDeclined);
        waiting := waiting - {task.id};
        NoteAsk(t, DropPrompt);
      }
    }

    // ----- Under the wallet gate -----

    /** An approved payment, with the gate free: checks again, claims, confirms. It is
        confirmed exactly when the approval has not expired, the wallet is unlocked and on
        file, the connection live, and its identity and hash were never claimed; and then
        nothing was confirmed for them before. */
    method Settle(t: int, task: Task, now: nat, unlocked: set<int>, identity: Option<S.Id>) returns (paid: bool)
      requires Valid() && Runs(t, task) && task.phase.Approved? && task.call.PayInvoice?
      requires state.gate == Nobody && state.clock == now && state.unlocked == unlocked
      requires identity == if task.account in state.accounts then Some(state.accounts[task.account]) else None
      modifies this, store
      ensures Valid() && Grew() && state.gate == Nobody
      ensures paid <==>
        && now < task.phase.expiry && task.account in unlocked && identity.Some?
        && task.connection in old(store.connections) && !old(store.connections)[task.connection].revoked
        && (identity.value, task.call.hash) !in old(store.payments)
      ensures !paid ==> state.attempts == old(state.attempts) && store.payments == old(store.payments)
      ensures paid ==> Paid(old(state.attempts), t, task, identity.value)
    {
      TakeGate(t, task);
      var good := Recheck(t, task.(phase := Gated(task.phase.expiry)), now, unlocked, identity);
      if !good {
        return false;
      }
      paid := ClaimAndPay(t, task.(phase := Checked(identity.value)), identity.value);
    }

    /** One confirmation more than these, the first for its identity and hash, and claimed. */
    ghost predicate Paid(before: seq<Attempt>, t: int, task: Task, identity: S.Id)
      requires task.call.PayInvoice?
      reads this, store
    {
      var key := (identity, task.call.hash);
      && key in store.payments && store.payments[key] == task.id
      && state.attempts == before + [Attempt(t, task.id, task.connection, identity, task.call.hash)]
      && forall i :: 0 <= i < |before| ==> Key(before[i]) != key
    }

    method TakeGate(t: int, task: Task)
      requires Valid() && Runs(t, task) && task.phase.Approved? && state.gate == Nobody
      modifies this`state, this`run, this`steps
      ensures Valid() && Took([Step.Settle(t, SettleStep.TakeGate)])
      ensures state.gate == Handler(t) && Runs(t, task.(phase := Gated(task.phase.expiry)))
      ensures Rest(old(state))
    {
      NoteSettle(t, SettleStep.TakeGate);
    }

    /** Of a state, what the steps of a payment before its confirmation leave alone. */
    ghost predicate Rest(before: State)
      reads this
    {
      && state.attempts == before.attempts && state.accounts == before.accounts
      && state.connections == before.connections && state.unlocked == before.unlocked && state.clock == before.clock
    }

    method Recheck(t: int, task: Task, now: nat, unlocked: set<int>, identity: Option<S.Id>) returns (good: bool)
      requires Valid() && Runs(t, task) && task.phase.Gated? && state.clock == now && state.unlocked == unlocked
      requires identity == if task.account in state.accounts then Some(state.accounts[task.account]) else None
      modifies this`state, this`run, this`steps
      ensures Valid() && Took([Step.Settle(t, if good then RecheckPassed else RecheckFailed)]) && Rest(old(state))
      ensures good <==>
        && now < task.phase.expiry && task.account in unlocked && identity.Some?
        && task.connection in store.connections && !store.connections[task.connection].revoked
      ensures if good then Runs(t, task.(phase := Checked(identity.value))) else state.gate == Nobody
    {
      good := now < task.phase.expiry && task.account in unlocked && identity != None
              && task.connection in store.connections && !store.connections[task.connection].revoked;
      if good {
        NoteSettle(t, RecheckPassed);
      } else {
        NoteSettle(t, RecheckFailed);
      }
    }

    method ClaimAndPay(t: int, task: Task, identity: S.Id) returns (paid: bool)
      requires Valid() && Runs(t, task) && task.phase == Checked(identity) && task.call.PayInvoice?
      modifies this, store
      ensures Valid() && Grew() && state.gate == Nobody
      ensures paid <==> (identity, task.call.hash) !in old(store.payments)
      ensures !paid ==> state.attempts == old(state.attempts) && store.payments == old(store.payments)
      ensures paid ==> Paid(old(state.attempts), t, task, identity)
    {
      paid := store.Claim(identity, task.call.hash, task.id);
      if paid {
        NoteSettle(t, SettleStep.Claim);
        Confirm(t, task.(phase := Claimed(identity, task.call.hash)));
        AttemptsDiffer();
        NewKey(old(state.attempts), Attempt(t, task.id, task.connection, identity, task.call.hash));
      } else {
        NoteSettle(t, AlreadyClaimed);
      }
    }

    method Confirm(t: int, task: Task)
      requires Valid() && Runs(t, task) && task.phase.Claimed?
      modifies this`state, this`run, this`steps
      ensures Valid() && Took([Step.Settle(t, Pay)]) && state.gate == Nobody
      ensures state.attempts ==
        old(state.attempts) + [Attempt(t, task.id, task.connection, task.phase.identity, task.phase.hash)]
    {
      NoteSettle(t, Pay);
    }

    lemma AttemptsDiffer()
      requires Valid()
      ensures DistinctKeys(state.attempts)
    {
      RunKeeps(run, steps, |steps|);
    }

    // ----- Revocation and account deletion -----

    method BeginCommand()
      requires Valid() && state.gate == Nobody
      modifies this`state, this`run, this`steps
      ensures Valid() && Took([World(CommandBegins)]) && state == old(state).(gate := Command)
    {
      NoteWorld(CommandBegins);
    }

    method EndCommand()
      requires Valid() && state.gate == Command
      modifies this`state, this`run, this`steps
      ensures Valid() && Took([World(CommandEnds)]) && state == old(state).(gate := Nobody)
    {
      NoteWorld(CommandEnds);
    }

    method RevokeRow(account: int, id: S.Id) returns (ok: bool)
      requires Valid() && state.gate == Command && account in state.unlocked
      modifies this`state, this`run, this`steps, store`connections
      ensures Valid() && Took(if ok then [World(WorldStep.RevokeRow(id, account))] else [])
      ensures ok <==> S.Active(old(store.connections), id) && old(store.connections)[id].account == account
      ensures state ==
        if ok then old(state).(connections := S.Revoked(old(store.connections), {id})) else old(state)
    {
      ok := store.Revoke(id, account);
      if ok {
        NoteWorld(WorldStep.RevokeRow(id, account));
      }
    }

    method DropConnection(id: S.Id)
      requires Valid()
      modifies this`waiting, this`state, this`run, this`steps
      ensures Valid() && waiting == old(waiting) - OfConnection(old(waiting), id)
      ensures forall r :: r in waiting <==> r in old(waiting) && old(waiting)[r].connection != id
      ensures Took([World(DropPrompts(OfConnection(old(waiting), id)))]) && state == old(state).(waiting := waiting)
    {
      ghost var gone := OfConnection(waiting, id);
      waiting := map r | r in waiting && waiting[r].connection != id :: waiting[r];
      NoteWorld(DropPrompts(gone));
    }

    method DropAccount(account: int)
      requires Valid()
      modifies this`waiting, this`state, this`run, this`steps
      ensures Valid() && waiting == old(waiting) - PromptsOfAccount(old(waiting), account)
      ensures forall r :: r in waiting <==> r in old(waiting) && old(waiting)[r].account != account
      ensures Took([World(DropPrompts(PromptsOfAccount(old(waiting), account)))])
      ensures state == old(state).(waiting := waiting)
    {
      ghost var gone := PromptsOfAccount(waiting, account);
      waiting := map r | r in waiting && waiting[r].account != account :: waiting[r];
      NoteWorld(DropPrompts(gone));
    }

    /** `nwc_revoke`: under the gate, with the wallet unlocked, a live connection of it. */
    method RevokeConnection(account: int, id: S.Id, unlocked: set<int>) returns (ok: bool)
      requires Valid() && state.gate == Nobody && unlocked == state.unlocked
      modifies this, store
      ensures Valid() && Grew()
      ensures ok <==>
        account in unlocked && S.Active(old(store.connections), id) && old(store.connections)[id].account == account
      ensures state ==
        if ok then old(state).(connections := S.Revoked(old(store.connections), {id}),
                               waiting := old(waiting) - OfConnection(old(waiting), id))
        else old(state)
      ensures ok ==>
        && id in store.connections && store.connections[id].revoked
        && forall r :: r in waiting <==> r in old(waiting) && old(waiting)[r].connection != id
    {
      BeginCommand();
      ok := false;
      if account in unlocked {
        ok := RevokeRow(account, id);
        if ok {
          DropConnection(id);
        }
      }
      EndCommand();
    }

    method RevokeRows(account: int)
      requires Valid() && state.gate == Command
      modifies this`state, this`run, this`steps, store`connections
      ensures Valid() && Took([World(WorldStep.RevokeRows(account))])
      ensures state == old(state).(
        connections := S.Revoked(old(store.connections), S.OfAccount(old(store.connections), account)))
    {
      store.RevokeAccount(account);
      NoteWorld(WorldStep.RevokeRows(account));
    }

    /** `delete_account`: no connection, prompt, key or identity of it remains. */
    method RemoveAccount(account: int)
      requires Valid() && state.gate == Nobody
      modifies this, store
      ensures Valid() && Grew()
      ensures state == old(state).(
        connections := S.Revoked(old(store.connections), S.OfAccount(old(store.connections), account)),
        waiting := old(waiting) - PromptsOfAccount(old(waiting), account),
        accounts := old(state.accounts) - {account}, unlocked := old(state.unlocked) - {account})
      ensures forall c :: c in store.connections && store.connections[c].account == account ==>
        store.connections[c].revoked
      ensures forall r :: r in waiting <==> r in old(waiting) && old(waiting)[r].account != account
    {
      BeginCommand();
      RevokeRows(account);
      DropAccount(account);
      NoteWorld(DeleteAccount(account));
      EndCommand();
    }
  }

  lemma NewKey(before: seq<Attempt>, last: Attempt)
    requires DistinctKeys(before + [last])
    ensures forall i :: 0 <= i < |before| ==> Key(before[i]) != Key(last)
  {
    var all := before + [last];
    forall i | 0 <= i < |before| ensures Key(before[i]) != Key(last) {
      assert all[i] == before[i] && all[|before|] == last;
    }
  }

  // ----- Waiting for the user -----

  datatype Arrival = Nothing | Said(allow: bool) | Closed

  /** One turn of the waiting loop: whether the connection was active and the wallet held
      at its start, what arrived within its quarter second, and the same check again. The
      timeout falls after the last turn. */
  datatype Turn = Turn(permitted: bool, arrival: Arrival, stillPermitted: bool)

  ghost predicate Quiet(turns: seq<Turn>, k: nat) {
    k <= |turns| && forall j :: 0 <= j < k ==> turns[j].permitted && turns[j].arrival == Nothing
  }

  ghost predicate ApprovedAt(turns: seq<Turn>, k: nat) {
    && k < |turns| && Quiet(turns, k)
    && turns[k].permitted && turns[k].arrival == Said(true) && turns[k].stillPermitted
  }

  /** Approval needs an explicit yes, permission at that moment, and permission at every
      turn before; silence, a no, a closed channel and the timeout all decline. */
  method WaitForApproval(turns: seq<Turn>) returns (approved: bool)
    ensures approved <==> exists k :: ApprovedAt(turns, k)
    ensures approved <==> exists k {:trigger turns[k]} ::
      && 0 <= k < |turns| && turns[k].permitted && turns[k].arrival == Said(true) && turns[k].stillPermitted
      && forall j {:trigger turns[j]} :: 0 <= j < k ==> turns[j].permitted && turns[j].arrival == Nothing
  {
    var i := 0;
    while i < |turns|
      invariant 0 <= i <= |turns| && Quiet(turns, i)
    {
      if !turns[i].permitted {
        return false;
      }
      match turns[i].arrival
      case Said(allow) =>
        assert allow && turns[i].stillPermitted ==> ApprovedAt(turns, i);
        return allow && turns[i].stillPermitted;
      case Closed =>
        return false;
      case Nothing =>
        i := i + 1;
    }
    return false;
  }

  /** One look at the vault while a request waits for it to be unlocked. */
  datatype Look = Look(held: bool, now: nat, active: bool, account: bool)

  ghost predicate Hopeful(looks: seq<Look>, deadline: nat, k: nat) {
    k <= |looks| && forall j :: 0 <= j < k ==>
      !looks[j].held && looks[j].now < deadline && looks[j].active && looks[j].account
  }

  /** Proceeds exactly when the wallet is unlocked before the deadline passed, the
      connection was revoked or the account went. */
  method WaitForUnlock(looks: seq<Look>, deadline: nat) returns (unlocked: bool)
    ensures unlocked <==> exists k :: 0 <= k < |looks| && Hopeful(looks, deadline, k) && looks[k].held
    ensures unlocked <==> exists k {:trigger looks[k]} ::
      && 0 <= k < |looks| && looks[k].held
      && forall j {:trigger looks[j]} :: 0 <= j < k ==>
        !looks[j].held && looks[j].now < deadline && looks[j].active && looks[j].account
  {
    var i := 0;
    while i < |looks|
      invariant 0 <= i <= |looks| && Hopeful(looks, deadline, i)
    {
      if looks[i].held {
        return true;
      }
      if looks[i].now >= deadline || !looks[i].active || !looks[i].account {
        return false;
      }
      i := i + 1;
    }
    return false;
  }
}
