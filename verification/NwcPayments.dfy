/** The pay_invoice protocol as a machine over durable tables and volatile tasks.

    Every step is one segment of a handler, of the user's answer or of a gated
    command that runs without yielding; handlers, duplicates, revocations, locks and
    crashes interleave between steps. */
module NwcPayments {
  import opened Prelude
  import opened NwcStore

  const MAX_TASKS: nat := 16

  /** A decrypted request. Decryption is a function of the event, so its outcome is
      fixed when the event is received. */
  datatype Call = Undecodable | Other | PayInvoice(hash: Id)

  datatype Phase =
    | Received                                       // validated, handler spawned
    | Guarded                                        // id inserted in active_requests
    | Begun                                          // admission recorded
    | Deciding                                       // vault held, nothing cached
    | Prompted(expiry: nat, answer: Option<bool>)    // shown to the user
    | Declined                                       // not approved; prompt still listed
    | Approved(expiry: nat)                          // explicitly allowed; gate not yet taken
    | Gated(expiry: nat)                             // wallet gate held
    | Checked(identity: Id)                      // rechecked under the gate
    | Claimed(identity: Id, hash: Id)        // payment hash durably claimed
    | Replying
    | Done

  datatype Task = Task(
    id: Id, connection: Id, account: int, deadline: nat, call: Call,
    admission: Begin, phase: Phase)

  datatype Prompt = Prompt(task: int, connection: Id, account: int, expiry: nat)

  /** Who holds the wallet gate. */
  datatype Holder = Nobody | Handler(task: int) | Command

  /** One entry into `pay_reviewed`. */
  datatype Attempt = Attempt(task: int, id: Id, connection: Id, identity: Id, hash: Id)

  datatype State = State(
    // durable
    connections: Connections, requests: Requests, payments: Payments, accounts: map<int, Id>,
    // volatile
    active: set<Id>, tasks: map<int, Task>, waiting: map<Id, Prompt>,
    gate: Holder, unlocked: set<int>, clock: nat,
    // history
    next: int, allows: multiset<int>, attempts: seq<Attempt>)

  // ----- Steps of a handler before it asks the user, and its reply -----

  datatype HandlerStep =
    | Enter          // inserts the guard
    | Refuse         // revoked connection, or the id is already being handled
    | BeginRequest
    | ReplayCached
    | GiveUp         // deadline, revocation or account removal while locked
    | Proceed
    | Discard        // undecodable: answered with nothing
    | Decide         // any answer other than a new payment
    | ReviewFailed
    | Finish(response: string)

  function TaskAt(s: State, t: int, phase: Phase): State
    requires t in s.tasks
  {
    s.(tasks := s.tasks[t := s.tasks[t].(phase := phase)])
  }

  /** Between inserting its id in `active_requests` and dropping that guard. */
  predicate Guarding(phase: Phase) { phase != Received && phase != Done }

  /** A handler that ends drops its guard and its permit. */
  function Ended(s: State, t: int): State
    requires t in s.tasks
  {
    TaskAt(s, t, Done).(active := s.active - {s.tasks[t].id})
  }

  function Cached(s: State, id: Id): Option<string> {
    if id in s.requests then s.requests[id].response else None
  }

  predicate MayPay(task: Task) { task.call.PayInvoice? && task.admission == New }

  predicate CanEnter(s: State, task: Task) { Active(s.connections, task.connection) && task.id !in s.active }

  predicate HandlerEnabled(s: State, t: int, step: HandlerStep) {
    t in s.tasks &&
    var task := s.tasks[t];
    match step
    case Enter => task.phase == Received && CanEnter(s, task)
    case Refuse => task.phase == Received && !CanEnter(s, task)
    case BeginRequest => task.phase == Guarded
    case ReplayCached => task.phase == Begun && task.admission == Replay && Cached(s, task.id).Some?
    case GiveUp =>
      && task.phase == Begun && task.account !in s.unlocked
      && (s.clock >= task.deadline || !Active(s.connections, task.connection) || task.account !in s.accounts)
    case Proceed =>
      && task.phase == Begun && task.account in s.unlocked
      && (task.admission == Replay ==> Cached(s, task.id).None?)
    case Discard => task.phase == Deciding && task.call == Undecodable
    case Decide => task.phase == Deciding && task.call != Undecodable && !MayPay(task)
    case ReviewFailed => task.phase == Deciding && MayPay(task)
    case Finish(_) => task.phase == Replying
  }

  function HandlerNext(s: State, t: int, step: HandlerStep): State
    requires HandlerEnabled(s, t, step)
  {
    var task := s.tasks[t];
    match step
    case Enter => TaskAt(s, t, Guarded).(active := s.active + {task.id})
    case Refuse => TaskAt(s, t, Done)
    case BeginRequest =>
      var admission := Admission(s.requests, task.id, task.connection, s.clock);
      s.(tasks := s.tasks[t := task.(admission := admission, phase := Begun)],
         requests := Admitted(s.requests, task.id, task.connection, s.clock))
    case ReplayCached => Ended(s, t)
    case GiveUp => Ended(s, t)
    case Proceed => TaskAt(s, t, Deciding)
    case Discard => Ended(s, t).(requests := Answered(s.requests, task.id, ""))
    case Decide => TaskAt(s, t, Replying)
    case ReviewFailed => TaskAt(s, t, Replying)
    case Finish(response) => Ended(s, t).(requests := Answered(s.requests, task.id, response))
  }

  // ----- Steps that ask the user -----

  datatype AskStep =
    | Show(expiry: nat)
    | Answer(id: Id, allow: bool)   // the acting task is the one that prompted
    | AnswerLate(id: Id)            // the handler has stopped waiting: sending fails
    | WaitApproved
    | WaitDeclined                  // a no, a timeout, a revocation or a lock
    | DropPrompt

  predicate Permitted(s: State, task: Task) {
    Active(s.connections, task.connection) && task.account in s.unlocked
  }

  predicate CanAnswer(s: State, prompt: Prompt, allow: bool) {
    allow ==> prompt.account in s.unlocked && s.clock < prompt.expiry && Active(s.connections, prompt.connection)
  }

  predicate AskEnabled(s: State, t: int, step: AskStep) {
    t in s.tasks &&
    var task := s.tasks[t];
    match step
    case Show(expiry) =>
      task.phase == Deciding && MayPay(task) && expiry <= task.deadline && expiry <= s.clock + 120
    case Answer(id, allow) =>
      id in s.waiting && s.waiting[id].task == t && CanAnswer(s, s.waiting[id], allow) && task.phase.Prompted?
    case AnswerLate(id) => id in s.waiting && s.waiting[id].task == t && !task.phase.Prompted?
    case WaitApproved => task.phase.Prompted? && task.phase.answer == Some(true) && Permitted(s, task)
    case WaitDeclined => task.phase.Prompted?
    case DropPrompt => task.phase == Declined
  }

  function AskNext(s: State, t: int, step: AskStep): State
    requires AskEnabled(s, t, step)
  {
    var task := s.tasks[t];
    match step
    case Show(expiry) =>
      TaskAt(s, t, Prompted(expiry, None))
        .(waiting := s.waiting[task.id := Prompt(t, task.connection, task.account, expiry)])
    case Answer(id, allow) =>
      TaskAt(s, t, Prompted(task.phase.expiry, Some(allow)))
        .(waiting := s.waiting - {id}, allows := s.allows + (if allow then multiset{t} else multiset{}))
    case AnswerLate(id) => s.(waiting := s.waiting - {id})
    case WaitApproved => TaskAt(s, t, Approved(task.phase.expiry)).(waiting := s.waiting - {task.id})
    case WaitDeclined => TaskAt(s, t, Declined)
    case DropPrompt => TaskAt(s, t, Replying).(waiting := s.waiting - {task.id})
  }

  // ----- Steps under the wallet gate -----

  datatype SettleStep =
    | TakeGate
    | RecheckPassed
    | RecheckFailed
    | Claim
    | AlreadyClaimed
    | Pay

  predicate StillGood(s: State, task: Task, expiry: nat) {
    s.clock < expiry && Permitted(s, task) && task.account in s.accounts
  }

  function PayKey(task: Task): (Id, Id)
    requires task.phase.Checked? && task.call.PayInvoice?
  {
    (task.phase.identity, task.call.hash)
  }

  predicate SettleEnabled(s: State, t: int, step: SettleStep) {
    t in s.tasks &&
    var task := s.tasks[t];
    match step
    case TakeGate => task.phase.Approved? && s.gate == Nobody
    case RecheckPassed => task.phase.Gated? && StillGood(s, task, task.phase.expiry)
    case RecheckFailed => task.phase.Gated? && !StillGood(s, task, task.phase.expiry)
    case Claim => task.phase.Checked? && task.call.PayInvoice? && PayKey(task) !in s.payments
    case AlreadyClaimed => task.phase.Checked? && task.call.PayInvoice? && PayKey(task) in s.payments
    case Pay => task.phase.Claimed?
  }

  function SettleNext(s: State, t: int, step: SettleStep): State
    requires SettleEnabled(s, t, step)
  {
    var task := s.tasks[t];
    match step
    case TakeGate => TaskAt(s, t, Gated(task.phase.expiry)).(gate := Handler(t))
    case RecheckPassed => TaskAt(s, t, Checked(s.accounts[task.account]))
    case RecheckFailed => TaskAt(s, t, Replying).(gate := Nobody)
    case Claim =>
      TaskAt(s, t, Claimed(task.phase.identity, task.call.hash))
        .(payments := s.payments[PayKey(task) := task.id])
    case AlreadyClaimed => TaskAt(s, t, Replying).(gate := Nobody)
    case Pay =>
      TaskAt(s, t, Replying).(gate := Nobody,
        attempts := s.attempts + [Attempt(t, task.id, task.connection, task.phase.identity, task.phase.hash)])
  }

  // ----- Everything else: relay, commands, clock, lock, crash -----

  datatype WorldStep =
    | Receive(id: Id, connection: Id, account: int, deadline: nat, call: Call)
    | CommandBegins
    | RevokeRow(id: Id, account: int)
    | RevokeRows(account: int)
    | DropPrompts(gone: set<Id>)
    | DeleteAccount(account: int)
    | CommandEnds
    | Pair(id: Id, account: int, mint: string)
    | AddAccount(account: int, identity: Id)
    | LockAll
    | Unlock(accounts: set<int>)
    | Advance(to: nat)
    | Crash

  predicate WorldEnabled(s: State, step: WorldStep) {
    match step
    case Receive(_, _, _, _, _) => |set t | t in s.tasks && s.tasks[t].phase != Done| < MAX_TASKS
    case CommandBegins => s.gate == Nobody
    case RevokeRow(id, account) =>
      s.gate == Command && account in s.unlocked && Active(s.connections, id) && s.connections[id].account == account
    case RevokeRows(_) => s.gate == Command
    case DropPrompts(_) => true
    case DeleteAccount(_) => s.gate == Command
    case CommandEnds => s.gate == Command
    case Pair(id, account, _) => id !in s.connections && account in s.unlocked
    case AddAccount(account, _) => account !in s.accounts
    case LockAll => true
    case Unlock(_) => true
    case Advance(to) => s.clock <= to
    case Crash => true
  }

  function WorldNext(s: State, step: WorldStep): State {
    match step
    case Receive(id, connection, account, deadline, call) =>
      s.(tasks := s.tasks[s.next := Task(id, connection, account, deadline, call, New, Received)], next := s.next + 1)
    case CommandBegins => s.(gate := Command)
    case RevokeRow(id, _) => s.(connections := Revoked(s.connections, {id}))
    case RevokeRows(account) => s.(connections := Revoked(s.connections, OfAccount(s.connections, account)))
    case DropPrompts(gone) => s.(waiting := s.waiting - gone)
    case DeleteAccount(account) => s.(accounts := s.accounts - {account}, unlocked := s.unlocked - {account})
    case CommandEnds => s.(gate := Nobody)
    case Pair(id, account, mint) => s.(connections := s.connections[id := Connection(account, mint, false)])
    case AddAccount(account, identity) => s.(accounts := s.accounts[account := identity])
    case LockAll => s.(unlocked := {})
    case Unlock(accounts) => s.(unlocked := s.unlocked + accounts)
    case Advance(to) => s.(clock := to)
    case Crash => s.(active := {}, tasks := map[], waiting := map[], gate := Nobody, unlocked := {})
  }

  // ----- Runs -----

  datatype Step =
    | Handle(t: int, handling: HandlerStep)
    | Ask(t: int, asking: AskStep)
    | Settle(t: int, settling: SettleStep)
    | World(world: WorldStep)

  predicate Enabled(s: State, step: Step) {
    match step
    case Handle(t, h) => HandlerEnabled(s, t, h)
    case Ask(t, a) => AskEnabled(s, t, a)
    case Settle(t, x) => SettleEnabled(s, t, x)
    case World(w) => WorldEnabled(s, w)
  }

  function Next(s: State, step: Step): State
    requires Enabled(s, step)
  {
    match step
    case Handle(t, h) => HandlerNext(s, t, h)
    case Ask(t, a) => AskNext(s, t, a)
    case Settle(t, x) => SettleNext(s, t, x)
    case World(w) => WorldNext(s, w)
  }

  predicate Initial(s: State) {
    && s.requests == map[] && s.payments == map[] && s.connections == map[]
    && s.active == {} && s.tasks == map[] && s.waiting == map[]
    && s.gate == Nobody && s.allows == multiset{} && s.attempts == []
  }

  ghost predicate Leads(s: State, step: Step, v: State) {
    Enabled(s, step) && v == Next(s, step)
  }

  ghost predicate Run(run: seq<State>, steps: seq<Step>) {
    && |run| == |steps| + 1
    && Initial(run[0])
    && forall i {:trigger steps[i]} :: 0 <= i < |steps| ==> Leads(run[i], steps[i], run[i + 1])
  }

  // ----- Invariants, one object at a time -----

  /** Past the cache lookup, a handler's row has no response yet. */
  predicate MustBeUnanswered(task: Task) {
    Guarding(task.phase) && task.phase != Guarded && (task.phase == Begun ==> task.admission != Replay)
  }

  predicate UnderGate(phase: Phase) { phase.Gated? || phase.Checked? || phase.Claimed? }

  /** In the paying branch of the handler. */
  predicate Paying(phase: Phase) {
    phase.Prompted? || phase.Declined? || phase.Approved? || UnderGate(phase)
  }

  /** The user allowed this task's prompt. */
  predicate WasAllowed(phase: Phase) {
    (phase.Prompted? && phase.answer == Some(true)) || phase.Approved? || UnderGate(phase)
  }

  predicate NotYetAnswered(phase: Phase) {
    phase.Received? || phase.Guarded? || phase.Begun? || phase.Deciding? || (phase.Prompted? && phase.answer == None)
  }

  predicate RowOk(s: State, task: Task) {
    && (Guarding(task.phase) ==> task.id in s.active)
    && (MustBeUnanswered(task) ==> Cached(s, task.id) == None)
  }

  predicate GateOk(s: State, t: int, task: Task) {
    && (UnderGate(task.phase) ==> s.gate == Handler(t))
    && (Paying(task.phase) ==> MayPay(task))
    && (task.phase.Checked? || task.phase.Claimed? ==>
          && Active(s.connections, task.connection)
          && task.account in s.accounts && s.accounts[task.account] == task.phase.identity)
    && (task.phase.Claimed? ==>
          && task.call.hash == task.phase.hash
          && (task.phase.identity, task.phase.hash) in s.payments
          && s.payments[(task.phase.identity, task.phase.hash)] == task.id)
  }

  predicate AllowOk(s: State, t: int) {
    && s.allows[t] <= 1
    && (t >= s.next ==> s.allows[t] == 0 && t !in s.tasks)
    && (t in s.tasks && WasAllowed(s.tasks[t].phase) ==> s.allows[t] == 1)
    && (t in s.tasks && NotYetAnswered(s.tasks[t].phase) ==> s.allows[t] == 0)
  }

  predicate TaskOk(s: State, t: int) {
    AllowOk(s, t) && (t in s.tasks ==> RowOk(s, s.tasks[t]) && GateOk(s, t, s.tasks[t]))
  }

  /** One handler at a time per request id. */
  predicate PairOk(s: State, t: int, u: int) {
    t in s.tasks && u in s.tasks && t != u && Guarding(s.tasks[t].phase) && Guarding(s.tasks[u].phase)
    ==> s.tasks[t].id != s.tasks[u].id
  }

  predicate PromptOk(s: State, id: Id) {
    id in s.waiting ==>
      var t := s.waiting[id].task;
      && t in s.tasks && s.tasks[t].id == id
      && (s.tasks[t].phase.Declined? || (s.tasks[t].phase.Prompted? && s.tasks[t].phase.answer == None))
  }

  ghost predicate TasksOk(s: State) {
    && (forall t :: TaskOk(s, t))
    && (forall t, u :: PairOk(s, t, u))
    && (forall id :: PromptOk(s, id))
  }

  lemma HandlerKeepsOwnTask(s: State, a: int, step: HandlerStep)
    requires HandlerEnabled(s, a, step) && TaskOk(s, a)
    ensures TaskOk(HandlerNext(s, a, step), a)
  {
  }

  lemma HandlerKeepsTask(s: State, a: int, step: HandlerStep, t: int)
    requires HandlerEnabled(s, a, step)
    requires TaskOk(s, a) && TaskOk(s, t) && PairOk(s, a, t)
    ensures TaskOk(HandlerNext(s, a, step), t)
  {
    if t == a {
      HandlerKeepsOwnTask(s, a, step);
    }
  }

  lemma HandlerKeepsIds(s: State, a: int, step: HandlerStep, t: int, u: int, id: Id)
    requires HandlerEnabled(s, a, step)
    requires PairOk(s, t, u) && PromptOk(s, id)
    requires TaskOk(s, t) && TaskOk(s, u)
    ensures PairOk(HandlerNext(s, a, step), t, u)
    ensures PromptOk(HandlerNext(s, a, step), id)
  {
  }

  lemma AskKeepsTask(s: State, a: int, step: AskStep, t: int)
    requires AskEnabled(s, a, step)
    requires TaskOk(s, a) && TaskOk(s, t)
    requires step.Answer? ==> PromptOk(s, step.id)
    ensures TaskOk(AskNext(s, a, step), t)
  {
  }

  lemma AskKeepsIds(s: State, a: int, step: AskStep, t: int, u: int, id: Id)
    requires AskEnabled(s, a, step)
    requires PairOk(s, t, u) && PromptOk(s, id)
    requires id in s.waiting ==> PairOk(s, s.waiting[id].task, a)
    requires TaskOk(s, a)
    requires step.Answer? ==> PromptOk(s, step.id)
    ensures PairOk(AskNext(s, a, step), t, u)
    ensures PromptOk(AskNext(s, a, step), id)
  {
  }

  lemma SettleKeepsTask(s: State, a: int, step: SettleStep, t: int)
    requires SettleEnabled(s, a, step)
    requires TaskOk(s, a) && TaskOk(s, t)
    ensures TaskOk(SettleNext(s, a, step), t)
  {
  }

  lemma SettleKeepsIds(s: State, a: int, step: SettleStep, t: int, u: int, id: Id)
    requires SettleEnabled(s, a, step)
    requires PairOk(s, t, u) && PromptOk(s, id)
    ensures PairOk(SettleNext(s, a, step), t, u)
    ensures PromptOk(SettleNext(s, a, step), id)
  {
  }

  lemma WorldKeeps(s: State, step: WorldStep, t: int, u: int, id: Id)
    requires WorldEnabled(s, step)
    requires TaskOk(s, t) && TaskOk(s, s.next) && PairOk(s, t, u) && PromptOk(s, id)
    ensures TaskOk(WorldNext(s, step), t)
    ensures PairOk(WorldNext(s, step), t, u)
    ensures PromptOk(WorldNext(s, step), id)
  {
  }

  lemma NextKeepsTasksOk(s: State, step: Step)
    requires Enabled(s, step) && TasksOk(s)
    ensures TasksOk(Next(s, step))
  {
    var v := Next(s, step);
    forall t ensures TaskOk(v, t) {
      StepKeeps(s, step, t, t, 0);
    }
    forall t, u ensures PairOk(v, t, u) {
      StepKeeps(s, step, t, u, 0);
    }
    forall id ensures PromptOk(v, id) {
      StepKeeps(s, step, 0, 0, id);
    }
  }

  lemma StepKeeps(s: State, step: Step, t: int, u: int, id: Id)
    requires Enabled(s, step) && TasksOk(s)
    ensures TaskOk(Next(s, step), t) && PairOk(Next(s, step), t, u) && PromptOk(Next(s, step), id)
  {
    assert TaskOk(s, t) && TaskOk(s, u) && PairOk(s, t, u) && PromptOk(s, id);
    match step
    case Handle(a, h) =>
      assert TaskOk(s, a) && PairOk(s, a, t);
      HandlerKeepsTask(s, a, h, t);
      HandlerKeepsIds(s, a, h, t, u, id);
    case Ask(a, h) =>
      assert TaskOk(s, a) && (h.Answer? ==> PromptOk(s, h.id));
      assert id in s.waiting ==> PairOk(s, s.waiting[id].task, a);
      AskKeepsTask(s, a, h, t);
      AskKeepsIds(s, a, h, t, u, id);
    case Settle(a, h) =>
      assert TaskOk(s, a);
      SettleKeepsTask(s, a, h, t);
      SettleKeepsIds(s, a, h, t, u, id);
    case World(w) =>
      assert TaskOk(s, s.next);
      WorldKeeps(s, w, t, u, id);
  }

  // ----- What each group of steps leaves alone -----

  predicate RevokedIn(s: State, connection: Id) {
    connection in s.connections && s.connections[connection].revoked
  }

  /** A claim that appears between two states was already there. */
  predicate ClaimKept(s: State, v: State, t: int) {
    t in v.tasks && v.tasks[t].phase.Claimed? ==> t in s.tasks && s.tasks[t].phase == v.tasks[t].phase
  }

  /** The row of the same admission is still there. */
  predicate SameRow(s: State, v: State, id: Id) {
    id in s.requests && id in v.requests && s.requests[id].created == v.requests[id].created
  }

  predicate ResponseKept(s: State, v: State, id: Id) {
    Cached(s, id).Some? && SameRow(s, v, id) ==> Cached(v, id) == Cached(s, id)
  }

  lemma HandlerFrame(s: State, a: int, step: HandlerStep, t: int, id: Id)
    requires HandlerEnabled(s, a, step)
    ensures var v := HandlerNext(s, a, step);
      && v.attempts == s.attempts && v.payments == s.payments
      && v.allows == s.allows && v.connections == s.connections
      && ClaimKept(s, v, t)
      && (TaskOk(s, a) ==> ResponseKept(s, v, id))
  {
  }

  lemma AskFrame(s: State, a: int, step: AskStep, t: int)
    requires AskEnabled(s, a, step)
    ensures var v := AskNext(s, a, step);
      && v.attempts == s.attempts && v.payments == s.payments
      && v.connections == s.connections && v.requests == s.requests
      && v.allows[t] == s.allows[t] + (if AllowsTask(Ask(a, step), t) then 1 else 0)
      && ClaimKept(s, v, t)
  {
  }

  lemma SettleFrame(s: State, a: int, step: SettleStep)
    requires SettleEnabled(s, a, step)
    ensures var v := SettleNext(s, a, step);
      && s.attempts <= v.attempts && v.allows == s.allows
      && v.connections == s.connections && v.requests == s.requests
  {
  }

  lemma WorldFrame(s: State, step: WorldStep, t: int, connection: Id)
    requires WorldEnabled(s, step)
    requires t >= s.next ==> t !in s.tasks
    ensures var v := WorldNext(s, step);
      && v.attempts == s.attempts && v.payments == s.payments
      && v.allows == s.allows && v.requests == s.requests
      && (RevokedIn(s, connection) ==> RevokedIn(v, connection))
      && ClaimKept(s, v, t)
  {
  }

  lemma NextFrame(s: State, step: Step, v: State, t: int, connection: Id, id: Id)
    requires Leads(s, step, v) && TasksOk(s)
    ensures
      && s.attempts <= v.attempts
      && v.allows[t] == s.allows[t] + (if AllowsTask(step, t) then 1 else 0)
      && (RevokedIn(s, connection) ==> RevokedIn(v, connection))
      && ResponseKept(s, v, id)
      && (!step.Settle? ==> v.attempts == s.attempts && v.payments == s.payments && ClaimKept(s, v, t))
  {
    match step
    case Handle(a, h) =>
      assert TaskOk(s, a);
      HandlerFrame(s, a, h, t, id);
    case Ask(a, h) => AskFrame(s, a, h, t);
    case Settle(a, h) => SettleFrame(s, a, h);
    case World(w) =>
      assert TaskOk(s, t);
      WorldFrame(s, w, t, connection);
  }

  // ----- Explicit approval -----

  predicate AllowsTask(step: Step, t: int) {
    step.Ask? && step.t == t && step.asking.Answer? && step.asking.allow
  }

  function CountAllows(steps: seq<Step>, t: int): nat {
    if steps == [] then 0
    else CountAllows(steps[..|steps| - 1], t) + (if AllowsTask(steps[|steps| - 1], t) then 1 else 0)
  }

  // ----- The ledger of payment attempts -----

  function Key(a: Attempt): (Id, Id) { (a.identity, a.hash) }

  ghost predicate AttemptsClaimed(s: State) {
    forall i :: 0 <= i < |s.attempts| ==>
      Key(s.attempts[i]) in s.payments && s.payments[Key(s.attempts[i])] == s.attempts[i].id
  }

  /** A claimed payment that has not been attempted yet is not in the ledger. */
  ghost predicate ClaimUnpaid(s: State, t: int) {
    t in s.tasks && s.tasks[t].phase.Claimed? ==>
      forall i :: 0 <= i < |s.attempts| ==> Key(s.attempts[i]) != (s.tasks[t].phase.identity, s.tasks[t].phase.hash)
  }

  ghost predicate DistinctKeys(attempts: seq<Attempt>) {
    forall i, j :: 0 <= i < j < |attempts| ==> Key(attempts[i]) != Key(attempts[j])
  }

  ghost predicate Ledger(s: State) {
    AttemptsClaimed(s) && DistinctKeys(s.attempts) && forall t :: ClaimUnpaid(s, t)
  }

  lemma SettleKeepsLedger(s: State, a: int, step: SettleStep)
    requires SettleEnabled(s, a, step) && TasksOk(s) && Ledger(s)
    ensures Ledger(SettleNext(s, a, step))
  {
    var v := SettleNext(s, a, step);
    assert TaskOk(s, a) && ClaimUnpaid(s, a);
    forall t ensures ClaimUnpaid(v, t) {
      assert ClaimUnpaid(s, t) && TaskOk(s, t);
    }
  }

  lemma NextKeepsLedger(s: State, step: Step)
    requires Enabled(s, step) && TasksOk(s) && Ledger(s)
    ensures Ledger(Next(s, step))
  {
    if step.Settle? {
      SettleKeepsLedger(s, step.t, step.settling);
    } else {
      var v := Next(s, step);
      NextFrame(s, step, v, 0, 0, 0);
      forall t ensures ClaimUnpaid(v, t) {
        NextFrame(s, step, v, t, 0, 0);
        assert ClaimUnpaid(s, t);
      }
    }
  }

  lemma {:induction false} RunKeeps(run: seq<State>, steps: seq<Step>, n: nat)
    requires Run(run, steps) && n <= |steps|
    ensures TasksOk(run[n]) && Ledger(run[n])
  {
    if n > 0 {
      RunKeeps(run, steps, n - 1);
      assert Leads(run[n - 1], steps[n - 1], run[n]);
      NextKeepsTasksOk(run[n - 1], steps[n - 1]);
      NextKeepsLedger(run[n - 1], steps[n - 1]);
    }
  }

  lemma {:induction false} AllowsCounted(run: seq<State>, steps: seq<Step>, n: nat, t: int)
    requires Run(run, steps) && n <= |steps|
    ensures run[n].allows[t] == CountAllows(steps[..n], t)
  {
    if n > 0 {
      AllowsCounted(run, steps, n - 1, t);
      assert Leads(run[n - 1], steps[n - 1], run[n]);
      RunKeeps(run, steps, n - 1);
      NextFrame(run[n - 1], steps[n - 1], run[n], t, 0, 0);
      assert steps[..n][..n - 1] == steps[..n - 1];
    }
  }

  // ----- Main results -----

  predicate Pays(step: Step, t: int) { step == Settle(t, Pay) }

  function PaidKey(s: State, step: Step): (Id, Id)
    requires step.Settle? && step.settling == Pay && Enabled(s, step)
  {
    (s.tasks[step.t].phase.identity, s.tasks[step.t].phase.hash)
  }

  /** Whenever a payment is confirmed: its connection is live, its wallet exists and has
      the identity the claim names, the gate is held, the claim is durable and its own,
      the request was a new admission, and the user allowed that prompt exactly once. */
  lemma ConfirmationIsAuthorized(run: seq<State>, steps: seq<Step>, k: nat, t: int)
    requires Run(run, steps) && k < |steps| && Pays(steps[k], t)
    ensures t in run[k].tasks
    ensures var task := run[k].tasks[t];
      && task.phase.Claimed?
      && Active(run[k].connections, task.connection)
      && task.account in run[k].accounts && run[k].accounts[task.account] == task.phase.identity
      && run[k].gate == Handler(t)
      && PaidKey(run[k], steps[k]) in run[k].payments && run[k].payments[PaidKey(run[k], steps[k])] == task.id
      && task.admission == New
    ensures CountAllows(steps[..k], t) == 1
  {
    RunKeeps(run, steps, k);
    assert Leads(run[k], steps[k], run[k + 1]) && TaskOk(run[k], t);
    AllowsCounted(run, steps, k, t);
  }

  lemma {:induction false} AttemptsGrow(run: seq<State>, steps: seq<Step>, k: nat, n: nat)
    requires Run(run, steps) && k <= n <= |steps|
    ensures run[k].attempts <= run[n].attempts
  {
    if k < n {
      AttemptsGrow(run, steps, k, n - 1);
      assert Leads(run[n - 1], steps[n - 1], run[n]);
      RunKeeps(run, steps, n - 1);
      NextFrame(run[n - 1], steps[n - 1], run[n], 0, 0, 0);
    }
  }

  /** In every run of deliveries, duplicates, answers, revocations, locks and crashes,
      one identity's payment hash reaches confirmation at most once. */
  lemma PaidAtMostOnce(run: seq<State>, steps: seq<Step>, j: nat, k: nat, t: int, u: int)
    requires Run(run, steps) && j < k < |steps|
    requires Pays(steps[j], t) && Pays(steps[k], u)
    ensures Enabled(run[j], steps[j]) && Enabled(run[k], steps[k])
    ensures PaidKey(run[j], steps[j]) != PaidKey(run[k], steps[k])
  {
    assert Leads(run[j], steps[j], run[j + 1]) && Leads(run[k], steps[k], run[k + 1]);
    RunKeeps(run, steps, k);
    AttemptsGrow(run, steps, j + 1, k);
    assert Leads(run[j], steps[j], run[j + 1]);
    var i := |run[j].attempts|;
    assert Key(run[j + 1].attempts[i]) == PaidKey(run[j], steps[j]);
    assert run[k].attempts[i] == run[j + 1].attempts[i];
    assert ClaimUnpaid(run[k], u);
  }

  /** A stored response is never overwritten: while its row is kept it reads the same. */
  lemma {:induction false} ResponseWrittenOnce(run: seq<State>, steps: seq<Step>, id: Id, k: nat, n: nat)
    requires Run(run, steps) && k <= n <= |steps|
    requires Cached(run[k], id).Some?
    requires forall i :: k <= i <= n ==> SameRow(run[k], run[i], id)
    ensures Cached(run[n], id) == Cached(run[k], id)
  {
    if k < n {
      ResponseWrittenOnce(run, steps, id, k, n - 1);
      RunKeeps(run, steps, n - 1);
      assert Leads(run[n - 1], steps[n - 1], run[n]);
      assert SameRow(run[k], run[n - 1], id) && SameRow(run[k], run[n], id);
      NextFrame(run[n - 1], steps[n - 1], run[n], 0, 0, id);
    }
  }

  /** Revocation is permanent and stops spending: no later confirmation is for it. */
  lemma {:induction false} RevokedNeverPays(run: seq<State>, steps: seq<Step>, connection: Id, k: nat, n: nat, t: int)
    requires Run(run, steps) && k <= n < |steps|
    requires RevokedIn(run[k], connection)
    requires Pays(steps[n], t)
    ensures t in run[n].tasks && run[n].tasks[t].connection != connection
  {
    ConfirmationIsAuthorized(run, steps, n, t);
    RevokedThroughout(run, steps, connection, k, n);
  }

  lemma {:induction false} RevokedThroughout(run: seq<State>, steps: seq<Step>, connection: Id, k: nat, n: nat)
    requires Run(run, steps) && k <= n <= |steps|
    requires RevokedIn(run[k], connection)
    ensures RevokedIn(run[n], connection)
  {
    if k < n {
      RevokedThroughout(run, steps, connection, k, n - 1);
      assert Leads(run[n - 1], steps[n - 1], run[n]);
      RunKeeps(run, steps, n - 1);
      NextFrame(run[n - 1], steps[n - 1], run[n], 0, connection, 0);
    }
  }

  /** Nor is any later yes to one of its prompts taken, however late the user gives it. */
  lemma RevokedNeverAllowed(run: seq<State>, steps: seq<Step>, connection: Id, k: nat, n: nat, t: int, id: Id)
    requires Run(run, steps) && k <= n < |steps|
    requires RevokedIn(run[k], connection)
    requires steps[n] == Ask(t, Answer(id, true))
    ensures id in run[n].waiting && run[n].waiting[id].connection != connection
  {
    assert Leads(run[n], steps[n], run[n + 1]);
    RevokedThroughout(run, steps, connection, k, n);
  }

  // ----- In time -----

  /** When `t` showed its prompt, the expiry it gave was within its deadline and 120 s. */
  ghost predicate ShownAt(run: seq<State>, steps: seq<Step>, i: nat, t: int, expiry: nat) {
    && i < |steps| < |run| && steps[i] == Ask(t, Show(expiry))
    && t in run[i].tasks && expiry <= run[i].tasks[t].deadline && expiry <= run[i].clock + 120
  }

  /** The check under the gate found the approval in time and the wallet open. */
  ghost predicate PassedAt(run: seq<State>, steps: seq<Step>, j: nat, t: int, expiry: nat) {
    && j < |steps| < |run| && steps[j] == Settle(t, RecheckPassed)
    && t in run[j].tasks && run[j].clock < expiry
    && run[j].tasks[t].account in run[j].unlocked && run[j].tasks[t].account in run[j].accounts
    && run[j].tasks[t].connection in run[j].connections
    && !run[j].connections[run[j].tasks[t].connection].revoked
  }

  predicate HasExpiry(phase: Phase) { phase.Prompted? || phase.Approved? || phase.Gated? }

  predicate SameRequest(a: Task, b: Task) {
    && a.id == b.id && a.connection == b.connection && a.account == b.account
    && a.deadline == b.deadline && a.call == b.call
  }

  /** What a step leaves of the handler's request and phase, unless it moves that phase. */
  predicate Untouched(s: State, v: State, t: int) { t in s.tasks && t in v.tasks && s.tasks[t] == v.tasks[t] }

  predicate Late(phase: Phase) { HasExpiry(phase) || phase.Checked? || phase.Claimed? }

  lemma HandlerLeavesLate(s: State, a: int, step: HandlerStep, t: int)
    requires HandlerEnabled(s, a, step) && t in HandlerNext(s, a, step).tasks
    requires Late(HandlerNext(s, a, step).tasks[t].phase)
    ensures Untouched(s, HandlerNext(s, a, step), t)
  {
  }

  lemma WorldLeavesLate(s: State, step: WorldStep, t: int)
    requires WorldEnabled(s, step) && t in WorldNext(s, step).tasks && Late(WorldNext(s, step).tasks[t].phase)
    ensures Untouched(s, WorldNext(s, step), t)
  {
  }

  predicate HandsOn(before: Task, after: Task) {
    SameRequest(before, after) && HasExpiry(before.phase) && HasExpiry(after.phase)
    && before.phase.expiry == after.phase.expiry
  }

  lemma AskHandsOnExpiry(s: State, a: int, step: AskStep, t: int)
    requires AskEnabled(s, a, step) && t in AskNext(s, a, step).tasks && Late(AskNext(s, a, step).tasks[t].phase)
    ensures t in s.tasks && SameRequest(s.tasks[t], AskNext(s, a, step).tasks[t])
    ensures var after := AskNext(s, a, step).tasks[t];
      if HasExpiry(after.phase) && a == t && step == Show(after.phase.expiry)
      then after.phase.expiry <= after.deadline && after.phase.expiry <= s.clock + 120
      else if HasExpiry(after.phase) then HandsOn(s.tasks[t], after)
      else Untouched(s, AskNext(s, a, step), t)
  {
  }

  /** The check under the gate, in the fields. */
  predicate InTime(s: State, task: Task) {
    && task.phase.Gated? && s.clock < task.phase.expiry
    && task.account in s.unlocked && task.account in s.accounts
    && task.connection in s.connections && !s.connections[task.connection].revoked
  }

  lemma SettleChecksExpiry(s: State, a: int, step: SettleStep, t: int)
    requires SettleEnabled(s, a, step) && t in SettleNext(s, a, step).tasks
    requires Late(SettleNext(s, a, step).tasks[t].phase)
    ensures t in s.tasks && SameRequest(s.tasks[t], SettleNext(s, a, step).tasks[t])
    ensures var after := SettleNext(s, a, step).tasks[t];
      if HasExpiry(after.phase) then HandsOn(s.tasks[t], after)
      else if a == t && step == RecheckPassed then InTime(s, s.tasks[t])
      else s.tasks[t].phase.Checked? || s.tasks[t].phase.Claimed?
  {
  }

  /** A prompt's expiry comes from its `Show`, and is handed on unchanged. */
  lemma StepHandsOnExpiry(s: State, step: Step, v: State, t: int)
    requires Leads(s, step, v) && t in v.tasks && HasExpiry(v.tasks[t].phase)
    ensures t in s.tasks && SameRequest(s.tasks[t], v.tasks[t])
    ensures HandsOn(s.tasks[t], v.tasks[t])
      || (step == Ask(t, Show(v.tasks[t].phase.expiry))
          && v.tasks[t].phase.expiry <= s.tasks[t].deadline && v.tasks[t].phase.expiry <= s.clock + 120)
  {
    match step
    case Handle(a, h) => HandlerLeavesLate(s, a, h, t);
    case Ask(a, h) => AskHandsOnExpiry(s, a, h, t);
    case Settle(a, h) => SettleChecksExpiry(s, a, h, t);
    case World(w) => WorldLeavesLate(s, w, t);
  }

  lemma {:induction false} ExpiryWasShown(run: seq<State>, steps: seq<Step>, n: nat, t: int) returns (i: nat)
    requires Run(run, steps) && n <= |steps| && t in run[n].tasks && HasExpiry(run[n].tasks[t].phase)
    ensures i < n && ShownAt(run, steps, i, t, run[n].tasks[t].phase.expiry)
    ensures SameRequest(run[i].tasks[t], run[n].tasks[t])
  {
    assert n > 0;
    assert Leads(run[n - 1], steps[n - 1], run[n]);
    StepHandsOnExpiry(run[n - 1], steps[n - 1], run[n], t);
    if steps[n - 1] == Ask(t, Show(run[n].tasks[t].phase.expiry)) {
      i := n - 1;
    } else {
      i := ExpiryWasShown(run, steps, n - 1, t);
    }
  }

  /** A handler past the check was let past by it, or was past it before. */
  lemma StepPassesCheck(s: State, step: Step, v: State, t: int)
    requires Leads(s, step, v) && t in v.tasks && (v.tasks[t].phase.Checked? || v.tasks[t].phase.Claimed?)
    ensures t in s.tasks && SameRequest(s.tasks[t], v.tasks[t])
    ensures if step == Settle(t, RecheckPassed) then InTime(s, s.tasks[t])
      else s.tasks[t].phase.Checked? || s.tasks[t].phase.Claimed?
  {
    match step
    case Handle(a, h) => HandlerLeavesLate(s, a, h, t);
    case Ask(a, h) => AskHandsOnExpiry(s, a, h, t);
    case Settle(a, h) => SettleChecksExpiry(s, a, h, t);
    case World(w) => WorldLeavesLate(s, w, t);
  }

  lemma {:induction false} CheckWasInTime(run: seq<State>, steps: seq<Step>, n: nat, t: int)
    returns (i: nat, j: nat, expiry: nat)
    requires Run(run, steps) && n <= |steps| && t in run[n].tasks
    requires run[n].tasks[t].phase.Checked? || run[n].tasks[t].phase.Claimed?
    ensures i < j < n && ShownAt(run, steps, i, t, expiry) && PassedAt(run, steps, j, t, expiry)
    ensures SameRequest(run[i].tasks[t], run[n].tasks[t]) && SameRequest(run[j].tasks[t], run[n].tasks[t])
    ensures forall m :: j < m < n ==> steps[m] != Settle(t, RecheckPassed)
  {
    assert n > 0;
    assert Leads(run[n - 1], steps[n - 1], run[n]);
    StepPassesCheck(run[n - 1], steps[n - 1], run[n], t);
    if steps[n - 1] == Settle(t, RecheckPassed) {
      j, expiry := n - 1, run[n - 1].tasks[t].phase.expiry;
      i := ExpiryWasShown(run, steps, n - 1, t);
    } else {
      i, j, expiry := CheckWasInTime(run, steps, n - 1, t);
    }
  }

  /** Whenever a payment is confirmed, the last check of it under the gate read a clock
      below the expiry it was prompted with, itself within the request's deadline and two
      minutes of the prompt, and found the wallet unlocked and the connection live. */
  lemma ConfirmedInTime(run: seq<State>, steps: seq<Step>, n: nat, t: int) returns (i: nat, j: nat, expiry: nat)
    requires Run(run, steps) && n < |steps| && Pays(steps[n], t)
    ensures t in run[n].tasks && i < j < n
    ensures steps[i] == Ask(t, Show(expiry)) && steps[j] == Settle(t, RecheckPassed)
    ensures run[j].clock < expiry <= run[n].tasks[t].deadline && expiry <= run[i].clock + 120
    ensures run[n].tasks[t].account in run[j].unlocked && run[n].tasks[t].account in run[j].accounts
    ensures run[n].tasks[t].connection in run[j].connections
      && !run[j].connections[run[n].tasks[t].connection].revoked
    ensures forall m :: j < m < n ==> steps[m] != Settle(t, RecheckPassed)
  {
    assert Leads(run[n], steps[n], run[n + 1]);
    i, j, expiry := CheckWasInTime(run, steps, n, t);
  }

  /** A yes is taken only before its prompt's expiry, with the wallet unlocked and the
      connection live. */
  lemma AllowedInTime(run: seq<State>, steps: seq<Step>, n: nat, t: int, id: Id)
    requires Run(run, steps) && n < |steps| && steps[n] == Ask(t, Answer(id, true))
    ensures id in run[n].waiting
    ensures var prompt := run[n].waiting[id];
      && run[n].clock < prompt.expiry && prompt.account in run[n].unlocked
      && prompt.connection in run[n].connections && !run[n].connections[prompt.connection].revoked
  {
    assert Leads(run[n], steps[n], run[n + 1]);
  }

  // ----- At most sixteen handlers -----

  function Handling(s: State): set<int> { set t | t in s.tasks && s.tasks[t].phase != Done }

  predicate Starts(step: Step) { step.World? && step.world.Receive? }

  lemma HandlerEndsForGood(s: State, a: int, step: HandlerStep, t: int)
    requires HandlerEnabled(s, a, step) && t in Handling(HandlerNext(s, a, step))
    ensures t in Handling(s)
  {
  }

  lemma AskEndsForGood(s: State, a: int, step: AskStep, t: int)
    requires AskEnabled(s, a, step) && PromptOk(s, if step.Answer? || step.AnswerLate? then step.id else 0)
    requires t in Handling(AskNext(s, a, step))
    ensures t in Handling(s)
  {
  }

  lemma SettleEndsForGood(s: State, a: int, step: SettleStep, t: int)
    requires SettleEnabled(s, a, step) && t in Handling(SettleNext(s, a, step))
    ensures t in Handling(s)
  {
  }

  lemma WorldEndsForGood(s: State, step: WorldStep, t: int)
    requires WorldEnabled(s, step) && t in Handling(WorldNext(s, step))
    ensures t in Handling(s) || (step.Receive? && t == s.next)
  {
  }

  lemma StepKeepsLimit(s: State, step: Step, v: State)
    requires Leads(s, step, v) && TasksOk(s) && |Handling(s)| <= 16
    ensures |Handling(v)| <= 16
  {
    forall t | t in Handling(v) ensures t in Handling(s) || (Starts(step) && t == s.next) {
      match step
      case Handle(a, h) => HandlerEndsForGood(s, a, h, t);
      case Ask(a, h) =>
        assert PromptOk(s, if h.Answer? || h.AnswerLate? then h.id else 0);
        AskEndsForGood(s, a, h, t);
      case Settle(a, h) => SettleEndsForGood(s, a, h, t);
      case World(w) => WorldEndsForGood(s, w, t);
    }
    if Starts(step) {
      assert |Handling(s)| < MAX_TASKS;
      SubsetSize(Handling(v), Handling(s) + {s.next});
    } else {
      SubsetSize(Handling(v), Handling(s));
    }
  }

  /** However many requests arrive, at most 16 are being handled. */
  lemma {:induction false} AtMostSixteenHandlers(run: seq<State>, steps: seq<Step>, n: nat)
    requires Run(run, steps) && n <= |steps|
    ensures |Handling(run[n])| <= 16
  {
    if n > 0 {
      AtMostSixteenHandlers(run, steps, n - 1);
      RunKeeps(run, steps, n - 1);
      assert Leads(run[n - 1], steps[n - 1], run[n]);
      StepKeepsLimit(run[n - 1], steps[n - 1], run[n]);
    }
  }
}
