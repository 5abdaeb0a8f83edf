/** The NIP-46 request loop for one account: authorize, execute, log, and answer a
    redelivered request from the cache. */
module SignerSession {
  import opened Prelude
  import opened SignerPolicy
  import opened SignerStorage

  /** Seconds an answer is remembered. */
  const REPLAY_WINDOW: nat := 60

  /** A decrypted request, as far as parsing got. */
  datatype Request =
    | Malformed(operation: Operation)
    | Pair(remote: PublicKey, secret: Option<int>)
    | Liveness
    | Operate(scope: Scope)

  /** What the user makes of a prompt. */
  datatype Answer = Approved(decision: Decision, remember: bool) | ApproverFailed | NoAnswer

  datatype Reply = Pong | Acknowledged | SecretEchoed(secret: int) | Done | Refused

  /** A change the user makes in the window while a prompt is open. */
  datatype Change =
    | Manage(op: ClientOp)
    | Decide(client: ClientId, scope: Scope, decision: Decision)
    | Undecide(client: ClientId, scope: Scope)

  /** The environment of one dispatch: the clock, the answer a prompt would get, what the
      user changes while that prompt is open, a client id not in use, and whether the
      vault can carry the operation out. */
  datatype World = World(now: nat, answer: Answer, meanwhile: seq<Change>, unused: ClientId, vaultWorks: bool)

  // ----- The tables while a prompt is open -----

  /** Clients, and the rules as a set. */
  datatype Tables = Tables(clients: Clients, rules: set<Row>)

  function RuleSet(rows: seq<Row>): set<Row> { set row | row in rows }

  function DropClient(rules: set<Row>, id: ClientId): set<Row> { set row | row in rules && row.client != id }

  function DropScope(rules: set<Row>, client: ClientId, scope: Scope): set<Row> {
    set row | row in rules && !(row.client == client && row.rule.scope == scope)
  }

  /** The user's commands do not pair clients. */
  predicate Applies(clients: Clients, op: ClientOp) { !op.Upsert? && OpEnabled(clients, op) }

  predicate DropsRules(op: ClientOp) { op.Forget? || op.Revoke? || op.Remove? }

  function Changed(t: Tables, change: Change): Tables {
    match change
    case Manage(op) =>
      if Applies(t.clients, op)
      then Tables(OpNext(t.clients, op), if DropsRules(op) then DropClient(t.rules, op.id) else t.rules)
      else t
    case Decide(client, scope, decision) =>
      t.(rules := DropScope(t.rules, client, scope) + {Row(client, Rule(scope, decision))})
    case Undecide(client, scope) => t.(rules := DropScope(t.rules, client, scope))
  }

  function AllChanged(t: Tables, changes: seq<Change>): Tables {
    if changes == [] then t
    else Changed(AllChanged(t, changes[..|changes| - 1]), changes[|changes| - 1])
  }

  /** An answer to be remembered sets the one rule of its scope. */
  function Remembering(t: Tables, client: ClientId, scope: Scope, answer: Answer): Tables {
    if answer.Approved? && answer.remember then Changed(t, Decide(client, scope, answer.decision)) else t
  }

  predicate Withdraws(change: Change, id: ClientId) {
    change.Manage? && (change.op.Revoke? || change.op.Remove?) && change.op.id == id
  }

  predicate Withdrawn(changes: seq<Change>, id: ClientId) {
    exists i :: 0 <= i < |changes| && Withdraws(changes[i], id)
  }

  // ----- What a request deserves, from the tables alone -----

  predicate Is(clients: Clients, id: ClientId, account: int, key: PublicKey) {
    id in clients && clients[id].account == account && clients[id].key == key
  }

  /** What looking a key up finds. */
  predicate FoundAs(clients: Clients, account: int, key: PublicKey, found: Option<ClientId>) {
    match found
    case Some(id) => Is(clients, id, account, key)
    case None => forall c :: c in clients ==> !Is(clients, c, account, key)
  }

  /** Stored rules first; the user only where they are silent. */
  predicate Granted(policy: PolicySet, scope: Scope, answer: Answer) {
    var outcome := policy.Evaluate(scope);
    outcome == Allowed || (outcome == Prompt && SaidYes(answer))
  }

  predicate SaidYes(answer: Answer) { answer.Approved? && answer.decision == Allow }

  predicate Declined(policy: PolicySet, scope: Scope, answer: Answer) {
    var outcome := policy.Evaluate(scope);
    outcome == Denied || (outcome == Prompt && (answer.NoAnswer? || (answer.Approved? && answer.decision == Deny)))
  }

  function SourceOf(policy: PolicySet, scope: Scope, answer: Answer): Source {
    if policy.Evaluate(scope) != Prompt then ByPolicy
    else if answer.Approved? then ByUser
    else if answer.NoAnswer? then ByTimeout
    else ByError
  }

  function VerdictOf(policy: PolicySet, scope: Scope, answer: Answer): Verdict {
    if Granted(policy, scope, answer) then WasAllowed
    else if Declined(policy, scope, answer) then WasDenied
    else HasFailed
  }

  /** A client that is on file and not revoked. */
  predicate InGoodStanding(clients: Clients, id: ClientId, account: int, key: PublicKey) {
    Is(clients, id, account, key) && clients[id].revokedAt.None?
  }

  ghost predicate Trusted(clients: Clients, account: int, key: PublicKey) {
    exists id :: InGoodStanding(clients, id, account, key)
  }

  /** A client in good standing whose rules, or whose user, allow the scope. */
  ghost predicate MayExecute(
    clients: Clients, rows: seq<Row>, account: int, key: PublicKey, scope: Scope, answer: Answer)
  {
    exists id :: InGoodStanding(clients, id, account, key) && Granted(PolicyFor(clients, rows, id), scope, answer)
  }

  /** The client whose request the user is asked about. */
  predicate Asks(clients: Clients, rows: seq<Row>, account: int, key: PublicKey, scope: Scope, id: ClientId) {
    InGoodStanding(clients, id, account, key) && PolicyFor(clients, rows, id).Evaluate(scope) == Prompt
  }

  ghost predicate MustAsk(clients: Clients, rows: seq<Row>, account: int, key: PublicKey, scope: Scope) {
    exists id :: Asks(clients, rows, account, key, scope, id)
  }

  /** The clients after an operation was dispatched: the user can change them only under
      a prompt. */
  ghost function ClientsAfter(
    clients: Clients, rows: seq<Row>, account: int, key: PublicKey, scope: Scope, meanwhile: seq<Change>): Clients
  {
    if MustAsk(clients, rows, account, key, scope)
    then AllChanged(Tables(clients, RuleSet(rows)), meanwhile).clients else clients
  }

  // ----- Pairing -----

  /** This row lets `sender` in. */
  predicate Admits(pairings: Pairings, id: int, account: int, sender: PublicKey, secret: int, now: nat) {
    && id in pairings && Usable(pairings[id], secret, now)
    && pairings[id].account == account && (pairings[id].client.Some? ==> pairings[id].client == Some(sender))
  }

  predicate UsableRow(pairings: Pairings, secret: int, now: nat, id: int) {
    id in pairings && Usable(pairings[id], secret, now)
  }

  /** A lookup by secret finds some usable row; which one, the query leaves open. */
  predicate LookedUp(pairings: Pairings, secret: int, now: nat, found: Option<int>) {
    match found
    case Some(id) => UsableRow(pairings, secret, now, id)
    case None => forall id :: id in pairings ==> !UsableRow(pairings, secret, now, id)
  }

  predicate Accepts(pairings: Pairings, account: int, sender: PublicKey, secret: int, now: nat, found: Option<int>) {
    found.Some? && Admits(pairings, found.value, account, sender, secret, now)
  }

  /** Some usable row would let `sender` in. */
  ghost predicate MayConnect(pairings: Pairings, account: int, sender: PublicKey, secret: int, now: nat) {
    exists id :: Admits(pairings, id, account, sender, secret, now)
  }

  /** All usable rows with this secret let `sender` in, or none does. */
  ghost predicate Agree(pairings: Pairings, account: int, sender: PublicKey, secret: int, now: nat) {
    forall a, b :: UsableRow(pairings, secret, now, a) && UsableRow(pairings, secret, now, b) ==>
      Admits(pairings, a, account, sender, secret, now) == Admits(pairings, b, account, sender, secret, now)
  }

  function Consumed(pairings: Pairings, id: int, sender: PublicKey, now: nat): Pairings
    requires id in pairings
  {
    pairings[id := pairings[id].(consumedAt := Some(now), client := Some(sender))]
  }

  function Greeting(pairing: Pairing): Reply {
    if pairing.direction == NostrConnect then SecretEchoed(pairing.secret) else Acknowledged
  }

  // ----- What dispatching a request does -----

  datatype Snapshot = Snapshot(clients: Clients, rows: seq<Row>, pairings: Pairings, activity: seq<Activity>)

  ghost function View(storage: Storage): Snapshot
    reads storage
  {
    Snapshot(storage.clients, storage.rows, storage.pairings, storage.activity)
  }

  /** One row that says the request failed, and no other change. */
  ghost predicate LogsFailure(before: Snapshot, after: Snapshot, account: int, sender: PublicKey,
      operation: Operation)
  {
    exists found ::
      FoundAs(before.clients, account, sender, found) && FailureLogged(before, after, account, found, operation)
  }

  predicate FailureLogged(before: Snapshot, after: Snapshot, account: int, found: Option<ClientId>,
      operation: Operation)
  {
    after == before.(activity := before.activity + [Activity(account, found, operation, None, HasFailed, ByError)])
  }

  /** Consumes the row, lists the client, and logs it. */
  predicate Pairs(before: Snapshot, after: Snapshot, account: int, sender: PublicKey, now: nat, row: int,
      client: ClientId)
  {
    && row in before.pairings && OpEnabled(before.clients, Upsert(account, sender, client))
    && after == Snapshot(
         OpNext(before.clients, Upsert(account, sender, client)), before.rows,
         Consumed(before.pairings, row, sender, now),
         before.activity + [Activity(account, Some(client), Operation.Connect, None, WasAllowed, ByUser)])
  }

  /** The outcome for the row that the lookup found. */
  ghost predicate ConnectsBy(
    before: Snapshot, after: Snapshot, account: int, sender: PublicKey, secret: int, now: nat, found: Option<int>,
    reply: Reply)
  {
    && LookedUp(before.pairings, secret, now, found)
    && (if Accepts(before.pairings, account, sender, secret, now, found)
        then reply == Greeting(before.pairings[found.value])
             && exists client :: Pairs(before, after, account, sender, now, found.value, client)
        else reply == Refused && after == before)
  }

  ghost predicate Connects(
    before: Snapshot, after: Snapshot, account: int, signer: PublicKey, sender: PublicKey, remote: PublicKey,
    secret: Option<int>, now: nat, reply: Reply)
  {
    if remote != signer || secret.None? then reply == Refused && after == before
    else exists found :: ConnectsBy(before, after, account, sender, secret.value, now, found, reply)
  }

  /** An operation: who may have it, what is logged, and what the user changed meanwhile. */
  ghost predicate Operates(
    before: Snapshot, after: Snapshot, account: int, sender: PublicKey, scope: Scope, world: World, executed: bool)
  {
    && executed == MayExecute(before.clients, before.rows, account, sender, scope, world.answer)
    && after.pairings == before.pairings
    && after.clients == ClientsAfter(before.clients, before.rows, account, sender, scope, world.meanwhile)
    && (forall id :: Asks(before.clients, before.rows, account, sender, scope, id) ==>
          RuleSet(after.rows) ==
            Remembering(AllChanged(Tables(before.clients, RuleSet(before.rows)), world.meanwhile), id, scope,
              world.answer).rules)
    && (!MustAsk(before.clients, before.rows, account, sender, scope) ==> after.rows == before.rows)
    && (forall id :: InGoodStanding(before.clients, id, account, sender) ==>
          var policy := PolicyFor(before.clients, before.rows, id);
          after.activity == before.activity + [Activity(account, Some(id), scope.operation, scope.kind,
            VerdictOf(policy, scope, world.answer), SourceOf(policy, scope, world.answer))])
    && (!Trusted(before.clients, account, sender) ==> LogsFailure(before, after, account, sender, scope.operation))
  }

  /** Everything a dispatched request does. */
  ghost predicate Dispatches(
    before: Snapshot, after: Snapshot, account: int, signer: PublicKey, sender: PublicKey, request: Request,
    world: World, reply: Reply, executed: bool)
  {
    match request
    case Malformed(operation) => reply == Refused && !executed && LogsFailure(before, after, account, sender, operation)
    case Pair(remote, secret) =>
      !executed && Answers(before, after, account, signer, sender, remote, secret, world.now, reply)
    case Liveness =>
      && !executed
      && (if Trusted(before.clients, account, sender) then reply == Pong && after == before
          else reply == Refused && LogsFailure(before, after, account, sender, Ping))
    case Operate(scope) =>
      && Operates(before, after, account, sender, scope, world, executed)
      && reply == if executed && world.vaultWorks then Done else Refused
  }

  /** A refused connect is logged without a client. */
  ghost predicate Answers(
    before: Snapshot, after: Snapshot, account: int, signer: PublicKey, sender: PublicKey, remote: PublicKey,
    secret: Option<int>, now: nat, reply: Reply)
  {
    if reply == Refused
    then Connects(before, before, account, signer, sender, remote, secret, now, Refused)
         && FailureLogged(before, after, account, None, Operation.Connect)
    else Connects(before, after, account, signer, sender, remote, secret, now, reply)
  }

  // ----- The answer cache -----

  datatype Remembered = Remembered(reply: Reply, at: nat)

  type Cache = map<(PublicKey, int), Remembered>

  datatype Dispatched = Dispatched(sender: PublicKey, id: int, began: nat, ended: nat, answered: bool)

  /** While an answer is young it is in the cache, and nothing there is from the future. */
  predicate EntryOk(entry: Dispatched, answers: Cache, now: nat) {
    var key := (entry.sender, entry.id);
    && entry.ended <= now
    && (entry.answered && now < entry.ended + REPLAY_WINDOW ==> key in answers && entry.ended <= answers[key].at)
  }

  ghost predicate CacheOk(log: seq<Dispatched>, answers: Cache, now: nat) {
    && (forall i {:trigger log[i]} :: 0 <= i < |log| ==> EntryOk(log[i], answers, now))
    && (forall key :: key in answers ==> answers[key].at <= now)
  }

  /** A request answered once is not dispatched again within the window. */
  ghost predicate NoRepeats(log: seq<Dispatched>) {
    forall i, j {:trigger log[i], log[j]} :: 0 <= i < j < |log| && log[i].answered
      && log[i].sender == log[j].sender && log[i].id == log[j].id
      ==> log[j].began >= log[i].ended + REPLAY_WINDOW
  }

  predicate Young(answers: Cache, key: (PublicKey, int), now: nat) {
    key in answers && now < answers[key].at + REPLAY_WINDOW
  }

  function Unexpired(answers: Cache, now: nat): Cache {
    map key | key in answers && now < answers[key].at + REPLAY_WINDOW :: answers[key]
  }

  lemma ExpiryKeepsCache(log: seq<Dispatched>, answers: Cache, now: nat)
    requires CacheOk(log, answers, now)
    ensures CacheOk(log, Unexpired(answers, now), now)
  {
    forall i {:trigger log[i]} | 0 <= i < |log| ensures EntryOk(log[i], Unexpired(answers, now), now) {
      assert EntryOk(log[i], answers, now);
    }
  }

  function Learned(answers: Cache, entry: Dispatched, reply: Reply): Cache {
    if entry.answered then answers[(entry.sender, entry.id) := Remembered(reply, entry.ended)] else answers
  }

  /** Dispatching a request that is not in the cache, whether or not it got an answer. */
  lemma DispatchKeepsCache(log: seq<Dispatched>, answers: Cache, now: nat, entry: Dispatched, reply: Reply)
    requires CacheOk(log, answers, now) && NoRepeats(log) && (entry.sender, entry.id) !in answers
    requires entry.began == now <= entry.ended
    ensures NoRepeats(log + [entry])
    ensures CacheOk(log + [entry],
      Learned(answers, entry, reply), entry.ended)
  {
    var after := Learned(answers, entry, reply);
    forall i {:trigger log[i]} | 0 <= i < |log|
      ensures EntryOk(log[i], after, entry.ended)
      ensures log[i].answered && log[i].sender == entry.sender && log[i].id == entry.id ==>
        now >= log[i].ended + REPLAY_WINDOW
    {
      assert EntryOk(log[i], answers, now);
    }
  }

  class Session {
    const storage: Storage
    const account: int
    const signer: PublicKey
    var answered: Cache
    ghost var log: seq<Dispatched>

    ghost predicate Valid(now: nat)
      reads this, storage
    {
      storage.Valid() && CacheOk(log, answered, now) && NoRepeats(log)
    }

    constructor (storage: Storage, account: int, signer: PublicKey)
      requires storage.Valid()
      ensures Valid(0) && log == [] && answered == map[]
      ensures this.storage == storage && this.account == account && this.signer == signer
    {
      this.storage, this.account, this.signer := storage, account, signer;
      answered, log := map[], [];
    }

    method Log(client: Option<ClientId>, scope: Scope, verdict: Verdict, source: Source)
      modifies storage`activity
      ensures storage.activity ==
        old(storage.activity) + [Activity(account, client, scope.operation, scope.kind, verdict, source)]
    {
      storage.RecordActivity(Activity(account, client, scope.operation, scope.kind, verdict, source));
    }

    /** Consumes the row it found and admits the sender, or refuses without a trace. */
    method Connect(sender: PublicKey, remote: PublicKey, secret: Option<int>, world: World) returns (reply: Reply)
      requires storage.Valid() && world.unused !in storage.clients
      modifies storage`pairings, storage`clients, storage`activity
      ensures storage.Valid()
      ensures Connects(old(View(storage)), View(storage), account, signer, sender, remote, secret, world.now, reply)
    {
      if remote != signer || secret == None {
        return Refused;
      }
      ghost var before := View(storage);
      var found := storage.UsablePairing(secret.value, world.now);
      assert LookedUp(before.pairings, secret.value, world.now, found);
      if found == None {
        assert ConnectsBy(before, View(storage), account, sender, secret.value, world.now, found, Refused);
        return Refused;
      }
      var pairing := storage.pairings[found.value];
      if pairing.account != account || (pairing.client.Some? && pairing.client != Some(sender)) {
        assert ConnectsBy(before, View(storage), account, sender, secret.value, world.now, found, Refused);
        return Refused;
      }
      var consumed := storage.ConsumePairing(found.value, sender, world.now);
      var client := storage.UpsertClient(account, sender, world.unused);
      Log(Some(client), Scope(Operation.Connect, None), WasAllowed, ByUser);
      reply := if pairing.direction == NostrConnect then SecretEchoed(secret.value) else Acknowledged;
      assert Pairs(before, View(storage), account, sender, world.now, found.value, client);
      assert ConnectsBy(before, View(storage), account, sender, secret.value, world.now, found, reply);
    }

    /** Decides by the stored rules, else by the user's answer; logs exactly one row. */
    method Authorize(client: ClientId, scope: Scope, world: World) returns (granted: bool)
      requires storage.Valid()
      modifies storage`rows, storage`clients, storage`activity
      ensures storage.Valid()
      ensures var policy := PolicyFor(old(storage.clients), old(storage.rows), client);
        && granted == Granted(policy, scope, world.answer)
        && storage.activity == old(storage.activity) + [Activity(account, Some(client), scope.operation, scope.kind,
             VerdictOf(policy, scope, world.answer), SourceOf(policy, scope, world.answer))]
        && (policy.Evaluate(scope) == Prompt ==>
              && storage.clients == AllChanged(old(TablesOf(storage)), world.meanwhile).clients
              && RuleSet(storage.rows) ==
                   Remembering(AllChanged(old(TablesOf(storage)), world.meanwhile), client, scope, world.answer).rules)
        && (policy.Evaluate(scope) != Prompt ==>
              storage.rows == old(storage.rows) && storage.clients == old(storage.clients))
    {
      var policy := storage.PolicyOf(client);
      var outcome := policy.Evaluate(scope);
      match outcome
      case Allowed =>
        Log(Some(client), scope, WasAllowed, ByPolicy);
        granted := true;
      case Denied =>
        Log(Some(client), scope, WasDenied, ByPolicy);
        granted := false;
      case Prompt =>
        granted := Ask(client, scope, world);
    }

    /** What the user does in the window while the prompt is open. */
    method Meanwhile(changes: seq<Change>)
      requires storage.Valid()
      modifies storage`rows, storage`clients
      ensures storage.Valid() && TablesOf(storage) == AllChanged(old(TablesOf(storage)), changes)
    {
      var i := 0;
      while i < |changes|
        invariant 0 <= i <= |changes| && storage.Valid()
        invariant TablesOf(storage) == AllChanged(old(TablesOf(storage)), changes[..i])
      {
        assert changes[..i + 1][..i] == changes[..i];
        Apply(changes[i]);
        i := i + 1;
      }
      assert changes[..i] == changes;
    }

    method Apply(change: Change)
      requires storage.Valid()
      modifies storage`rows, storage`clients
      ensures storage.Valid() && TablesOf(storage) == Changed(old(TablesOf(storage)), change)
    {
      match change
      case Manage(op) =>
        ApplyOp(op);
      case Decide(client, scope, decision) =>
        SetRule(client, scope, decision);
      case Undecide(client, scope) =>
        storage.ClearRule(client, scope);
        SameRules(storage.rows, DropScope(old(RuleSet(storage.rows)), client, scope));
    }

    method SetRule(client: ClientId, scope: Scope, decision: Decision)
      requires storage.Valid()
      modifies storage`rows
      ensures storage.Valid() && TablesOf(storage) == Changed(old(TablesOf(storage)), Decide(client, scope, decision))
    {
      storage.SetRule(client, scope, decision);
      var row := Row(client, Rule(scope, decision));
      SameRules(storage.rows, DropScope(old(RuleSet(storage.rows)), client, scope) + {row});
    }

    method ApplyOp(op: ClientOp)
      requires storage.Valid()
      modifies storage`rows, storage`clients
      ensures storage.Valid() && TablesOf(storage) == Changed(old(TablesOf(storage)), Manage(op))
    {
      match op
      case Upsert(_, _, _) =>
      case AllowAll(account, id, allow) => var ok := storage.SetAllowAll(account, id, allow);
      case DenyAll(account, id) => var ok := storage.DenyActions(account, id);
      case Forget(account, id) => var ok := storage.ForgetRules(account, id);
      case Revoke(id, now) => var ok := storage.RevokeClient(id, now);
      case Remove(id, now) => var ok := storage.RemoveClient(id, now);
    }

    method Ask(client: ClientId, scope: Scope, world: World) returns (granted: bool)
      requires storage.Valid()
      modifies storage`rows, storage`clients, storage`activity
      ensures storage.Valid()
      ensures granted == SaidYes(world.answer)
      ensures storage.activity == old(storage.activity) + [Activity(account, Some(client), scope.operation, scope.kind,
        if granted then WasAllowed else if world.answer.ApproverFailed? then HasFailed else WasDenied,
        if world.answer.Approved? then ByUser else if world.answer.NoAnswer? then ByTimeout else ByError)]
      ensures TablesOf(storage) ==
        Remembering(AllChanged(old(TablesOf(storage)), world.meanwhile), client, scope, world.answer)
    {
      Meanwhile(world.meanwhile);
      match world.answer
      case Approved(decision, remember) =>
        if remember {
          SetRule(client, scope, decision);
        }
        Log(Some(client), scope, if decision == Allow then WasAllowed else WasDenied, ByUser);
        granted := decision == Allow;
      case ApproverFailed =>
        Log(Some(client), scope, HasFailed, ByError);
        granted := false;
      case NoAnswer =>
        Log(Some(client), scope, WasDenied, ByTimeout);
        granted := false;
    }

    /** Handles one parsed request. `executed` says whether the key was put to use. */
    method Dispatch(sender: PublicKey, request: Request, world: World) returns (reply: Reply, executed: bool)
      requires storage.Valid() && world.unused !in storage.clients
      modifies storage
      ensures storage.Valid()
      ensures Dispatches(old(View(storage)), View(storage), account, signer, sender, request, world, reply, executed)
    {
      executed := false;
      match request
      case Malformed(operation) =>
        Refuse(sender, operation);
        reply := Refused;
      case Pair(remote, secret) =>
        reply := Connect(sender, remote, secret, world);
        if reply == Refused {
          Log(None, Scope(Operation.Connect, None), HasFailed, ByError);
        }
      case Liveness =>
        reply := DispatchPing(sender);
      case Operate(scope) =>
        executed := DispatchOperation(sender, scope, world);
        reply := if executed && world.vaultWorks then Done else Refused;
    }

    method Refuse(sender: PublicKey, operation: Operation)
      modifies storage`activity
      ensures LogsFailure(old(View(storage)), View(storage), account, sender, operation)
    {
      ghost var before := View(storage);
      var known := storage.FindClient(account, sender);
      Log(known, Scope(operation, None), HasFailed, ByError);
      assert FoundAs(before.clients, account, sender, known);
      assert FailureLogged(before, View(storage), account, known, operation);
    }

    method DispatchPing(sender: PublicKey) returns (reply: Reply)
      requires storage.Valid()
      modifies storage`activity
      ensures if Trusted(storage.clients, account, sender)
        then reply == Pong && storage.activity == old(storage.activity)
        else reply == Refused && LogsFailure(old(View(storage)), View(storage), account, sender, Ping)
    {
      var found := storage.FindClient(account, sender);
      if found == None || storage.clients[found.value].revokedAt.Some? {
        TurnedAway(storage.clients, found, account, sender);
        Refuse(sender, Ping);
        return Refused;
      }
      assert InGoodStanding(storage.clients, found.value, account, sender);
      return Pong;
    }

    method DispatchOperation(sender: PublicKey, scope: Scope, world: World) returns (executed: bool)
      requires storage.Valid()
      modifies storage`rows, storage`clients, storage`activity
      ensures storage.Valid()
      ensures Operates(old(View(storage)), View(storage), account, sender, scope, world, executed)
    {
      var found := storage.FindClient(account, sender);
      if found == None || storage.clients[found.value].revokedAt.Some? {
        TurnedAway(storage.clients, found, account, sender);
        Refuse(sender, scope.operation);
        return false;
      }
      ghost var before := View(storage);
      var id := found.value;
      assert InGoodStanding(before.clients, id, account, sender);
      OneStanding(before.clients, account, sender, id);
      executed := Authorize(id, scope, world);
      assert MustAsk(before.clients, before.rows, account, sender, scope) <==>
        Asks(before.clients, before.rows, account, sender, scope, id);
    }

    /** Answers a repeat from the cache; otherwise dispatches, and remembers the answer
        once it could be sealed. The dispatch ends at `later`. */
    method Handle(sender: PublicKey, id: int, request: Request, world: World, later: nat, sealed: bool)
      returns (response: Option<Reply>, executed: bool)
      requires Valid(world.now) && world.now <= later && world.unused !in storage.clients
      modifies this`answered, this`log, storage
      ensures Valid(later)
      ensures Young(old(answered), (sender, id), world.now) <==>
        (sender, id) in old(answered) && world.now < old(answered)[(sender, id)].at + 60
      ensures Young(old(answered), (sender, id), world.now) ==>
        && response == Some(old(answered)[(sender, id)].reply) && !executed
        && log == old(log) && View(storage) == old(View(storage))
      ensures !Young(old(answered), (sender, id), world.now) ==>
        && log == old(log) + [Dispatched(sender, id, world.now, later, sealed)] && response.Some? == sealed
        && exists reply ::
             && (sealed ==> response == Some(reply))
             && Dispatches(old(View(storage)), View(storage), account, signer, sender, request, world, reply, executed)
      ensures response.Some? ==> (sender, id) in answered && answered[(sender, id)].reply == response.value
    {
      var key := (sender, id);
      ExpiryKeepsCache(log, answered, world.now);
      answered := map k | k in answered && world.now < answered[k].at + REPLAY_WINDOW :: answered[k];
      if key in answered {
        LaterKeepsCache(log, answered, world.now, later);
        return Some(answered[key].reply), false;
      }
      response, executed := HandleNew(sender, id, request, world, later, sealed);
    }

    /** Dispatches a request that is not in the cache, and remembers its answer. */
    method HandleNew(sender: PublicKey, id: int, request: Request, world: World, later: nat, sealed: bool)
      returns (response: Option<Reply>, executed: bool)
      requires Valid(world.now) && world.now <= later && world.unused !in storage.clients && (sender, id) !in answered
      modifies this`answered, this`log, storage
      ensures Valid(later)
      ensures log == old(log) + [Dispatched(sender, id, world.now, later, sealed)] && response.Some? == sealed
      ensures exists reply ::
        && (sealed ==> response == Some(reply))
        && Dispatches(old(View(storage)), View(storage), account, signer, sender, request, world, reply, executed)
      ensures response.Some? ==> (sender, id) in answered && answered[(sender, id)].reply == response.value
    {
      var reply;
      reply, executed := Dispatch(sender, request, world);
      Remember(sender, id, reply, world.now, later, sealed);
      response := if sealed then Some(reply) else None;
      assert Dispatches(old(View(storage)), View(storage), account, signer, sender, request, world, reply, executed);
    }

    method Remember(sender: PublicKey, id: int, reply: Reply, began: nat, later: nat, sealed: bool)
      requires Valid(began) && began <= later && (sender, id) !in answered
      modifies this`answered, this`log
      ensures Valid(later) && log == old(log) + [Dispatched(sender, id, began, later, sealed)]
      ensures answered == if sealed then old(answered)[(sender, id) := Remembered(reply, later)] else old(answered)
    {
      DispatchKeepsCache(log, answered, began, Dispatched(sender, id, began, later, sealed), reply);
      log := log + [Dispatched(sender, id, began, later, sealed)];
      if sealed {
        answered := answered[(sender, id) := Remembered(reply, later)];
      }
    }
  }

  ghost function TablesOf(storage: Storage): Tables
    reads storage
  {
    Tables(storage.clients, RuleSet(storage.rows))
  }

  lemma SameRules(rows: seq<Row>, rules: set<Row>)
    requires forall c, sc, d :: Stored(rows, c, sc, d) <==> Row(c, Rule(sc, d)) in rules
    ensures RuleSet(rows) == rules
  {
    forall row ensures row in RuleSet(rows) <==> row in rules {
      assert row == Row(row.client, Rule(row.rule.scope, row.rule.decision));
      assert Stored(rows, row.client, row.rule.scope, row.rule.decision) <==> row in rules;
    }
  }

  lemma LaterKeepsCache(log: seq<Dispatched>, answers: Cache, now: nat, later: nat)
    requires CacheOk(log, answers, now) && now <= later
    ensures CacheOk(log, answers, later)
  {
    forall i {:trigger log[i]} | 0 <= i < |log| ensures EntryOk(log[i], answers, later) {
      assert EntryOk(log[i], answers, now);
    }
  }

  /** A sender whose row is missing or revoked has no other row to be trusted by, whatever
      rules are stored and whatever a prompt would be answered. */
  lemma TurnedAway(clients: Clients, found: Option<ClientId>, account: int, sender: PublicKey)
    requires UniqueKeys(clients)
    requires FoundAs(clients, account, sender, found)
    requires found.Some? ==> clients[found.value].revokedAt.Some?
    ensures !Trusted(clients, account, sender)
  {
    forall id ensures !InGoodStanding(clients, id, account, sender) {
    }
  }

  /** A key has one row. */
  lemma OneStanding(clients: Clients, account: int, sender: PublicKey, id: ClientId)
    requires UniqueKeys(clients) && InGoodStanding(clients, id, account, sender)
    ensures forall other :: InGoodStanding(clients, other, account, sender) ==> other == id
  {
  }

  // ----- What a client's own flags and rules decide -----

  predicate NoRule(rows: seq<Row>, id: ClientId, scope: Scope) {
    Row(id, Rule(scope, Allow)) !in rows && Row(id, Rule(scope, Deny)) !in rows
  }

  /** The policy of a client in good standing, in its own flags and rows: deny-all, then
      the rule of the exact scope, then the one of the whole method, then allow-all. */
  lemma FlagsAndRowsDecide(
    clients: Clients, rows: seq<Row>, account: int, key: PublicKey, scope: Scope, id: ClientId)
    requires TableOk(clients) && UniqueRows(rows) && InGoodStanding(clients, id, account, key)
    ensures var wide, outcome := Scope(scope.operation, None), PolicyFor(clients, rows, id).Evaluate(scope);
      && (outcome == Allowed <==>
            && !clients[id].denyAll
            && (Row(id, Rule(scope, Allow)) in rows
                || (NoRule(rows, id, scope) && Row(id, Rule(wide, Allow)) in rows)
                || (NoRule(rows, id, scope) && NoRule(rows, id, wide) && clients[id].allowAll)))
      && (outcome == Denied <==>
            || clients[id].denyAll
            || Row(id, Rule(scope, Deny)) in rows
            || (NoRule(rows, id, scope) && Row(id, Rule(wide, Deny)) in rows))
  {
    var policy := PolicyFor(clients, rows, id);
    assert ClientOk(clients[id]);
    RulesUnique(rows, id);
    AllowedExactlyWhen(policy, scope);
  }

  /** A client with deny-all is refused by policy, whatever its rules and the user say. */
  lemma DenyAllRefuses(
    before: Snapshot, after: Snapshot, account: int, sender: PublicKey, scope: Scope, world: World, executed: bool,
    id: ClientId)
    requires TableOk(before.clients) && UniqueRows(before.rows)
    requires Operates(before, after, account, sender, scope, world, executed)
    requires InGoodStanding(before.clients, id, account, sender) && before.clients[id].denyAll
    ensures !executed && after.clients == before.clients && after.rows == before.rows
    ensures after.activity ==
      before.activity + [Activity(account, Some(id), scope.operation, scope.kind, WasDenied, ByPolicy)]
  {
    FlagsAndRowsDecide(before.clients, before.rows, account, sender, scope, id);
    OneStanding(before.clients, account, sender, id);
  }

  /** A client with allow-all and no rule for the scope or its method is served without
      a prompt. */
  lemma AllowAllExecutes(
    before: Snapshot, after: Snapshot, account: int, sender: PublicKey, scope: Scope, world: World, executed: bool,
    id: ClientId)
    requires TableOk(before.clients) && UniqueRows(before.rows)
    requires Operates(before, after, account, sender, scope, world, executed)
    requires InGoodStanding(before.clients, id, account, sender) && before.clients[id].allowAll
    requires NoRule(before.rows, id, scope) && NoRule(before.rows, id, Scope(scope.operation, None))
    ensures executed && after.clients == before.clients && after.rows == before.rows
    ensures after.activity ==
      before.activity + [Activity(account, Some(id), scope.operation, scope.kind, WasAllowed, ByPolicy)]
  {
    assert ClientOk(before.clients[id]);
    FlagsAndRowsDecide(before.clients, before.rows, account, sender, scope, id);
    OneStanding(before.clients, account, sender, id);
  }

  /** With neither flag and no such rule the user is asked, and only a yes counts. */
  lemma UncoveredIsAsked(
    before: Snapshot, after: Snapshot, account: int, sender: PublicKey, scope: Scope, world: World, executed: bool,
    id: ClientId)
    requires TableOk(before.clients) && UniqueRows(before.rows)
    requires Operates(before, after, account, sender, scope, world, executed)
    requires InGoodStanding(before.clients, id, account, sender)
    requires !before.clients[id].allowAll && !before.clients[id].denyAll
    requires NoRule(before.rows, id, scope) && NoRule(before.rows, id, Scope(scope.operation, None))
    ensures Asks(before.clients, before.rows, account, sender, scope, id)
    ensures executed <==> world.answer.Approved? && world.answer.decision == Allow
    ensures
      var verdict :=
        if executed then WasAllowed else if world.answer.ApproverFailed? then HasFailed else WasDenied;
      var source := if world.answer.Approved? then ByUser else if world.answer.NoAnswer? then ByTimeout else ByError;
      after.activity == before.activity + [Activity(account, Some(id), scope.operation, scope.kind, verdict, source)]
  {
    FlagsAndRowsDecide(before.clients, before.rows, account, sender, scope, id);
    OneStanding(before.clients, account, sender, id);
  }

  /** What a prompt leaves of the rules: an answer to be remembered is the only rule of its
      scope, whatever was changed meanwhile; any other answer adds none. */
  lemma RememberedIsTheRule(
    before: Snapshot, after: Snapshot, account: int, sender: PublicKey, scope: Scope, world: World, executed: bool,
    id: ClientId)
    requires Operates(before, after, account, sender, scope, world, executed)
    requires Asks(before.clients, before.rows, account, sender, scope, id)
    ensures world.answer.Approved? && world.answer.remember ==>
      forall decision :: Row(id, Rule(scope, decision)) in after.rows <==> decision == world.answer.decision
    ensures !(world.answer.Approved? && world.answer.remember) && world.meanwhile == [] ==>
      forall row :: row in after.rows <==> row in before.rows
  {
    assert forall row :: row in after.rows <==> row in RuleSet(after.rows);
    assert forall row :: row in before.rows <==> row in RuleSet(before.rows);
  }

  /** A client that was revoked, and so any that was removed, is refused whatever its flags. */
  lemma UnlistedFlagsDecideNothing(
    before: Snapshot, after: Snapshot, account: int, sender: PublicKey, scope: Scope, world: World, executed: bool,
    id: ClientId)
    requires TableOk(before.clients) && Operates(before, after, account, sender, scope, world, executed)
    requires Is(before.clients, id, account, sender)
    requires before.clients[id].revokedAt.Some? || before.clients[id].removedAt.Some?
    ensures !executed && after.clients == before.clients && after.rows == before.rows
    ensures after.activity ==
      before.activity + [Activity(account, Some(id), scope.operation, None, HasFailed, ByError)]
  {
    assert ClientOk(before.clients[id]);
    TurnedAway(before.clients, Some(id), account, sender);
    var found :| FoundAs(before.clients, account, sender, found)
      && FailureLogged(before, after, account, found, scope.operation);
    assert found == Some(id);
  }

  /** After the user denied an app everything, its next operation is refused. */
  lemma DenyActionsStops(
    clients: Clients, before: Snapshot, after: Snapshot, account: int, sender: PublicKey, scope: Scope, world: World,
    executed: bool, id: ClientId)
    requires TableOk(clients) && OpEnabled(clients, DenyAll(account, id)) && clients[id].key == sender
    requires before.clients == OpNext(clients, DenyAll(account, id)) && UniqueRows(before.rows)
    requires Operates(before, after, account, sender, scope, world, executed)
    ensures !executed
    ensures after.activity ==
      before.activity + [Activity(account, Some(id), scope.operation, scope.kind, WasDenied, ByPolicy)]
  {
    OpKeeps(clients, DenyAll(account, id), id);
    assert InGoodStanding(before.clients, id, account, sender);
    DenyAllRefuses(before, after, account, sender, scope, world, executed, id);
  }

  /** After the user approved an app for everything, an operation without a rule is served. */
  lemma AllowAllGrants(
    clients: Clients, before: Snapshot, after: Snapshot, account: int, sender: PublicKey, scope: Scope, world: World,
    executed: bool, id: ClientId)
    requires TableOk(clients) && OpEnabled(clients, AllowAll(account, id, true)) && clients[id].key == sender
    requires before.clients == OpNext(clients, AllowAll(account, id, true)) && UniqueRows(before.rows)
    requires NoRule(before.rows, id, scope) && NoRule(before.rows, id, Scope(scope.operation, None))
    requires Operates(before, after, account, sender, scope, world, executed)
    ensures executed
    ensures after.activity ==
      before.activity + [Activity(account, Some(id), scope.operation, scope.kind, WasAllowed, ByPolicy)]
  {
    OpKeeps(clients, AllowAll(account, id, true), id);
    assert InGoodStanding(before.clients, id, account, sender);
    AllowAllExecutes(before, after, account, sender, scope, world, executed, id);
  }

  // ----- Revocation while a prompt is open -----

  /** Under any changes a client keeps its row and loses its standing exactly by being
      revoked or removed. */
  lemma {:induction false} GoodUntilWithdrawn(t: Tables, changes: seq<Change>, id: ClientId, account: int,
      key: PublicKey)
    requires TableOk(t.clients) && InGoodStanding(t.clients, id, account, key)
    ensures TableOk(AllChanged(t, changes).clients) && Is(AllChanged(t, changes).clients, id, account, key)
    ensures AllChanged(t, changes).clients[id].revokedAt.Some? <==> Withdrawn(changes, id)
  {
    if changes != [] {
      var rest, last := changes[..|changes| - 1], changes[|changes| - 1];
      GoodUntilWithdrawn(t, rest, id, account, key);
      var before := AllChanged(t, rest);
      if last.Manage? && Applies(before.clients, last.op) {
        OpKeeps(before.clients, last.op, id);
      }
      assert changes == rest + [last];
      assert Withdrawn(changes, id) <==> Withdrawn(rest, id) || Withdraws(last, id) by {
        if i :| 0 <= i < |changes| && Withdraws(changes[i], id) {
          assert i < |rest| ==> rest[i] == changes[i];
        }
        if i :| 0 <= i < |rest| && Withdraws(rest[i], id) {
          assert changes[i] == rest[i];
        }
        assert changes[|rest|] == last;
      }
    }
  }

  /** The key is used for a sender that is no longer trusted when it is used. */
  ghost predicate UsedAfterRevocation(
    clients: Clients, rows: seq<Row>, account: int, key: PublicKey, scope: Scope, answer: Answer,
    meanwhile: seq<Change>)
  {
    && MayExecute(clients, rows, account, key, scope, answer)
    && !Trusted(ClientsAfter(clients, rows, account, key, scope, meanwhile), account, key)
  }

  /** When that happens: the user was asked, revoked or removed the client while the
      prompt was open, and still said yes. */
  lemma UsedAfterRevocationWhen(
    clients: Clients, rows: seq<Row>, account: int, key: PublicKey, scope: Scope, answer: Answer,
    meanwhile: seq<Change>)
    requires TableOk(clients)
    ensures UsedAfterRevocation(clients, rows, account, key, scope, answer, meanwhile) <==>
      SaidYes(answer) && exists id :: Asks(clients, rows, account, key, scope, id) && Withdrawn(meanwhile, id)
  {
    if MustAsk(clients, rows, account, key, scope) {
      var id :| Asks(clients, rows, account, key, scope, id);
      OneStanding(clients, account, key, id);
      var t := Tables(clients, RuleSet(rows));
      GoodUntilWithdrawn(t, meanwhile, id, account, key);
      var after := AllChanged(t, meanwhile).clients;
      assert MayExecute(clients, rows, account, key, scope, answer) <==> SaidYes(answer);
      if Withdrawn(meanwhile, id) {
        TurnedAway(after, Some(id), account, key);
      } else {
        assert InGoodStanding(after, id, account, key);
      }
    }
  }

  /** Before a request is handled one can tell whether revocation is certain to stop it:
      exactly when its client, if trusted at all, has a rule or a flag that decides. */
  lemma RevocationStopsUse(clients: Clients, rows: seq<Row>, account: int, key: PublicKey, scope: Scope)
    requires TableOk(clients)
    ensures (forall answer, meanwhile :: !UsedAfterRevocation(clients, rows, account, key, scope, answer, meanwhile))
      <==> !MustAsk(clients, rows, account, key, scope)
  {
    forall answer, meanwhile
      ensures UsedAfterRevocation(clients, rows, account, key, scope, answer, meanwhile) <==>
        SaidYes(answer) && exists id :: Asks(clients, rows, account, key, scope, id) && Withdrawn(meanwhile, id)
    {
      UsedAfterRevocationWhen(clients, rows, account, key, scope, answer, meanwhile);
    }
    if id :| Asks(clients, rows, account, key, scope, id) {
      var meanwhile := [Manage(Revoke(id, 0))];
      assert Withdraws(meanwhile[0], id);
      assert UsedAfterRevocation(clients, rows, account, key, scope, Approved(Allow, false), meanwhile);
    }
  }

  /** A client without rules asks to sign; it is revoked while the prompt is open; the
      user says yes: signed. */
  lemma RevokedButSigned()
    ensures UsedAfterRevocation(
      map[1 := Client(10, 7, None, None, false, false)], [], 10, 7, Scope(SignEvent, Some(1)),
      Approved(Allow, false), [Manage(Revoke(1, 50))])
  {
    var clients: Clients := map[1 := Client(10, 7, None, None, false, false)];
    var meanwhile := [Manage(Revoke(1, 50))];
    assert Asks(clients, [], 10, 7, Scope(SignEvent, Some(1)), 1);
    assert Withdraws(meanwhile[0], 1);
    UsedAfterRevocationWhen(clients, [], 10, 7, Scope(SignEvent, Some(1)), Approved(Allow, false), meanwhile);
  }

  /** So a dispatched operation uses the key for a revoked sender exactly then. */
  lemma OperationUsesRevoked(
    before: Snapshot, after: Snapshot, account: int, sender: PublicKey, scope: Scope, world: World, executed: bool)
    requires TableOk(before.clients) && Operates(before, after, account, sender, scope, world, executed)
    ensures executed && !Trusted(after.clients, account, sender) <==>
      SaidYes(world.answer)
      && exists id :: Asks(before.clients, before.rows, account, sender, scope, id) && Withdrawn(world.meanwhile, id)
  {
    UsedAfterRevocationWhen(before.clients, before.rows, account, sender, scope, world.answer, world.meanwhile);
  }

  // ----- Connecting, in the fields -----

  /** A connect admits only by a row with this secret, neither used nor expired, of this
      account and of this client or of none; it uses that row up and lists the sender. */
  lemma ConnectedBy(
    before: Snapshot, after: Snapshot, account: int, signer: PublicKey, sender: PublicKey, remote: PublicKey,
    secret: Option<int>, now: nat, reply: Reply) returns (row: int, client: ClientId)
    requires Connects(before, after, account, signer, sender, remote, secret, now, reply) && reply != Refused
    ensures remote == signer && secret.Some? && row in before.pairings
    ensures var pairing := before.pairings[row];
      && pairing.secret == secret.value && pairing.consumedAt == None && now < pairing.expiresAt
      && pairing.account == account && (pairing.client == None || pairing.client == Some(sender))
      && reply == if pairing.direction == NostrConnect then SecretEchoed(secret.value) else Acknowledged
    ensures row in after.pairings
    ensures after.pairings[row].consumedAt == Some(now) && after.pairings[row].client == Some(sender)
    ensures forall other :: other != row ==>
      (other in after.pairings <==> other in before.pairings)
      && (other in before.pairings ==> after.pairings[other] == before.pairings[other])
    ensures client in after.clients && after.clients[client].removedAt == None
      && after.clients[client].account == account && after.clients[client].key == sender
    ensures after.activity ==
      before.activity + [Activity(account, Some(client), Operation.Connect, None, WasAllowed, ByUser)]
  {
    var found :| ConnectsBy(before, after, account, sender, secret.value, now, found, reply);
    row := found.value;
    client :| Pairs(before, after, account, sender, now, row, client);
  }

  /** It refuses only a wrong signer, a missing secret, a secret that no usable row has, or
      one found on a usable row of another account or bound to another client. */
  lemma RefusedBecause(
    before: Snapshot, after: Snapshot, account: int, signer: PublicKey, sender: PublicKey, remote: PublicKey,
    secret: Option<int>, now: nat)
    requires Connects(before, after, account, signer, sender, remote, secret, now, Refused)
    ensures after == before
    ensures remote != signer || secret.None?
      || (forall row :: row in before.pairings ==>
            before.pairings[row].secret != secret.value || before.pairings[row].consumedAt.Some?
            || before.pairings[row].expiresAt <= now)
      || (exists row :: row in before.pairings && before.pairings[row].secret == secret.value
            && before.pairings[row].consumedAt.None? && now < before.pairings[row].expiresAt
            && (before.pairings[row].account != account
                || (before.pairings[row].client.Some? && before.pairings[row].client != Some(sender))))
  {
    if remote == signer && secret.Some? {
      var found :| ConnectsBy(before, after, account, sender, secret.value, now, found, Refused);
      if found.Some? {
        assert found.value in before.pairings;
      }
    }
  }

  // ----- Two pairings with one secret -----

  /** A connect succeeds whenever some row would admit the sender, whichever row the
      lookup finds, exactly when all usable rows with that secret agree on the sender. */
  lemma ConnectIsDetermined(pairings: Pairings, account: int, sender: PublicKey, secret: int, now: nat)
    ensures (forall found :: LookedUp(pairings, secret, now, found) ==>
              (Accepts(pairings, account, sender, secret, now, found) <==>
                MayConnect(pairings, account, sender, secret, now)))
      <==> Agree(pairings, account, sender, secret, now)
  {
    if !Agree(pairings, account, sender, secret, now) {
      var a, b :| UsableRow(pairings, secret, now, a) && UsableRow(pairings, secret, now, b)
        && Admits(pairings, a, account, sender, secret, now) != Admits(pairings, b, account, sender, secret, now);
      assert LookedUp(pairings, secret, now, Some(a)) && LookedUp(pairings, secret, now, Some(b));
    } else {
      forall found | LookedUp(pairings, secret, now, found)
        ensures Accepts(pairings, account, sender, secret, now, found) <==>
          MayConnect(pairings, account, sender, secret, now)
      {
        if id :| Admits(pairings, id, account, sender, secret, now) {
          assert UsableRow(pairings, secret, now, id);
          assert found.Some?;
        }
      }
    }
  }

  /** A success uses the secret up exactly when no second usable row holds it. */
  lemma SecretIsUsedUp(pairings: Pairings, sender: PublicKey, secret: int, now: nat, row: int)
    requires UsableRow(pairings, secret, now, row)
    ensures LookedUp(Consumed(pairings, row, sender, now), secret, now, None) <==>
      forall other :: UsableRow(pairings, secret, now, other) ==> other == row
  {
    var after := Consumed(pairings, row, sender, now);
    forall other ensures UsableRow(after, secret, now, other) <==>
      UsableRow(pairings, secret, now, other) && other != row {
    }
  }

  /** One client URI pasted for two accounts: the second account's connect is refused if
      the lookup finds the first account's row, and once it succeeds that row is left. */
  lemma SameSecretTwice()
    ensures var pairings: Pairings := map[
        1 := Pairing(1, 9, NostrConnect, Some(5), 100, None),
        2 := Pairing(2, 9, NostrConnect, Some(5), 100, None)];
      && MayConnect(pairings, 2, 5, 9, 0)
      && LookedUp(pairings, 9, 0, Some(1)) && !Accepts(pairings, 2, 5, 9, 0, Some(1))
      && LookedUp(pairings, 9, 0, Some(2)) && Accepts(pairings, 2, 5, 9, 0, Some(2))
      && UsableRow(Consumed(pairings, 2, 5, 0), 9, 0, 1)
  {
    var pairings: Pairings := map[
      1 := Pairing(1, 9, NostrConnect, Some(5), 100, None),
      2 := Pairing(2, 9, NostrConnect, Some(5), 100, None)];
    assert Admits(pairings, 2, 2, 5, 9, 0);
  }
}
