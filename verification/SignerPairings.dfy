/** Connects that interleave at every storage call. A pairing secret admits once. */
module SignerPairings {
  import opened Prelude
  import opened SignerStorage

  /** A row of the pairings table. `serial` tells rows apart across reuse of ids, which
      SQLite allows once a row is pruned. */
  datatype Slot = Slot(serial: int, pairing: Pairing)

  /** A connect in flight: past its lookup and checks, or past consuming the row. */
  datatype Connect =
    | Found(id: int, serial: int, account: int, sender: PublicKey, at: nat)
    | Consumed(serial: int, account: int, sender: PublicKey, at: nat)

  /** A connect that admitted its client; `at` is when it looked the secret up. */
  datatype Success = Success(serial: int, account: int, sender: PublicKey, at: nat)

  datatype State = State(
    slots: map<int, Slot>, clients: Clients, connects: map<int, Connect>, clock: nat,
    // history: every pairing ever inserted by serial, the serials consumed, the successes
    next: int, inserted: map<int, Pairing>, used: set<int>, successes: seq<Success>)

  datatype Step =
    | Insert(id: int, pairing: Pairing)
    | Lookup(t: int, id: int, secret: int, account: int, sender: PublicKey)
    | Consume(t: int)
    | Lose(t: int)                                // consumed by another connect: refused
    | Admit(t: int, client: ClientId)             // upsert_client
    | Manage(op: ClientOp)                        // the user's changes to clients
    | Advance(to: nat)
    | Restart                                     // connects die; startup prunes

  /** The checks between the lookup and consuming. */
  predicate Acceptable(p: Pairing, account: int, sender: PublicKey) {
    p.account == account && (p.client.Some? ==> p.client == Some(sender))
  }

  predicate Enabled(s: State, step: Step) {
    match step
    case Insert(id, pairing) => id !in s.slots && pairing.consumedAt.None?
    case Lookup(t, id, secret, account, sender) =>
      t !in s.connects && id in s.slots && Usable(s.slots[id].pairing, secret, s.clock)
      && Acceptable(s.slots[id].pairing, account, sender)
    case Consume(t) =>
      t in s.connects && s.connects[t].Found? && s.connects[t].id in s.slots
      && s.slots[s.connects[t].id].pairing.consumedAt.None?
    case Lose(t) =>
      t in s.connects && s.connects[t].Found?
      && (s.connects[t].id in s.slots ==> s.slots[s.connects[t].id].pairing.consumedAt.Some?)
    case Admit(t, client) =>
      t in s.connects && s.connects[t].Consumed?
      && OpEnabled(s.clients, Upsert(s.connects[t].account, s.connects[t].sender, client))
    case Manage(op) => !op.Upsert? && OpEnabled(s.clients, op)
    case Advance(to) => s.clock <= to
    case Restart => true
  }

  function Next(s: State, step: Step): State
    requires Enabled(s, step)
  {
    match step
    case Insert(id, pairing) =>
      s.(slots := s.slots[id := Slot(s.next, pairing)], inserted := s.inserted[s.next := pairing], next := s.next + 1)
    case Lookup(t, id, _, account, sender) =>
      s.(connects := s.connects[t := Found(id, s.slots[id].serial, account, sender, s.clock)])
    case Consume(t) =>
      var c := s.connects[t];
      s.(slots := s.slots[c.id := Slot(s.slots[c.id].serial,
           s.slots[c.id].pairing.(consumedAt := Some(s.clock), client := Some(c.sender)))],
         connects := s.connects[t := Consumed(c.serial, c.account, c.sender, c.at)],
         used := s.used + {s.slots[c.id].serial})
    case Lose(t) => s.(connects := s.connects - {t})
    case Admit(t, client) =>
      var c := s.connects[t];
      s.(connects := s.connects - {t},
         clients := OpNext(s.clients, Upsert(c.account, c.sender, client)),
         successes := s.successes + [Success(c.serial, c.account, c.sender, c.at)])
    case Manage(op) => s.(clients := OpNext(s.clients, op))
    case Advance(to) => s.(clock := to)
    case Restart =>
      s.(connects := map[],
         slots := map id |
           id in s.slots && s.slots[id].pairing.consumedAt.None? && s.slots[id].pairing.expiresAt > s.clock
           :: s.slots[id])
  }

  ghost predicate Leads(s: State, step: Step, v: State) { Enabled(s, step) && v == Next(s, step) }

  ghost predicate Run(run: seq<State>, steps: seq<Step>) {
    && |run| == |steps| + 1
    && run[0] == State(map[], map[], map[], run[0].clock, 0, map[], {}, [])
    && forall i {:trigger steps[i]} :: 0 <= i < |steps| ==> Leads(run[i], steps[i], run[i + 1])
  }

  // ----- Invariants, one object at a time -----

  predicate SlotOk(s: State, id: int) {
    id in s.slots ==>
      var slot := s.slots[id];
      && slot.serial in s.inserted && slot.serial < s.next
      && (slot.pairing.consumedAt.None? ==> slot.pairing == s.inserted[slot.serial] && slot.serial !in s.used)
  }

  predicate SlotsOk(s: State, a: int, b: int) {
    a in s.slots && b in s.slots && a != b ==> s.slots[a].serial != s.slots[b].serial
  }

  /** The inserted pairing permits this admission. */
  predicate Permits(s: State, serial: int, account: int, sender: PublicKey, at: nat) {
    && serial in s.inserted
    && Acceptable(s.inserted[serial], account, sender)
    && at < s.inserted[serial].expiresAt
  }

  predicate ConnectOk(s: State, t: int) {
    t in s.connects ==>
      var c := s.connects[t];
      && Permits(s, c.serial, c.account, c.sender, c.at)
      && (c.Found? ==> c.id in s.slots && s.slots[c.id].serial == c.serial)
      && (c.Consumed? ==> c.serial in s.used)
  }

  predicate ConnectsOk(s: State, t: int, u: int) {
    t in s.connects && u in s.connects && t != u && s.connects[t].Consumed? && s.connects[u].Consumed?
    ==> s.connects[t].serial != s.connects[u].serial
  }

  predicate SuccessOk(s: State, i: nat, t: int) {
    i < |s.successes| ==>
      var x := s.successes[i];
      && Permits(s, x.serial, x.account, x.sender, x.at) && x.serial in s.used
      && (t in s.connects && s.connects[t].Consumed? ==> s.connects[t].serial != x.serial)
  }

  predicate OnceOk(s: State, i: nat, j: nat) {
    i < j < |s.successes| ==> s.successes[i].serial != s.successes[j].serial
  }

  predicate SerialOk(s: State, n: int) { n >= s.next ==> n !in s.inserted && n !in s.used }

  ghost predicate Inv(s: State) {
    && (forall id :: SlotOk(s, id))
    && (forall a, b :: SlotsOk(s, a, b))
    && (forall t :: ConnectOk(s, t))
    && (forall t, u :: ConnectsOk(s, t, u))
    && (forall i, t :: SuccessOk(s, i, t))
    && (forall i, j :: OnceOk(s, i, j))
    && (forall n :: SerialOk(s, n))
  }

  function Actor(s: State, step: Step): int {
    if step.Consume? || step.Lose? || step.Admit? then step.t else 0
  }

  function Touched(s: State, step: Step): int {
    if step.Lookup? then step.id
    else if step.Consume? && step.t in s.connects && s.connects[step.t].Found? then s.connects[step.t].id
    else 0
  }

  lemma KeepsSlots(s: State, step: Step, a: int, b: int, n: int)
    requires Enabled(s, step)
    requires SlotOk(s, a) && SlotOk(s, b) && SlotsOk(s, a, b) && SerialOk(s, n) && SerialOk(s, s.next)
    requires SlotsOk(s, a, Touched(s, step)) && SlotOk(s, Touched(s, step))
    ensures SlotOk(Next(s, step), a) && SlotsOk(Next(s, step), a, b) && SerialOk(Next(s, step), n)
  {
  }

  lemma KeepsConnects(s: State, step: Step, t: int, u: int)
    requires Enabled(s, step)
    requires ConnectOk(s, t) && ConnectOk(s, u) && ConnectsOk(s, t, u) && ConnectOk(s, Actor(s, step))
      && SerialOk(s, s.next)
    requires SlotOk(s, Touched(s, step))
    ensures ConnectOk(Next(s, step), t) && ConnectsOk(Next(s, step), t, u)
  {
  }

  lemma KeepsSuccesses(s: State, step: Step, i: nat, j: nat, t: int)
    requires Enabled(s, step)
    requires SuccessOk(s, i, t) && OnceOk(s, i, j) && ConnectOk(s, t) && ConnectOk(s, Actor(s, step))
      && SerialOk(s, s.next)
    requires SlotOk(s, Touched(s, step))
    requires ConnectsOk(s, t, Actor(s, step)) && SuccessOk(s, i, Actor(s, step))
    ensures SuccessOk(Next(s, step), i, t) && OnceOk(Next(s, step), i, j)
  {
  }

  lemma StepKeeps(s: State, step: Step, v: State, a: int, b: int, n: int, t: int, u: int, i: nat, j: nat)
    requires Leads(s, step, v) && Inv(s)
    ensures SlotOk(v, a) && SlotsOk(v, a, b) && SerialOk(v, n)
    ensures ConnectOk(v, t) && ConnectsOk(v, t, u) && SuccessOk(v, i, t) && OnceOk(v, i, j)
  {
    var x, y := Actor(s, step), Touched(s, step);
    assert SlotOk(s, a) && SlotOk(s, b) && SlotOk(s, y) && SlotsOk(s, a, b) && SlotsOk(s, a, y);
    assert SerialOk(s, n) && SerialOk(s, s.next);
    assert ConnectOk(s, t) && ConnectOk(s, u) && ConnectOk(s, x) && ConnectsOk(s, t, u) && ConnectsOk(s, t, x);
    assert SuccessOk(s, i, t) && SuccessOk(s, i, x) && OnceOk(s, i, j);
    KeepsSlots(s, step, a, b, n);
    KeepsConnects(s, step, t, u);
    KeepsSuccesses(s, step, i, j, t);
  }

  lemma NextKeepsInv(s: State, step: Step, v: State)
    requires Leads(s, step, v) && Inv(s)
    ensures Inv(v)
  {
    forall id ensures SlotOk(v, id) { StepKeeps(s, step, v, id, 0, 0, 0, 0, 0, 0); }
    forall a, b ensures SlotsOk(v, a, b) { StepKeeps(s, step, v, a, b, 0, 0, 0, 0, 0); }
    forall t ensures ConnectOk(v, t) { StepKeeps(s, step, v, 0, 0, 0, t, 0, 0, 0); }
    forall t, u ensures ConnectsOk(v, t, u) { StepKeeps(s, step, v, 0, 0, 0, t, u, 0, 0); }
    forall i: nat, t ensures SuccessOk(v, i, t) { StepKeeps(s, step, v, 0, 0, 0, t, 0, i, 0); }
    forall i: nat, j: nat ensures OnceOk(v, i, j) { StepKeeps(s, step, v, 0, 0, 0, 0, 0, i, j); }
    forall n ensures SerialOk(v, n) { StepKeeps(s, step, v, 0, 0, n, 0, 0, 0, 0); }
  }

  lemma {:induction false} RunKeepsInv(run: seq<State>, steps: seq<Step>, n: nat)
    requires Run(run, steps) && n <= |steps|
    ensures Inv(run[n])
  {
    if n > 0 {
      RunKeepsInv(run, steps, n - 1);
      assert Leads(run[n - 1], steps[n - 1], run[n]);
      NextKeepsInv(run[n - 1], steps[n - 1], run[n]);
    }
  }

  // ----- Main results -----

  /** In every interleaving each pairing row admits at most one client, and only for its
      own account, the client it is bound to if any, and a lookup before its expiry. */
  lemma SecretsAreOneShot(run: seq<State>, steps: seq<Step>, n: nat, i: nat, j: nat)
    requires Run(run, steps) && n <= |steps| && i < |run[n].successes| && j < |run[n].successes|
    ensures i != j ==> run[n].successes[i].serial != run[n].successes[j].serial
    ensures var x := run[n].successes[i];
      && x.serial in run[n].inserted
      && run[n].inserted[x.serial].account == x.account
      && (run[n].inserted[x.serial].client.Some? ==> run[n].inserted[x.serial].client == Some(x.sender))
      && x.at < run[n].inserted[x.serial].expiresAt
  {
    RunKeepsInv(run, steps, n);
    assert OnceOk(run[n], i, j) && OnceOk(run[n], j, i) && SuccessOk(run[n], i, 0);
  }

  predicate IsListed(clients: Clients, id: ClientId) { id in clients && clients[id].removedAt.None? }

  /** A client appears in the list, new or again, only by a successful connect of its key. */
  lemma ListedOnlyByConnect(s: State, step: Step, v: State, id: ClientId)
    requires Leads(s, step, v)
    requires IsListed(v.clients, id) && !IsListed(s.clients, id)
    ensures step.Admit?
    ensures |v.successes| == |s.successes| + 1
    ensures v.clients[id].account == v.successes[|s.successes|].account
    ensures v.clients[id].key == v.successes[|s.successes|].sender
  {
  }
}
