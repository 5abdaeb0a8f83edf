/** The signer's tables: clients, rules, pairing secrets and the activity log. */
module SignerStorage {
  import opened Prelude
  import opened SignerPolicy

  type ClientId = int
  type PublicKey = int

  datatype Client = Client(
    account: int, key: PublicKey, revokedAt: Option<nat>, removedAt: Option<nat>, allowAll: bool, denyAll: bool)

  /** One row of the rules table. */
  datatype Row = Row(client: ClientId, rule: Rule)

  type Clients = map<ClientId, Client>

  // ----- The rules table -----

  /** The index on client, method and kind: no two rows of a client share a scope. */
  predicate UniqueRows(rows: seq<Row>) {
    forall i, j :: 0 <= i < j < |rows| ==> rows[i].client != rows[j].client || rows[i].rule.scope != rows[j].rule.scope
  }

  predicate Stored(rows: seq<Row>, client: ClientId, scope: Scope, decision: Decision) {
    Row(client, Rule(scope, decision)) in rows
  }

  /** A client's rules in row order. */
  function RulesOf(rows: seq<Row>, client: ClientId): (rules: seq<Rule>)
    ensures forall rule :: rule in rules <==> Row(client, rule) in rows
  {
    if rows == [] then []
    else
      var last := rows[|rows| - 1];
      assert rows == rows[..|rows| - 1] + [last];
      RulesOf(rows[..|rows| - 1], client) + (if last.client == client then [last.rule] else [])
  }

  lemma {:induction false} RulesUnique(rows: seq<Row>, client: ClientId)
    requires UniqueRows(rows)
    ensures UniqueScopes(RulesOf(rows, client))
  {
    if rows != [] {
      RulesUnique(rows[..|rows| - 1], client);
      var earlier := RulesOf(rows[..|rows| - 1], client);
      assert forall i :: 0 <= i < |earlier| ==> Row(client, earlier[i]) in rows[..|rows| - 1];
    }
  }

  // ----- The clients table -----

  predicate UniqueKeys(clients: Clients) {
    forall a, b :: a in clients && b in clients && a != b ==>
      clients[a].account != clients[b].account || clients[a].key != clients[b].key
  }

  predicate Listed(clients: Clients, id: ClientId, account: int) {
    id in clients && clients[id].account == account && clients[id].revokedAt.None? && clients[id].removedAt.None?
  }

  /** Revocation outranks everything: a removed client is revoked, a revoked one has
      neither app-wide flag, and the flags exclude each other. */
  predicate ClientOk(c: Client) {
    && (c.removedAt.Some? ==> c.revokedAt.Some?)
    && (c.revokedAt.Some? ==> !c.allowAll && !c.denyAll)
    && !(c.allowAll && c.denyAll)
  }

  function OrElse(a: Option<nat>, b: nat): Option<nat> { if a.Some? then a else Some(b) }

  datatype ClientOp =
    | Upsert(account: int, key: PublicKey, id: ClientId)   // `id` is the row found, or a fresh one
    | AllowAll(account: int, id: ClientId, allow: bool)
    | DenyAll(account: int, id: ClientId)
    | Forget(account: int, id: ClientId)
    | Revoke(id: ClientId, now: nat)
    | Remove(id: ClientId, now: nat)

  predicate OpEnabled(clients: Clients, op: ClientOp) {
    match op
    case Upsert(account, key, id) =>
      if id in clients then clients[id].account == account && clients[id].key == key
      else forall c :: c in clients ==> clients[c].account != account || clients[c].key != key
    case AllowAll(account, id, _) => Listed(clients, id, account)
    case DenyAll(account, id) => Listed(clients, id, account)
    case Forget(account, id) => Listed(clients, id, account)
    case Revoke(id, _) => id in clients && clients[id].revokedAt.None?
    case Remove(id, _) => id in clients
  }

  /** What an operation that finds its row does to it. */
  function OpResult(clients: Clients, op: ClientOp): Client
    requires OpEnabled(clients, op)
  {
    match op
    case Upsert(account, key, id) =>
      if id in clients then clients[id].(removedAt := None) else Client(account, key, None, None, false, false)
    case AllowAll(_, id, allow) => clients[id].(allowAll := allow, denyAll := false)
    case DenyAll(_, id) => clients[id].(allowAll := false, denyAll := true)
    case Forget(_, id) => clients[id].(allowAll := false, denyAll := false)
    case Revoke(id, now) => clients[id].(revokedAt := Some(now), allowAll := false, denyAll := false)
    case Remove(id, now) =>
      clients[id].(revokedAt := OrElse(clients[id].revokedAt, now), removedAt := OrElse(clients[id].removedAt, now),
                   allowAll := false, denyAll := false)
  }

  function OpNext(clients: Clients, op: ClientOp): Clients
    requires OpEnabled(clients, op)
  {
    clients[op.id := OpResult(clients, op)]
  }

  ghost predicate TableOk(clients: Clients) {
    UniqueKeys(clients) && forall id :: id in clients ==> ClientOk(clients[id])
  }

  lemma OpKeeps(clients: Clients, op: ClientOp, id: ClientId)
    requires OpEnabled(clients, op) && TableOk(clients)
    ensures TableOk(OpNext(clients, op))
    ensures id in clients ==>
      && id in OpNext(clients, op)
      && OpNext(clients, op)[id].account == clients[id].account && OpNext(clients, op)[id].key == clients[id].key
      && (clients[id].revokedAt.Some? ==> OpNext(clients, op)[id].revokedAt == clients[id].revokedAt)
  {
  }

  ghost predicate History(run: seq<Clients>, ops: seq<ClientOp>) {
    && |run| == |ops| + 1 && run[0] == map[]
    && forall i {:trigger ops[i]} :: 0 <= i < |ops| ==>
      OpEnabled(run[i], ops[i]) && run[i + 1] == OpNext(run[i], ops[i])
  }

  lemma {:induction false} HistoryOk(run: seq<Clients>, ops: seq<ClientOp>, n: nat)
    requires History(run, ops) && n <= |ops|
    ensures TableOk(run[n])
  {
    if n > 0 {
      HistoryOk(run, ops, n - 1);
      assert run[n] == OpNext(run[n - 1], ops[n - 1]);
      OpKeeps(run[n - 1], ops[n - 1], 0);
    }
  }

  /** Under every sequence of pairing again, approving, denying, forgetting, revoking and
      removing, a key revoked once is revoked for good, at its first revocation time,
      has no app-wide approval or denial, and keeps its one row. */
  lemma {:induction false} RevokedForGood(run: seq<Clients>, ops: seq<ClientOp>, k: nat, n: nat, id: ClientId,
      other: ClientId)
    requires History(run, ops) && k <= n <= |ops|
    requires id in run[k] && run[k][id].revokedAt.Some?
    ensures id in run[n] && run[n][id].revokedAt == run[k][id].revokedAt
    ensures !run[n][id].allowAll && !run[n][id].denyAll
    ensures run[n][id].account == run[k][id].account && run[n][id].key == run[k][id].key
    ensures other in run[n] && run[n][other].account == run[k][id].account && run[n][other].key == run[k][id].key
      ==> other == id
  {
    if k < n {
      RevokedForGood(run, ops, k, n - 1, id, id);
      assert run[n] == OpNext(run[n - 1], ops[n - 1]);
      HistoryOk(run, ops, n - 1);
      OpKeeps(run[n - 1], ops[n - 1], id);
    }
    HistoryOk(run, ops, n);
  }

  // ----- Pairing secrets -----

  datatype Direction = Bunker | NostrConnect

  datatype Pairing = Pairing(
    account: int, secret: int, direction: Direction, client: Option<PublicKey>, expiresAt: nat, consumedAt: Option<nat>)

  type Pairings = map<int, Pairing>

  predicate Usable(p: Pairing, secret: int, now: nat) {
    p.secret == secret && p.consumedAt.None? && p.expiresAt > now
  }

  // ----- The activity log -----

  datatype Verdict = WasAllowed | WasDenied | HasFailed

  datatype Source = ByPolicy | ByUser | ByTimeout | ByError

  datatype Activity = Activity(
    account: int, client: Option<ClientId>, operation: Operation, kind: Option<nat>, verdict: Verdict, source: Source)

  /** The storage object. A method is one statement or one transaction. */
  class Storage {
    var clients: Clients
    var rows: seq<Row>
    var pairings: Pairings
    var activity: seq<Activity>

    ghost predicate Valid()
      reads this
    {
      TableOk(clients) && UniqueRows(rows)
    }

    constructor ()
      ensures Valid() && clients == map[] && rows == [] && pairings == map[] && activity == []
    {
      clients, rows, pairings, activity := map[], [], map[], [];
    }

    method FindClient(account: int, key: PublicKey) returns (found: Option<ClientId>)
      ensures found.Some? ==>
        found.value in clients && clients[found.value].account == account && clients[found.value].key == key
      ensures found.None? ==> forall c :: c in clients ==> clients[c].account != account || clients[c].key != key
    {
      if id :| id in clients && clients[id].account == account && clients[id].key == key {
        return Some(id);
      }
      return None;
    }

    /** Pairing again lists the client again but never lifts its revocation. */
    method UpsertClient(account: int, key: PublicKey, unused: ClientId) returns (id: ClientId)
      requires Valid() && unused !in clients
      modifies this`clients
      ensures Valid()
      ensures OpEnabled(old(clients), Upsert(account, key, id))
        && clients == OpNext(old(clients), Upsert(account, key, id))
      ensures id in old(clients) || id == unused
    {
      var found := FindClient(account, key);
      match found
      case Some(known) =>
        id := known;
        OpKeeps(clients, Upsert(account, key, id), id);
        clients := clients[id := clients[id].(removedAt := None)];
      case None =>
        id := unused;
        OpKeeps(clients, Upsert(account, key, id), id);
        clients := clients[id := Client(account, key, None, None, false, false)];
    }

    method SetAllowAll(account: int, id: ClientId, allow: bool) returns (ok: bool)
      requires Valid()
      modifies this`clients
      ensures Valid()
      ensures ok <==> OpEnabled(old(clients), AllowAll(account, id, allow))
      ensures ok <==>
        && id in old(clients) && old(clients)[id].account == account
        && old(clients)[id].revokedAt.None? && old(clients)[id].removedAt.None?
      ensures ok ==> id in clients && clients[id].allowAll == allow && !clients[id].denyAll
      ensures clients == if ok then OpNext(old(clients), AllowAll(account, id, allow)) else old(clients)
    {
      ok := id in clients && clients[id].account == account && clients[id].revokedAt.None?
        && clients[id].removedAt.None?;
      if ok {
        OpKeeps(clients, AllowAll(account, id, allow), id);
        clients := clients[id := clients[id].(allowAll := allow, denyAll := false)];
      }
    }

    method DenyActions(account: int, id: ClientId) returns (ok: bool)
      requires Valid()
      modifies this`clients
      ensures Valid()
      ensures ok <==> OpEnabled(old(clients), DenyAll(account, id))
      ensures ok <==>
        && id in old(clients) && old(clients)[id].account == account
        && old(clients)[id].revokedAt.None? && old(clients)[id].removedAt.None?
      ensures ok ==> id in clients && !clients[id].allowAll && clients[id].denyAll
      ensures clients == if ok then OpNext(old(clients), DenyAll(account, id)) else old(clients)
    {
      ok := id in clients && clients[id].account == account && clients[id].revokedAt.None?
        && clients[id].removedAt.None?;
      if ok {
        OpKeeps(clients, DenyAll(account, id), id);
        clients := clients[id := clients[id].(allowAll := false, denyAll := true)];
      }
    }

    /** `DELETE FROM policies WHERE client_id = id`. */
    method DeleteRules(id: ClientId)
      requires UniqueRows(rows)
      modifies this`rows
      ensures UniqueRows(rows) && rows == WithoutClient(old(rows), id) && RulesOf(rows, id) == []
    {
      WithoutClientOk(rows, id);
      NoRulesWithout(rows, id);
      var kept := [];
      var i := 0;
      while i < |rows|
        invariant 0 <= i <= |rows| && kept == WithoutClient(rows[..i], id)
      {
        assert rows[..i + 1][..i] == rows[..i];
        if rows[i].client != id {
          kept := kept + [rows[i]];
        }
        i := i + 1;
      }
      assert rows[..i] == rows;
      rows := kept;
    }

    method ForgetRules(account: int, id: ClientId) returns (ok: bool)
      requires Valid()
      modifies this`clients, this`rows
      ensures Valid()
      ensures ok <==> OpEnabled(old(clients), Forget(account, id))
      ensures ok <==>
        && id in old(clients) && old(clients)[id].account == account
        && old(clients)[id].revokedAt.None? && old(clients)[id].removedAt.None?
      ensures ok ==> id in clients && !clients[id].allowAll && !clients[id].denyAll
      ensures clients == if ok then OpNext(old(clients), Forget(account, id)) else old(clients)
      ensures rows == if ok then WithoutClient(old(rows), id) else old(rows)
      ensures ok ==> RulesOf(rows, id) == []
    {
      ok := id in clients && clients[id].account == account && clients[id].revokedAt.None?
        && clients[id].removedAt.None?;
      if ok {
        OpKeeps(clients, Forget(account, id), id);
        clients := clients[id := clients[id].(allowAll := false, denyAll := false)];
        DeleteRules(id);
      }
    }

    method RevokeClient(id: ClientId, now: nat) returns (ok: bool)
      requires Valid()
      modifies this`clients, this`rows
      ensures Valid()
      ensures ok <==> id in old(clients) && old(clients)[id].revokedAt.None?
      ensures ok <==> OpEnabled(old(clients), Revoke(id, now))
      ensures ok ==> id in clients && clients[id].revokedAt == Some(now)
      ensures clients == if ok then OpNext(old(clients), Revoke(id, now)) else old(clients)
      ensures rows == if ok then WithoutClient(old(rows), id) else old(rows)
      ensures ok ==> RulesOf(rows, id) == []
    {
      ok := id in clients && clients[id].revokedAt.None?;
      if ok {
        OpKeeps(clients, Revoke(id, now), id);
        clients := clients[id := clients[id].(revokedAt := Some(now), allowAll := false, denyAll := false)];
        DeleteRules(id);
      }
    }

    method RemoveClient(id: ClientId, now: nat) returns (ok: bool)
      requires Valid()
      modifies this`clients, this`rows
      ensures Valid()
      ensures ok <==> id in old(clients)
      ensures ok <==> OpEnabled(old(clients), Remove(id, now))
      ensures ok ==>
        && id in clients && clients[id].removedAt.Some?
        && clients[id].revokedAt == if old(clients)[id].revokedAt.Some? then old(clients)[id].revokedAt else Some(now)
      ensures clients == if ok then OpNext(old(clients), Remove(id, now)) else old(clients)
      ensures rows == if ok then WithoutClient(old(rows), id) else old(rows)
      ensures ok ==> RulesOf(rows, id) == []
    {
      ok := id in clients;
      if ok {
        OpKeeps(clients, Remove(id, now), id);
        var c := clients[id];
        clients := clients[id := c.(revokedAt := OrElse(c.revokedAt, now), removedAt := OrElse(c.removedAt, now),
                                    allowAll := false, denyAll := false)];
        DeleteRules(id);
      }
    }

    /** Inserts a rule, or replaces the decision of the one with its scope. It does not
        look at revocation. */
    method SetRule(client: ClientId, scope: Scope, decision: Decision)
      requires UniqueRows(rows)
      modifies this`rows
      ensures UniqueRows(rows)
      ensures forall c, sc, d :: Stored(rows, c, sc, d) <==>
        (if c == client && sc == scope then d == decision else Stored(old(rows), c, sc, d))
    {
      var i := 0;
      while i < |rows|
        invariant 0 <= i <= |rows|
        invariant forall j :: 0 <= j < i ==> rows[j].client != client || rows[j].rule.scope != scope
      {
        if rows[i].client == client && rows[i].rule.scope == scope {
          ReplaceRow(rows, i, decision);
          rows := rows[i := Row(client, Rule(scope, decision))];
          return;
        }
        i := i + 1;
      }
      AppendRow(rows, Row(client, Rule(scope, decision)));
      rows := rows + [Row(client, Rule(scope, decision))];
    }

    method ClearRule(client: ClientId, scope: Scope)
      requires UniqueRows(rows)
      modifies this`rows
      ensures UniqueRows(rows)
      ensures forall c, sc, d :: Stored(rows, c, sc, d) <==>
        Stored(old(rows), c, sc, d) && !(c == client && sc == scope)
    {
      var i := 0;
      while i < |rows|
        invariant 0 <= i <= |rows|
        invariant forall j :: 0 <= j < i ==> rows[j].client != client || rows[j].rule.scope != scope
      {
        if rows[i].client == client && rows[i].rule.scope == scope {
          DropRow(rows, i);
          rows := rows[..i] + rows[i + 1..];
          return;
        }
        i := i + 1;
      }
    }

    /** The rules of a client, with its app-wide flags while it is listed. */
    method PolicyOf(client: ClientId) returns (policy: PolicySet)
      requires Valid()
      ensures policy == PolicyFor(clients, rows, client) && UniqueScopes(policy.rules)
      ensures policy.allowAll <==>
        && client in clients && clients[client].revokedAt.None? && clients[client].removedAt.None?
        && clients[client].allowAll
      ensures policy.denyAll <==>
        && client in clients && clients[client].revokedAt.None? && clients[client].removedAt.None?
        && clients[client].denyAll
      ensures forall rule :: rule in policy.rules <==> Row(client, rule) in rows
    {
      RulesUnique(rows, client);
      var allowAll, denyAll := false, false;
      if client in clients && clients[client].revokedAt.None? && clients[client].removedAt.None? {
        allowAll, denyAll := clients[client].allowAll, clients[client].denyAll;
      }
      var rules := [];
      var i := 0;
      while i < |rows|
        invariant 0 <= i <= |rows| && rules == RulesOf(rows[..i], client)
      {
        assert rows[..i + 1][..i] == rows[..i];
        if rows[i].client == client {
          rules := rules + [rows[i].rule];
        }
        i := i + 1;
      }
      assert rows[..i] == rows;
      policy := PolicySet(rules, allowAll, denyAll);
    }

    method InsertPairing(id: int, pairing: Pairing)
      requires id !in pairings && pairing.consumedAt.None?
      modifies this`pairings
      ensures pairings == old(pairings)[id := pairing]
    {
      pairings := pairings[id := pairing];
    }

    method UsablePairing(secret: int, now: nat) returns (found: Option<int>)
      ensures found.Some? ==> found.value in pairings && Usable(pairings[found.value], secret, now)
      ensures found.None? ==> forall id :: id in pairings ==> !Usable(pairings[id], secret, now)
    {
      if id :| id in pairings && Usable(pairings[id], secret, now) {
        return Some(id);
      }
      return None;
    }

    /** Succeeds once per row. */
    method ConsumePairing(id: int, key: PublicKey, now: nat) returns (ok: bool)
      modifies this`pairings
      ensures ok <==> id in old(pairings) && old(pairings)[id].consumedAt.None?
      ensures pairings ==
        if ok then old(pairings)[id := old(pairings)[id].(consumedAt := Some(now), client := Some(key))]
        else old(pairings)
    {
      ok := id in pairings && pairings[id].consumedAt.None?;
      if ok {
        pairings := pairings[id := pairings[id].(consumedAt := Some(now), client := Some(key))];
      }
    }

    method PrunePairings(now: nat)
      modifies this`pairings
      ensures forall id :: id in pairings <==>
        id in old(pairings) && old(pairings)[id].consumedAt.None? && old(pairings)[id].expiresAt > now
      ensures forall id :: id in pairings ==> pairings[id] == old(pairings)[id]
    {
      pairings := map id | id in pairings && pairings[id].consumedAt.None? && pairings[id].expiresAt > now ::
        pairings[id];
    }

    method RecordActivity(entry: Activity)
      modifies this`activity
      ensures activity == old(activity) + [entry]
    {
      activity := activity + [entry];
    }
  }

  function WithoutClient(rows: seq<Row>, client: ClientId): (kept: seq<Row>)
    ensures forall row :: row in kept <==> row in rows && row.client != client
  {
    if rows == [] then []
    else
      var last := rows[|rows| - 1];
      assert rows == rows[..|rows| - 1] + [last];
      WithoutClient(rows[..|rows| - 1], client) + (if last.client != client then [last] else [])
  }

  /** Deleting a client's rules leaves every other client's, in order. */
  lemma {:induction false} WithoutClientOk(rows: seq<Row>, client: ClientId)
    requires UniqueRows(rows)
    ensures UniqueRows(WithoutClient(rows, client))
  {
    if rows != [] {
      var rest := rows[..|rows| - 1];
      WithoutClientOk(rest, client);
      var kept := WithoutClient(rest, client);
      assert forall i :: 0 <= i < |kept| ==> kept[i] in rest;
    }
  }

  /** Forgetting leaves the client without a rule. */
  lemma NoRulesWithout(rows: seq<Row>, client: ClientId)
    ensures RulesOf(WithoutClient(rows, client), client) == []
  {
    var all := WithoutClient(rows, client);
    if RulesOf(all, client) != [] {
      assert RulesOf(all, client)[0] in RulesOf(all, client);
    }
  }

  lemma {:induction false} OthersKeepRules(rows: seq<Row>, client: ClientId, other: ClientId)
    requires other != client
    ensures RulesOf(WithoutClient(rows, client), other) == RulesOf(rows, other)
  {
    if rows != [] {
      var rest, last := rows[..|rows| - 1], rows[|rows| - 1];
      OthersKeepRules(rest, client, other);
      var kept := WithoutClient(rest, client);
      if last.client != client {
        assert WithoutClient(rows, client) == kept + [last];
        assert (kept + [last])[..|kept|] == kept;
      } else {
        assert WithoutClient(rows, client) == kept;
      }
    }
  }

  function PolicyFor(clients: Clients, rows: seq<Row>, client: ClientId): PolicySet {
    var listed := client in clients && clients[client].revokedAt.None? && clients[client].removedAt.None?;
    PolicySet(RulesOf(rows, client), listed && clients[client].allowAll, listed && clients[client].denyAll)
  }

  lemma ReplaceRow(rows: seq<Row>, i: nat, decision: Decision)
    requires UniqueRows(rows) && i < |rows|
    ensures var client, scope := rows[i].client, rows[i].rule.scope;
      var replaced := rows[i := Row(client, Rule(scope, decision))];
      && UniqueRows(replaced)
      && forall c, sc, d :: Stored(replaced, c, sc, d) <==>
        (if c == client && sc == scope then d == decision else Stored(rows, c, sc, d))
  {
    var client, scope := rows[i].client, rows[i].rule.scope;
    var replaced := rows[i := Row(client, Rule(scope, decision))];
    forall c, sc, d
      ensures Stored(replaced, c, sc, d) <==>
        (if c == client && sc == scope then d == decision else Stored(rows, c, sc, d))
    {
      if Stored(replaced, c, sc, d) {
        var j :| 0 <= j < |replaced| && replaced[j] == Row(c, Rule(sc, d));
        assert j != i ==> rows[j] == replaced[j];
      }
      if Stored(rows, c, sc, d) {
        var j :| 0 <= j < |rows| && rows[j] == Row(c, Rule(sc, d));
        assert j != i ==> rows[j] == replaced[j];
      }
      assert replaced[i] in replaced;
    }
  }

  lemma AppendRow(rows: seq<Row>, row: Row)
    requires UniqueRows(rows)
    requires forall j :: 0 <= j < |rows| ==> rows[j].client != row.client || rows[j].rule.scope != row.rule.scope
    ensures UniqueRows(rows + [row])
    ensures forall c, sc, d :: Stored(rows + [row], c, sc, d) <==>
      (if c == row.client && sc == row.rule.scope then d == row.rule.decision else Stored(rows, c, sc, d))
  {
    assert forall c, sc, d :: Stored(rows, c, sc, d) ==> Row(c, Rule(sc, d)) in rows;
    assert Row(row.client, Rule(row.rule.scope, row.rule.decision)) == row;
  }

  lemma DropRow(rows: seq<Row>, i: nat)
    requires UniqueRows(rows) && i < |rows|
    ensures var dropped := rows[..i] + rows[i + 1..];
      && UniqueRows(dropped)
      && forall c, sc, d :: Stored(dropped, c, sc, d) <==>
        Stored(rows, c, sc, d) && !(c == rows[i].client && sc == rows[i].rule.scope)
  {
    var dropped := rows[..i] + rows[i + 1..];
    forall c, sc, d
      ensures Stored(dropped, c, sc, d) <==>
        Stored(rows, c, sc, d) && !(c == rows[i].client && sc == rows[i].rule.scope)
    {
      if Stored(dropped, c, sc, d) {
        var j :| 0 <= j < |dropped| && dropped[j] == Row(c, Rule(sc, d));
        var k := if j < i then j else j + 1;
        assert rows[k] == dropped[j];
      }
      if Stored(rows, c, sc, d) && !(c == rows[i].client && sc == rows[i].rule.scope) {
        var k :| 0 <= k < |rows| && rows[k] == Row(c, Rule(sc, d));
        assert dropped[if k < i then k else k - 1] == rows[k];
      }
    }
  }
}
