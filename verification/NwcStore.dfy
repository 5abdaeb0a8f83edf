/** The durable tables behind Nostr Wallet Connect: connections, admitted requests
    and claimed payments. */
module NwcStore {
  import opened Prelude
  import opened NwcProtocol

  const KEEP_ANSWERED: nat := 600
  const RATE_WINDOW: nat := 60
  const RATE_LIMIT: nat := 60
  const MAX_CONNECTIONS: nat := 16

  /** A 256-bit hash or public key: request event ids, connections (named by their
      client key), identities and payment hashes. */
  type Id = int

  datatype Connection = Connection(account: int, mint: string, revoked: bool)
  datatype Request = Request(connection: Id, created: nat, response: Option<string>)
  datatype Begin = New | Replay | Limited

  type Connections = map<Id, Connection>
  type Requests = map<Id, Request>
  type Payments = map<(Id, Id), Id>

  // ----- Specification of each statement as a function on its table -----

  predicate Active(connections: Connections, id: Id) {
    id in connections && !connections[id].revoked
  }

  function Revoked(connections: Connections, ids: set<Id>): Connections {
    map id | id in connections :: if id in ids then connections[id].(revoked := true) else connections[id]
  }

  function OfAccount(connections: Connections, account: int): set<Id> {
    set id | id in connections && connections[id].account == account
  }

  function Pruned(requests: Requests, now: nat): Requests {
    map id | id in requests && !(requests[id].response.Some? && requests[id].created < SatSub(now, KEEP_ANSWERED))
      :: requests[id]
  }

  function CreatedAfter(requests: Requests, connection: Id, after: nat): set<Id> {
    set id | id in requests && requests[id].connection == connection && requests[id].created > after
  }

  function Admission(requests: Requests, id: Id, connection: Id, now: nat): Begin {
    var kept := Pruned(requests, now);
    if id in kept then Replay
    else if |CreatedAfter(kept, connection, SatSub(now, RATE_WINDOW))| >= RATE_LIMIT then Limited
    else New
  }

  function Admitted(requests: Requests, id: Id, connection: Id, now: nat): Requests {
    var kept := Pruned(requests, now);
    if Admission(requests, id, connection, now) == New then kept[id := Request(connection, now, None)] else kept
  }

  function Answered(requests: Requests, id: Id, response: string): Requests {
    if id in requests then requests[id := requests[id].(response := Some(response))] else requests
  }

  /** The store. Every method is one transaction under the database mutex. */
  class Store {
    var connections: Connections
    var requests: Requests
    var payments: Payments

    constructor ()
      ensures connections == map[] && requests == map[] && payments == map[]
    {
      connections, requests, payments := map[], map[], map[];
    }

    method Add(id: Id, account: int, mint: string) returns (added: bool)
      modifies this`connections
      ensures added <==>
        |set c | c in old(connections) && !old(connections)[c].revoked| < 16 && id !in old(connections)
      ensures connections ==
        if added then old(connections)[id := Connection(account, mint, false)] else old(connections)
    {
      var live := set c | c in connections && !connections[c].revoked;
      added := |live| < MAX_CONNECTIONS && id !in connections;
      if added {
        connections := connections[id := Connection(account, mint, false)];
      }
    }

    /** Fails, changing nothing, unless a live connection of that account is named. */
    method Revoke(id: Id, account: int) returns (found: bool)
      modifies this`connections
      ensures found <==> Active(old(connections), id) && old(connections)[id].account == account
      ensures connections == if found then Revoked(old(connections), {id}) else old(connections)
      ensures found ==> connections == old(connections)[id := old(connections)[id].(revoked := true)]
    {
      found := id in connections && connections[id].account == account && !connections[id].revoked;
      if found {
        connections := connections[id := connections[id].(revoked := true)];
      }
    }

    method RevokeAccount(account: int)
      modifies this`connections
      ensures connections == Revoked(old(connections), OfAccount(old(connections), account))
      ensures forall id :: Active(connections, id) <==>
        Active(old(connections), id) && old(connections)[id].account != account
    {
      connections := map id | id in connections ::
        if connections[id].account == account then connections[id].(revoked := true) else connections[id];
    }

    method Begin(id: Id, connection: Id, now: nat) returns (admission: Begin)
      modifies this`requests
      ensures admission == Admission(old(requests), id, connection, now)
      ensures requests == Admitted(old(requests), id, connection, now)
      ensures forall r :: r in requests && r != id ==> r in old(requests) && requests[r] == old(requests)[r]
      ensures forall r :: r in old(requests) ==>
        (r !in requests <==> old(requests)[r].response.Some? && old(requests)[r].created + 600 < now
                             && !(r == id && admission == New))
      ensures var kept := set r | r in old(requests)
          && !(old(requests)[r].response.Some? && old(requests)[r].created + 600 < now);
        var recent := set r | r in kept && old(requests)[r].connection == connection
          && old(requests)[r].created > (if now < 60 then 0 else now - 60);
        admission == if id in kept then Replay else if |recent| >= 60 then Limited else New
      ensures admission == New ==> id in requests && requests[id] == Request(connection, now, None)
    {
      var before := SatSub(now, KEEP_ANSWERED);
      requests := map r | r in requests && !(requests[r].response.Some? && requests[r].created < before) :: requests[r];
      if id in requests {
        return Replay;
      }
      ghost var kept := set r | r in old(requests)
        && !(old(requests)[r].response.Some? && old(requests)[r].created + 600 < now);
      assert requests.Keys == kept;
      var after := SatSub(now, RATE_WINDOW);
      var recent := set r | r in requests && requests[r].connection == connection && requests[r].created > after;
      assert recent == set r | r in kept && old(requests)[r].connection == connection
        && old(requests)[r].created > (if now < 60 then 0 else now - 60);
      if |recent| >= RATE_LIMIT {
        return Limited;
      }
      requests := requests[id := Request(connection, now, None)];
      return New;
    }

    method Cached(id: Id) returns (reply: Option<string>)
      ensures reply == if id in requests then requests[id].response else None
    {
      reply := if id in requests then requests[id].response else None;
    }

    method Finish(id: Id, response: string)
      modifies this`requests
      ensures requests == Answered(old(requests), id, response)
      ensures requests ==
        if id in old(requests) then old(requests)[id := old(requests)[id].(response := Some(response))]
        else old(requests)
    {
      if id in requests {
        requests := requests[id := requests[id].(response := Some(response))];
      }
    }

    /** `INSERT OR IGNORE`: only the first claim of an identity and payment hash succeeds. */
    method Claim(identity: Id, hash: Id, request: Id) returns (claimed: bool)
      modifies this`payments
      ensures claimed <==> (identity, hash) !in old(payments)
      ensures (identity, hash) in payments && (claimed ==> payments[(identity, hash)] == request)
      ensures forall key :: key in old(payments) ==> key in payments && payments[key] == old(payments)[key]
      ensures payments.Keys == old(payments).Keys + {(identity, hash)}
    {
      claimed := (identity, hash) !in payments;
      if claimed {
        payments := payments[(identity, hash) := request];
      }
    }
  }

  // ----- Runs of the requests table -----

  /** One admission answered `New`. */
  datatype Entry = Entry(id: Id, connection: Id, at: nat)

  /** The table, the log of its admissions, and the clock. */
  datatype World = World(requests: Requests, log: seq<Entry>, clock: nat)

  datatype Op =
    | Deliver(id: Id, connection: Id, checked: nat, at: nat)
      // validated at `checked`, admitted at `at`
    | Reply(id: Id, response: string, at: nat)

  /** Creation times of request events: fixed per id, because an id is the hash of
      the signed content. `delay` bounds the time from validation to admission. */
  datatype Env = Env(created: Id -> nat, delay: nat)

  predicate Allowed(env: Env, w: World, op: Op) {
    && w.clock <= op.at
    && (op.Deliver? ==> op.checked <= op.at <= op.checked + env.delay && Fresh(env.created(op.id), op.checked))
  }

  function Next(w: World, op: Op): World {
    match op
    case Deliver(id, connection, _, at) =>
      World(Admitted(w.requests, id, connection, at),
            if Admission(w.requests, id, connection, at) == New then w.log + [Entry(id, connection, at)] else w.log,
            at)
    case Reply(id, response, at) =>
      World(Answered(w.requests, id, response), w.log, at)
  }

  ghost predicate Run(env: Env, ws: seq<World>, ops: seq<Op>) {
    && |ws| == |ops| + 1
    && ws[0].requests == map[] && ws[0].log == []
    && forall i {:trigger ops[i]} :: 0 <= i < |ops| ==> Allowed(env, ws[i], ops[i]) && ws[i + 1] == Next(ws[i], ops[i])
  }

  // ----- At most one admission per request id -----

  /** An admitted row is still there unless it is old enough to have been pruned,
      and its event was not created much after its admission. */
  ghost predicate Remembered(env: Env, w: World) {
    forall i :: 0 <= i < |w.log| ==>
      && w.log[i].at <= w.clock
      && env.created(w.log[i].id) <= w.log[i].at + FUTURE_SKEW
      && (w.log[i].at + KEEP_ANSWERED >= w.clock ==>
            && w.log[i].id in w.requests
            && w.requests[w.log[i].id].connection == w.log[i].connection
            && w.requests[w.log[i].id].created == w.log[i].at)
  }

  ghost predicate DistinctIds(log: seq<Entry>) {
    forall i, j :: 0 <= i < j < |log| ==> log[i].id != log[j].id
  }

  lemma NextRemembers(env: Env, w: World, op: Op)
    requires Allowed(env, w, op) && Remembered(env, w)
    ensures Remembered(env, Next(w, op))
  {
    var v := Next(w, op);
    forall i | 0 <= i < |v.log|
      ensures && v.log[i].at <= v.clock
              && env.created(v.log[i].id) <= v.log[i].at + FUTURE_SKEW
              && (v.log[i].at + KEEP_ANSWERED >= v.clock ==>
                    && v.log[i].id in v.requests
                    && v.requests[v.log[i].id].connection == v.log[i].connection
                    && v.requests[v.log[i].id].created == v.log[i].at)
    {
      if i < |w.log| {
        assert v.log[i] == w.log[i];
      }
    }
  }

  /** Within the delay bound, an id whose row was pruned is too old to be valid again. */
  lemma NextStaysDistinct(env: Env, w: World, op: Op)
    requires env.delay <= 271
    requires Allowed(env, w, op) && Remembered(env, w) && DistinctIds(w.log)
    ensures DistinctIds(Next(w, op).log)
  {
    if op.Deliver? && Admission(w.requests, op.id, op.connection, op.at) == New {
      assert op.id !in Pruned(w.requests, op.at);
      assert forall i :: 0 <= i < |w.log| && w.log[i].id == op.id ==> w.log[i].at + KEEP_ANSWERED < op.at;
    }
  }

  lemma {:induction false} RunRemembers(env: Env, ws: seq<World>, ops: seq<Op>)
    requires Run(env, ws, ops)
    ensures Remembered(env, ws[|ops|])
    ensures env.delay <= 271 ==> DistinctIds(ws[|ops|].log)
    decreases |ops|
  {
    if ops != [] {
      var n := |ops| - 1;
      RunRemembers(env, ws[..n + 1], ops[..n]);
      assert Allowed(env, ws[n], ops[n]) && ws[n + 1] == Next(ws[n], ops[n]);
      NextRemembers(env, ws[n], ops[n]);
      if env.delay <= 271 {
        NextStaysDistinct(env, ws[n], ops[n]);
      }
    }
  }

  ghost predicate AdmitsTwice(env: Env, ws: seq<World>, ops: seq<Op>) {
    Run(env, ws, ops) && !DistinctIds(ws[|ops|].log)
  }

  /** A request event is admitted as new at most once ever, across pruning, exactly
      when admission always follows validation within 271 seconds. */
  lemma AdmittedAtMostOnce(delay: nat)
    ensures delay <= 271 <==>
      forall created: Id -> nat, ws: seq<World>, ops: seq<Op> :: Run(Env(created, delay), ws, ops) ==>
        DistinctIds(ws[|ops|].log)
  {
    if delay <= 271 {
      forall created: Id -> nat, ws: seq<World>, ops: seq<Op> | Run(Env(created, delay), ws, ops)
        ensures DistinctIds(ws[|ops|].log)
      {
        RunRemembers(Env(created, delay), ws, ops);
      }
    } else {
      var env, ws, ops := LateAdmission(delay);
      assert Run(Env(env.created, delay), ws, ops);
    }
  }

  /** An event dated 30 s ahead, answered, pruned 601 s later by its own second
      admission, which was validated 272 s before. */
  lemma LateAdmission(delay: nat) returns (env: Env, ws: seq<World>, ops: seq<Op>)
    requires delay > 271
    ensures env.delay == delay && AdmitsTwice(env, ws, ops)
  {
    env := Env((id: Id) => 1030, delay);
    ops := [Deliver(7, 1, 1000, 1000), Reply(7, "", 1000), Deliver(7, 1, 1329, 1601)];
    var w0 := World(map[], [], 0);
    var w1 := Next(w0, ops[0]);
    assert CreatedAfter(Pruned(w0.requests, 1000), 1, 940) == {};
    assert w1.requests == map[7 := Request(1, 1000, None)];
    var w2 := Next(w1, ops[1]);
    assert w2.requests == map[7 := Request(1, 1000, Some(""))];
    var w3 := Next(w2, ops[2]);
    assert Pruned(w2.requests, 1601) == map[];
    assert CreatedAfter(map[], 1, 1541) == {};
    assert w3.log == [Entry(7, 1, 1000), Entry(7, 1, 1601)];
    assert w3.log[0].id == w3.log[1].id;
    ws := [w0, w1, w2, w3];
  }

  // ----- The rate limit is a sliding window -----

  /** Positions in the log of a connection's admissions in the half-open minute ending at `t`. */
  function Window(log: seq<Entry>, connection: Id, t: nat): set<nat> {
    set i: nat | i < |log| && log[i].connection == connection && log[i].at <= t < log[i].at + RATE_WINDOW
  }

  /** Recent admissions are distinct rows, and each was within the limit when made. */
  ghost predicate Paced(w: World) {
    && (forall i :: 0 <= i < |w.log| ==> 0 < w.log[i].at)
    && (forall i, j :: 0 <= i < j < |w.log| && w.log[i].at + KEEP_ANSWERED >= w.clock ==> w.log[i].id != w.log[j].id)
    && (forall k :: 0 <= k < |w.log| ==> |Window(w.log[..k], w.log[k].connection, w.log[k].at)| < RATE_LIMIT)
    && (forall i, j :: 0 <= i < j < |w.log| ==> w.log[i].at <= w.log[j].at)
  }

  lemma RecentIsCounted(env: Env, w: World, connection: Id, at: nat, i: nat)
    requires Remembered(env, w) && Paced(w) && w.clock <= at && i in Window(w.log, connection, at)
    ensures w.log[i].at + KEEP_ANSWERED >= w.clock
    ensures w.log[i].id in CreatedAfter(Pruned(w.requests, at), connection, SatSub(at, RATE_WINDOW))
  {
  }

  lemma WindowBound(env: Env, w: World, connection: Id, at: nat)
    requires Remembered(env, w) && Paced(w) && w.clock <= at
    ensures |Window(w.log, connection, at)|
      <= |CreatedAfter(Pruned(w.requests, at), connection, SatSub(at, RATE_WINDOW))|
  {
    var ids := map i: nat | i < |w.log| :: w.log[i].id;
    var window := Window(w.log, connection, at);
    forall i | i in window
      ensures ids[i] in CreatedAfter(Pruned(w.requests, at), connection, SatSub(at, RATE_WINDOW))
    {
      RecentIsCounted(env, w, connection, at, i);
    }
    assert forall i, j :: i in window && j in window && ids[i] == ids[j] ==> i == j;
    InjectionSize(window, CreatedAfter(Pruned(w.requests, at), connection, SatSub(at, RATE_WINDOW)), ids);
  }

  lemma NextPaced(env: Env, w: World, op: Op)
    requires Allowed(env, w, op) && Remembered(env, w) && Paced(w) && 0 < op.at
    ensures Paced(Next(w, op))
  {
    var v := Next(w, op);
    if v.log != w.log {
      WindowBound(env, w, op.connection, op.at);
      assert v.log == w.log + [Entry(op.id, op.connection, op.at)];
      assert v.log[..|w.log|] == w.log;
      assert forall k :: 0 <= k < |w.log| ==> v.log[..k] == w.log[..k];
    }
  }

  lemma {:induction false} RunPaced(env: Env, ws: seq<World>, ops: seq<Op>)
    requires Run(env, ws, ops)
    requires forall i :: 0 <= i < |ops| ==> 0 < ops[i].at
    ensures Paced(ws[|ops|])
    decreases |ops|
  {
    if ops != [] {
      var n := |ops| - 1;
      RunPaced(env, ws[..n + 1], ops[..n]);
      RunRemembers(env, ws[..n + 1], ops[..n]);
      assert ws[n + 1] == Next(ws[n], ops[n]);
      NextPaced(env, ws[n], ops[n]);
    }
  }

  /** Everything in a window with the last admission was in that admission's own window. */
  lemma LastInWindow(w: World, k: nat, connection: Id, t: nat)
    requires Paced(w) && k < |w.log|
    ensures var all := Window(w.log[..k + 1], connection, t);
      if k in all then w.log[k].connection == connection && all - {k} <= Window(w.log[..k], connection, w.log[k].at)
      else all <= Window(w.log[..k], connection, t)
  {
  }

  lemma {:induction false} PacedWindow(w: World, n: nat, connection: Id, t: nat)
    requires Paced(w) && n <= |w.log|
    ensures |Window(w.log[..n], connection, t)| <= RATE_LIMIT
    decreases n
  {
    if n > 0 {
      var k: nat := n - 1;
      PacedWindow(w, k, connection, t);
      var all := Window(w.log[..n], connection, t);
      LastInWindow(w, k, connection, t);
      if k in all {
        SubsetSize(all - {k}, Window(w.log[..k], connection, w.log[k].at));
        assert |all| == |all - {k}| + 1;
      } else {
        SubsetSize(all, Window(w.log[..k], connection, t));
      }
    }
  }

  /** With a clock past zero, over any run with pruning and replies, no connection is
      admitted more than 60 times within any half-open minute. */
  lemma SlidingWindow(env: Env, ws: seq<World>, ops: seq<Op>, connection: Id, t: nat)
    requires Run(env, ws, ops)
    requires forall i :: 0 <= i < |ops| ==> 0 < ops[i].at
    ensures |Window(ws[|ops|].log, connection, t)| <= RATE_LIMIT
  {
    RunPaced(env, ws, ops);
    var w := ws[|ops|];
    PacedWindow(w, |w.log|, connection, t);
    assert w.log[..|w.log|] == w.log;
  }

  /** The limit holds for every run whose clock never reads below `start`. */
  ghost predicate LimitHolds(start: nat) {
    forall env: Env, ws: seq<World>, ops: seq<Op>, connection: Id, t: nat ::
      Run(env, ws, ops) && (forall i :: 0 <= i < |ops| ==> start <= ops[i].at)
      ==> |Window(ws[|ops|].log, connection, t)| <= RATE_LIMIT
  }

  /** At clock zero the window's lower bound saturates at zero and excludes the rows
      written at that very second, so any number of requests is admitted. */
  lemma {:induction false} FloodAtClockZero(env: Env, n: nat) returns (ws: seq<World>, ops: seq<Op>)
    requires env.created == (id => 0)
    ensures Run(env, ws, ops) && |ops| == n && ws[n].clock == 0
    ensures forall i :: 0 <= i < n ==> ops[i].at == 0
    ensures forall id :: id in ws[n].requests ==> id < n && ws[n].requests[id].created == 0
    ensures |ws[n].log| == n
    ensures forall i :: 0 <= i < n ==> ws[n].log[i].connection == 1 && ws[n].log[i].at == 0
  {
    if n == 0 {
      ws, ops := [World(map[], [], 0)], [];
    } else {
      ws, ops := FloodAtClockZero(env, n - 1);
      var w := ws[n - 1];
      var op := Deliver(n - 1, 1, 0, 0);
      assert CreatedAfter(Pruned(w.requests, 0), 1, 0) == {};
      ws, ops := ws + [Next(w, op)], ops + [op];
    }
  }

  /** The rate limit is a true sliding window exactly for clocks that are past zero. */
  lemma RateLimitIsSliding(start: nat)
    ensures LimitHolds(start) <==> start > 0
  {
    if start > 0 {
      forall env: Env, ws: seq<World>, ops: seq<Op>, connection: Id, t: nat
        | Run(env, ws, ops) && (forall i :: 0 <= i < |ops| ==> start <= ops[i].at)
        ensures |Window(ws[|ops|].log, connection, t)| <= RATE_LIMIT
      {
        SlidingWindow(env, ws, ops, connection, t);
      }
    } else {
      var env := Env(id => 0, 0);
      var ws, ops := FloodAtClockZero(env, 61);
      FullWindow(ws[61].log);
    }
  }

  lemma {:induction false} FullWindow(log: seq<Entry>)
    requires forall i :: 0 <= i < |log| ==> log[i].connection == 1 && log[i].at == 0
    ensures |Window(log, 1, 0)| == |log|
  {
    if log != [] {
      var k: nat := |log| - 1;
      FullWindow(log[..k]);
      assert Window(log, 1, 0) == Window(log[..k], 1, 0) + {k};
    }
  }
}
