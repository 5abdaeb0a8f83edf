/** The loop around a relay socket: reconnect backoff, and the heartbeat that notices
    a socket through which nothing flows any more. */
module RelayConnection {
  import opened Prelude

  // Durations in milliseconds.
  const BACKOFF_START := 1_000
  const BACKOFF_MAX := 60_000
  const STABLE_AFTER := 30_000
  const PING_INTERVAL := 30_000
  const PONG_TIMEOUT := 10_000
  const U64 := 0x1_0000_0000_0000_0000

  // ----- Backoff -----

  /** Sessions since the last one that lasted, or since the first. */
  function Since(lengths: seq<nat>, k: nat): nat
    requires k < |lengths|
  {
    if lengths[k] >= STABLE_AFTER || k == 0 then 0 else Since(lengths, k - 1) + 1
  }

  function Wait(n: nat): int {
    if n == 0 then BACKOFF_START else Min(Wait(n - 1) * 2, BACKOFF_MAX)
  }

  /** 1, 2, 4, ... seconds, at most 60. */
  lemma {:induction false} WaitIsCappedPower(n: nat)
    ensures Wait(n) == Min(1_000 * Pow2(n), 60_000)
  {
    if n > 0 {
      WaitIsCappedPower(n - 1);
    }
  }

  /** The wait after each of a sequence of sessions of the given lengths. */
  method Run(lengths: seq<nat>) returns (waits: seq<int>)
    ensures |waits| == |lengths|
    ensures forall k {:trigger waits[k]} :: 0 <= k < |lengths| ==> waits[k] == Wait(Since(lengths, k))
  {
    var backoff: int := BACKOFF_START;
    waits := [];
    var k := 0;
    ghost var since := 0;
    while k < |lengths|
      invariant 0 <= k <= |lengths| && |waits| == k
      invariant k == 0 ==> since == 0
      invariant k > 0 ==> since == Since(lengths, k - 1) + 1
      invariant backoff == Wait(since)
      invariant forall i {:trigger waits[i]} :: 0 <= i < k ==> waits[i] == Wait(Since(lengths, i))
    {
      if lengths[k] >= STABLE_AFTER {
        backoff, since := BACKOFF_START, 0;
      }
      assert since == Since(lengths, k);
      waits := waits + [backoff];
      backoff, since := Min(backoff * 2, BACKOFF_MAX), since + 1;
      k := k + 1;
    }
  }

  /** After n short sessions in a row the wait is 2^(n-1) seconds if they are the first
      ones, and 2^n if a lasting session came before them. */
  lemma {:induction false} ShortSessions(lengths: seq<nat>, first: nat, k: nat)
    requires first <= k < |lengths|
    requires forall i :: first <= i <= k ==> lengths[i] < STABLE_AFTER
    requires first == 0 || lengths[first - 1] >= STABLE_AFTER
    ensures Since(lengths, k) == k - first + (if first == 0 then 0 else 1)
  {
    if k > first {
      ShortSessions(lengths, first, k - 1);
    }
  }

  lemma {:induction false} Pow2Grows(n: nat)
    requires n >= 6
    ensures Pow2(n) >= 64
  {
    if n > 6 {
      Pow2Grows(n - 1);
    } else {
      assert Pow2(6) == 2 * Pow2(5) == 4 * Pow2(4) == 8 * Pow2(3) == 16 * Pow2(2) == 32 * Pow2(1);
    }
  }

  /** Whether the wait after `n` short sessions in a row is min(2^(n-1), 60) seconds:
      exactly when no lasting session came before them, or the cap applies anyway. */
  lemma BackoffIsCappedPower(lengths: seq<nat>, first: nat, k: nat)
    requires first <= k < |lengths|
    requires forall i :: first <= i <= k ==> lengths[i] < STABLE_AFTER
    requires first == 0 || lengths[first - 1] >= STABLE_AFTER
    ensures Wait(Since(lengths, k)) == Min(BACKOFF_START * Pow2(k - first), BACKOFF_MAX)
      <==> first == 0 || k - first >= 6
  {
    var n := k - first;
    ShortSessions(lengths, first, k);
    WaitIsCappedPower(Since(lengths, k));
    assert Pow2(n + 1) == 2 * Pow2(n);
    if n >= 6 {
      Pow2Grows(n);
    } else {
      SmallPow2(n);
    }
  }

  lemma SmallPow2(n: nat)
    requires n < 6
    ensures Pow2(n) <= 32
  {
    assert Pow2(5) == 2 * Pow2(4) == 4 * Pow2(3) == 8 * Pow2(2) == 16 * Pow2(1) == 32;
  }

  /** One session of 30 seconds, then one that fails at once: the wait is 2 seconds, not 1. */
  lemma WaitAfterLastingSession()
    ensures Wait(Since([30_000, 0], 1)) == 2_000
    ensures Min(BACKOFF_START * Pow2(0), BACKOFF_MAX) == 1_000
  {
    ShortSessions([30_000, 0], 1, 1);
    WaitIsCappedPower(1);
  }

  // ----- Ping payloads -----

  function BigEndian(n: nat, width: nat): (bytes: seq<nat>)
    ensures |bytes| == width
  {
    if width == 0 then [] else BigEndian(n / 256, width - 1) + [n % 256]
  }

  function Value(bytes: seq<nat>): nat {
    if bytes == [] then 0 else 256 * Value(bytes[..|bytes| - 1]) + bytes[|bytes| - 1]
  }

  function Pow256(width: nat): nat {
    if width == 0 then 1 else 256 * Pow256(width - 1)
  }

  lemma {:induction false} BytesDetermineId(n: nat, width: nat)
    requires n < Pow256(width)
    ensures Value(BigEndian(n, width)) == n
  {
    if width > 0 {
      BytesDetermineId(n / 256, width - 1);
      assert BigEndian(n, width)[..width - 1] == BigEndian(n / 256, width - 1);
    }
  }

  function Payload(id: nat): seq<nat> { BigEndian(id, 8) }

  lemma PayloadInjective(a: nat, b: nat)
    requires a < U64 && b < U64 && Payload(a) == Payload(b)
    ensures a == b
  {
    assert Pow256(8) == U64;
    BytesDetermineId(a, 8);
    BytesDetermineId(b, 8);
  }

  // ----- Heartbeat -----

  datatype Beat = Beat(nextPing: nat, pongDeadline: Option<nat>, pingId: nat)

  datatype Event =
    | Pong(payload: seq<nat>)
    | Timer                    // fires at the pong deadline if there is one, else at the next ping

  datatype Action = Idle | SendPing(id: nat) | Disconnect

  predicate Fires(b: Beat, now: nat) {
    match b.pongDeadline
    case Some(deadline) => deadline <= now
    case None => b.nextPing <= now
  }

  predicate Answers(b: Beat, payload: seq<nat>) { b.pongDeadline.Some? && payload == Payload(b.pingId) }

  class Heartbeat {
    var nextPing: nat
    var pongDeadline: Option<nat>
    var pingId: nat

    function View(): Beat
      reads this
    {
      Beat(nextPing, pongDeadline, pingId)
    }

    constructor (now: nat)
      ensures View() == Start(now)
    {
      nextPing, pongDeadline, pingId := now + PING_INTERVAL, None, 0;
    }

    method OnPong(payload: seq<nat>, now: nat)
      modifies this
      ensures View() == Next(old(View()), Pong(payload), now)
    {
      if pongDeadline.Some? && payload == Payload(pingId) {
        pongDeadline := None;
        nextPing := now + PING_INTERVAL;
      }
    }

    method OnTimer(now: nat) returns (action: Action)
      modifies this
      ensures View() == Next(old(View()), Timer, now) && action == Act(old(View()), Timer)
    {
      if pongDeadline.Some? {
        return Disconnect;
      }
      pingId := (pingId + 1) % U64;
      pongDeadline := Some(now + PONG_TIMEOUT);
      return SendPing(pingId);
    }
  }

  function Start(now: nat): Beat { Beat(now + PING_INTERVAL, None, 0) }

  function Next(b: Beat, e: Event, now: nat): Beat {
    match e
    case Pong(payload) => if Answers(b, payload) then b.(pongDeadline := None, nextPing := now + PING_INTERVAL) else b
    case Timer =>
      if b.pongDeadline.Some? then b else b.(pingId := (b.pingId + 1) % U64, pongDeadline := Some(now + PONG_TIMEOUT))
  }

  function Act(b: Beat, e: Event): Action {
    if e.Pong? then Idle
    else if b.pongDeadline.Some? then Disconnect
    else SendPing((b.pingId + 1) % U64)
  }

  /** One socket's life: frames and timer firings in time order, none after a disconnect. */
  ghost predicate Life(run: seq<Beat>, events: seq<Event>, at: seq<nat>) {
    && |run| == |events| + 1 && |at| == |events|
    && (exists now: nat {:trigger Start(now)} :: run[0] == Start(now) && (|at| > 0 ==> now <= at[0]))
    && (forall i :: 0 <= i < |events| ==> run[i + 1] == Next(run[i], events[i], at[i]))
    && (forall i :: 0 <= i < |events| && events[i].Timer? ==> Fires(run[i], at[i]))
    && (forall i, j :: 0 <= i < j < |events| ==> at[i] <= at[j] && Act(run[i], events[i]) != Disconnect)
  }

  predicate Pings(b: Beat, e: Event) { Act(b, e).SendPing? }

  /** Waiting for the pong of the ping sent at step `j`, its deadline unmoved. */
  lemma {:induction false} Outstanding(run: seq<Beat>, events: seq<Event>, at: seq<nat>, j: nat, n: nat)
    requires Life(run, events, at) && j < n <= |events| && Pings(run[j], events[j])
    requires forall i :: j < i < n ==> !Answers(run[i], PayloadOf(events[i]))
    ensures run[n].pongDeadline == Some(at[j] + 10_000) && run[n].pingId == Act(run[j], events[j]).id
    ensures forall i :: j < i < n ==> !Pings(run[i], events[i])
  {
    if j + 1 < n {
      Outstanding(run, events, at, j, n - 1);
      assert run[n] == Next(run[n - 1], events[n - 1], at[n - 1]);
    } else {
      assert run[n] == Next(run[j], events[j], at[j]);
    }
  }

  /** The payload of a pong; for other events, one that answers nothing. */
  function PayloadOf(e: Event): seq<nat> { if e.Pong? then e.payload else [] }

  /** The first pong, if any, between two steps that answers the outstanding ping. */
  lemma {:induction false} FirstAnswer(run: seq<Beat>, events: seq<Event>, j: nat, n: nat) returns (i: nat)
    requires |run| == |events| + 1 && j < n <= |events|
    ensures j < i <= n
    ensures forall m :: j < m < i ==> !Answers(run[m], PayloadOf(events[m]))
    ensures i < n ==> Answers(run[i], PayloadOf(events[i]))
  {
    if j + 1 == n {
      i := n;
    } else {
      i := FirstAnswer(run, events, j, n - 1);
      if i == n - 1 && !Answers(run[i], PayloadOf(events[i])) {
        i := n;
      }
    }
  }

  /** Between two pings the relay echoed the first one's own payload; the next ping
      carries the next number and waits out the full interval after that echo. */
  lemma PingOnlyAfterItsPong(run: seq<Beat>, events: seq<Event>, at: seq<nat>, j: nat, k: nat) returns (i: nat)
    requires Life(run, events, at) && j < k < |events|
    requires Pings(run[j], events[j]) && Pings(run[k], events[k])
    requires forall m :: j < m < k ==> !Pings(run[m], events[m])
    ensures j < i < k && events[i] == Pong(Payload(Act(run[j], events[j]).id))
    ensures Act(run[k], events[k]).id == (Act(run[j], events[j]).id + 1) % U64
    ensures at[k] >= at[i] + 30_000
  {
    i := FirstAnswer(run, events, j, k);
    Outstanding(run, events, at, j, i);
    if i == k {
      assert false;
    }
    assert run[i + 1] == Next(run[i], events[i], at[i]);
    QuietUntil(run, events, at, i + 1, k);
  }

  /** With no ping outstanding, nothing but a timer changes the heartbeat. */
  lemma {:induction false} QuietUntil(run: seq<Beat>, events: seq<Event>, at: seq<nat>, i: nat, k: nat)
    requires Life(run, events, at) && i <= k <= |events| && run[i].pongDeadline == None
    requires forall m :: i <= m < k ==> !Pings(run[m], events[m])
    ensures run[k] == run[i]
  {
    if i < k {
      QuietUntil(run, events, at, i, k - 1);
      assert run[k] == Next(run[k - 1], events[k - 1], at[k - 1]);
    }
  }

  /** A pong that is stale, or that nobody asked for, changes nothing: the deadline of
      the outstanding ping neither moves nor clears. */
  lemma StalePongIgnored(b: Beat, id: nat, now: nat)
    requires b.pingId < U64 && id < U64
    requires b.pongDeadline == None || id != b.pingId
    ensures Next(b, Pong(Payload(id)), now) == b
  {
    if b.pongDeadline.Some? && Payload(id) == Payload(b.pingId) {
      PayloadInjective(id, b.pingId);
    }
  }

  /** A relay that does not echo a ping is dropped by the next timer, and no earlier
      than ten seconds after that ping. */
  lemma SilenceDisconnects(run: seq<Beat>, events: seq<Event>, at: seq<nat>, j: nat, n: nat)
    requires Life(run, events, at) && j < n < |events| && Pings(run[j], events[j]) && events[n] == Timer
    requires forall i :: j < i < n ==> events[i] != Pong(Payload(Act(run[j], events[j]).id))
    ensures Act(run[n], events[n]) == Disconnect && at[n] >= at[j] + 10_000
  {
    var i := FirstAnswer(run, events, j, n);
    Outstanding(run, events, at, j, i);
    if i < n {
      assert false;
    }
  }
}
