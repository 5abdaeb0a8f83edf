/** Collecting paid mint quotes: one durable retry record per quote, written before the
    mint is contacted, with exponential backoff. */
module Receiving {
  import opened Prelude

  const U32_MAX := 0xFFFF_FFFF
  const FIRST_DELAY := 60
  const MAX_DELAY := 1800

  type QuoteId = int

  datatype Retry = Retry(attempts: nat, after: nat, blocked: bool)

  /** `60 << min(attempts - 1, 5)`, capped. */
  function ShiftedDelay(attempts: nat): nat {
    Min(FIRST_DELAY * Pow2(Min(SatSub(attempts, 1), 5)), MAX_DELAY)
  }

  function Pending(previous: Option<Retry>, now: nat): Retry {
    var attempts := if previous.None? then 1 else Min(previous.value.attempts + 1, U32_MAX);
    Retry(attempts, SatAdd(now, ShiftedDelay(attempts)), false)
  }

  predicate Due(retry: Retry, now: nat, manual: bool) {
    manual || (!retry.blocked && now >= retry.after)
  }

  predicate MayStart(record: Option<Retry>, now: nat, manual: bool) {
    record.Some? ==> Due(record.value, now, manual)
  }

  // ----- One pass over the unissued quotes -----

  datatype Outcome = Collected(issued: nat) | Refused(definitive: bool)

  /** One quote in a pass, with what the environment answers: whether the vault is still
      open, the clock when reading and when starting, and how the mint responds. */
  datatype Visit = Visit(id: QuoteId, unlocked: bool, read: nat, start: nat, outcome: Outcome)

  function Recorded(retries: map<QuoteId, Retry>, id: QuoteId): Option<Retry> {
    if id in retries then Some(retries[id]) else None
  }

  function After(record: Option<Retry>, visit: Visit, manual: bool): Option<Retry> {
    if !MayStart(record, visit.read, manual) then record
    else
      match visit.outcome
      case Collected(_) => None
      case Refused(definitive) => Some(Pending(record, visit.start).(blocked := definitive))
  }

  function Gain(record: Option<Retry>, visit: Visit, manual: bool): nat {
    if MayStart(record, visit.read, manual) && visit.outcome.Collected? then visit.outcome.issued else 0
  }

  /** Quotes visited before the vault was found locked. */
  function Reached(visits: seq<Visit>): (n: nat)
    ensures n <= |visits|
    ensures forall i :: 0 <= i < n ==> visits[i].unlocked
    ensures n < |visits| ==> !visits[n].unlocked
  {
    if visits == [] || !visits[0].unlocked then 0 else 1 + Reached(visits[1..])
  }

  function Total(retries: map<QuoteId, Retry>, visits: seq<Visit>, manual: bool): nat {
    if visits == [] then 0
    else
      var last := visits[|visits| - 1];
      SatAdd(Total(retries, visits[..|visits| - 1], manual), Gain(Recorded(retries, last.id), last, manual))
  }

  predicate DistinctQuotes(visits: seq<Visit>) {
    forall i, j :: 0 <= i < j < |visits| ==> visits[i].id != visits[j].id
  }

  class Collector {
    var retries: map<QuoteId, Retry>

    constructor ()
      ensures retries == map[]
    {
      retries := map[];
    }

    /** Handles one quote from its own record alone; the others keep theirs. */
    method Handle(visit: Visit, manual: bool) returns (gain: nat)
      modifies this
      ensures gain == Gain(Recorded(old(retries), visit.id), visit, manual)
      // An attempt is made unless a record blocks it or its time has not come.
      ensures var tried := visit.id !in old(retries) || manual
          || (!old(retries)[visit.id].blocked && visit.read >= old(retries)[visit.id].after);
        && gain == (if tried && visit.outcome.Collected? then visit.outcome.issued else 0)
        && (!tried ==> retries == old(retries))
        && (tried && visit.outcome.Collected? ==> retries == old(retries) - {visit.id})
        && (tried && visit.outcome.Refused? ==>
              && visit.id in retries && retries[visit.id].blocked == visit.outcome.definitive
              && retries[visit.id].attempts ==
                   (if visit.id in old(retries) then Min(old(retries)[visit.id].attempts + 1, U32_MAX) else 1)
              && retries == old(retries)[visit.id := retries[visit.id]])
      ensures Recorded(retries, visit.id) == After(Recorded(old(retries), visit.id), visit, manual)
      ensures forall id {:trigger Recorded(retries, id)} :: id != visit.id ==>
        Recorded(retries, id) == Recorded(old(retries), id)
    {
      var record := Recorded(retries, visit.id);
      if !MayStart(record, visit.read, manual) {
        return 0;
      }
      var retry := Pending(record, visit.start);
      // Saved before the mint is contacted: restarting must not reset the backoff.
      retries := retries[visit.id := retry];
      match visit.outcome
      case Collected(issued) =>
        gain := issued;
        retries := retries - {visit.id};
      case Refused(definitive) =>
        gain := 0;
        retries := retries[visit.id := retry.(blocked := definitive)];
    }

    /** Visits the quotes in order until done or locked. */
    method Collect(visits: seq<Visit>, manual: bool) returns (received: Result<nat>)
      requires DistinctQuotes(visits)
      modifies this
      ensures received == if Reached(visits) == |visits| then Ok(Total(old(retries), visits, manual)) else Err
      ensures forall i {:trigger visits[i]} :: 0 <= i < Reached(visits) ==>
        Recorded(retries, visits[i].id) == After(Recorded(old(retries), visits[i].id), visits[i], manual)
      ensures forall id {:trigger Recorded(retries, id)} ::
        id !in Ids(visits[..Reached(visits)]) ==> Recorded(retries, id) == Recorded(old(retries), id)
    {
      var total: nat := 0;
      var n := 0;
      while n < |visits|
        invariant 0 <= n <= Reached(visits)
        invariant total == Total(old(retries), visits[..n], manual)
        invariant forall i {:trigger visits[i]} :: 0 <= i < n ==>
          Recorded(retries, visits[i].id) == After(Recorded(old(retries), visits[i].id), visits[i], manual)
        invariant forall id {:trigger Recorded(retries, id)} ::
          id !in Ids(visits[..n]) ==> Recorded(retries, id) == Recorded(old(retries), id)
      {
        if !visits[n].unlocked {
          ReachedIs(visits, n);
          return Err;
        }
        ReachedMore(visits, n);
        assert visits[..n + 1][..n] == visits[..n];
        NotYet(visits, n);
        var gain := Handle(visits[n], manual);
        total := SatAdd(total, gain);
        n := n + 1;
      }
      assert visits[..n] == visits;
      return Ok(total);
    }
  }

  function Ids(visits: seq<Visit>): set<QuoteId> {
    if visits == [] then {} else Ids(visits[..|visits| - 1]) + {visits[|visits| - 1].id}
  }

  lemma {:induction false} NotYet(visits: seq<Visit>, n: nat)
    requires DistinctQuotes(visits) && n < |visits|
    ensures visits[n].id !in Ids(visits[..n])
    ensures Ids(visits[..n + 1]) == Ids(visits[..n]) + {visits[n].id}
  {
    assert visits[..n + 1][..n] == visits[..n];
    IdsAre(visits[..n], visits[n].id);
  }

  lemma {:induction false} IdsAre(visits: seq<Visit>, id: QuoteId)
    requires forall i :: 0 <= i < |visits| ==> visits[i].id != id
    ensures id !in Ids(visits)
  {
    if visits != [] {
      IdsAre(visits[..|visits| - 1], id);
    }
  }

  lemma {:induction false} ReachedMore(visits: seq<Visit>, n: nat)
    requires n <= Reached(visits) && n < |visits| && visits[n].unlocked
    ensures n < Reached(visits)
  {
  }

  lemma {:induction false} ReachedIs(visits: seq<Visit>, n: nat)
    requires n <= Reached(visits) && n < |visits| && !visits[n].unlocked
    ensures Reached(visits) == n
  {
  }

  /** What a quote adds to the total, in its record and visit. */
  lemma GainIs(retries: map<QuoteId, Retry>, visit: Visit, manual: bool)
    ensures var tried := visit.id !in retries || manual
        || (!retries[visit.id].blocked && visit.read >= retries[visit.id].after);
      Gain(Recorded(retries, visit.id), visit, manual) ==
        if tried && visit.outcome.Collected? then visit.outcome.issued else 0
  {
  }

  /** What a pass reports: the sum of what its visits issued, saturating. */
  lemma {:induction false} TotalIsSum(retries: map<QuoteId, Retry>, visits: seq<Visit>, manual: bool)
    ensures Total(retries, visits, manual) == Min(Sum(Gains(retries, visits, manual)), U64_MAX)
    ensures |Gains(retries, visits, manual)| == |visits|
    ensures forall i :: 0 <= i < |visits| ==>
      Gains(retries, visits, manual)[i] == Gain(Recorded(retries, visits[i].id), visits[i], manual)
  {
    if visits != [] {
      var rest := visits[..|visits| - 1];
      TotalIsSum(retries, rest, manual);
      var gains := Gains(retries, visits, manual);
      assert gains[..|gains| - 1] == Gains(retries, rest, manual);
    }
  }

  function Gains(retries: map<QuoteId, Retry>, visits: seq<Visit>, manual: bool): seq<nat> {
    if visits == [] then []
    else
      var last := visits[|visits| - 1];
      Gains(retries, visits[..|visits| - 1], manual) + [Gain(Recorded(retries, last.id), last, manual)]
  }

  function Sum(gains: seq<nat>): nat {
    if gains == [] then 0 else Sum(gains[..|gains| - 1]) + gains[|gains| - 1]
  }

  // ----- Backoff of one quote over any run with crashes -----

  /** The quote's record, and the starts of its attempts since the last success. */
  datatype World = World(record: Option<Retry>, starts: seq<nat>, running: bool)

  datatype Step =
    | Start(read: nat, at: nat, manual: bool)   // record saved, mint about to be contacted
    | Succeed
    | Fail(definitive: bool)
    | Crash

  predicate Enabled(w: World, step: Step) {
    match step
    case Start(read, at, manual) => !w.running && MayStart(w.record, read, manual) && read <= at <= U64_MAX
    case Succeed => w.running
    case Fail(_) => w.running && w.record.Some?
    case Crash => true
  }

  function Next(w: World, step: Step): World
    requires Enabled(w, step)
  {
    match step
    case Start(_, at, _) => World(Some(Pending(w.record, at)), w.starts + [at], true)
    case Succeed => World(None, [], false)
    case Fail(definitive) => World(Some(w.record.value.(blocked := definitive)), w.starts, false)
    case Crash => w.(running := false)
  }

  /** A visited quote goes through exactly these steps. */
  lemma VisitIsSteps(record: Option<Retry>, visit: Visit, manual: bool, starts: seq<nat>)
    requires visit.read <= visit.start <= U64_MAX
    ensures var w := World(record, starts, false);
      var start := Start(visit.read, visit.start, manual);
      if !Enabled(w, start) then After(record, visit, manual) == record
      else
        var begun := Next(w, start);
        var finish := if visit.outcome.Collected? then Succeed else Fail(visit.outcome.definitive);
        Enabled(begun, finish) && Next(begun, finish).record == After(record, visit, manual)
  {
  }

  ghost predicate Run(run: seq<World>, steps: seq<Step>) {
    && |run| == |steps| + 1
    && run[0] == World(None, [], false)
    && forall i {:trigger steps[i]} :: 0 <= i < |steps| ==>
      Enabled(run[i], steps[i]) && run[i + 1] == Next(run[i], steps[i])
  }

  /** What attempt number `k` must be followed by: 60, 120, ... seconds, at most 1800. */
  function Delay(k: nat): nat
    requires k >= 1
  {
    Min(FIRST_DELAY * Pow2(k - 1), MAX_DELAY)
  }

  lemma {:induction false} Pow2Grows(n: nat)
    requires n >= 5
    ensures Pow2(n) >= 32
  {
    if n > 5 {
      Pow2Grows(n - 1);
    } else {
      assert Pow2(5) == 2 * Pow2(4) == 4 * Pow2(3) == 8 * Pow2(2) == 16 * Pow2(1);
    }
  }

  /** Capping the shift at 5 loses nothing: the delay cap applies from there on. */
  lemma ShiftIsExact(k: nat)
    requires k >= 1
    ensures ShiftedDelay(k) == Delay(k) && ShiftedDelay(Min(k, U32_MAX)) == Delay(k)
  {
    if k > 5 {
      Pow2Grows(5);
      Pow2Grows(k - 1);
    }
  }

  /** The record counts the attempts and keeps the end of the last one's delay. */
  predicate Faithful(w: World) {
    && (w.record.None? <==> w.starts == [])
    && (w.record.Some? ==>
          && w.record.value.attempts == Min(|w.starts|, U32_MAX)
          && w.record.value.after == SatAdd(w.starts[|w.starts| - 1], ShiftedDelay(w.record.value.attempts)))
  }

  lemma NextFaithful(w: World, step: Step)
    requires Enabled(w, step) && Faithful(w)
    ensures Faithful(Next(w, step))
  {
  }

  lemma {:induction false} RunFaithful(run: seq<World>, steps: seq<Step>, n: nat)
    requires Run(run, steps) && n <= |steps|
    ensures Faithful(run[n])
  {
    if n > 0 {
      RunFaithful(run, steps, n - 1);
      assert run[n] == Next(run[n - 1], steps[n - 1]);
      NextFaithful(run[n - 1], steps[n - 1]);
    }
  }

  /** A background attempt after k attempts without success starts at least
      min(60 * 2^(k-1), 1800) seconds after the k-th, however often the process died,
      unless that moment is past the end of the clock. */
  lemma BackoffSurvivesCrashes(run: seq<World>, steps: seq<Step>, n: nat)
    requires Run(run, steps) && n < |steps|
    requires steps[n].Start? && !steps[n].manual
    ensures var k := |run[n].starts|;
      k >= 1 ==>
        var delay := Min(60 * Pow2(k - 1), 1800);
        run[n].starts[k - 1] + delay <= U64_MAX ==> steps[n].at >= run[n].starts[k - 1] + delay
  {
    RunFaithful(run, steps, n);
    assert Enabled(run[n], steps[n]);
    var k := |run[n].starts|;
    if k >= 1 {
      ShiftIsExact(k);
    }
  }

  /** Between attempts a background one may start exactly when that delay is over, unless
      the last failure was definitive; a manual one always may. */
  lemma BackoffIsExact(run: seq<World>, steps: seq<Step>, n: nat, read: nat, at: nat)
    requires Run(run, steps) && n <= |steps| && !run[n].running && run[n].starts != [] && read <= at <= U64_MAX
    requires var k := |run[n].starts|; run[n].starts[k - 1] + Min(60 * Pow2(k - 1), 1800) <= U64_MAX
    ensures run[n].record.Some?
    ensures var k := |run[n].starts|;
      Enabled(run[n], Start(read, at, false)) <==>
        !run[n].record.value.blocked && read >= run[n].starts[k - 1] + Min(60 * Pow2(k - 1), 1800)
    ensures Enabled(run[n], Start(read, at, true))
  {
    RunFaithful(run, steps, n);
    ShiftIsExact(|run[n].starts|);
  }

  /** The delay is enforced at every clock reading exactly when it ends within `u64`. */
  lemma DelayHoldsUnlessSaturated(previous: Option<Retry>, now: nat)
    requires now <= U64_MAX
    ensures (forall later :: now <= later <= U64_MAX && Due(Pending(previous, now), later, false)
               ==> later >= now + ShiftedDelay(Pending(previous, now).attempts))
      <==> now + ShiftedDelay(Pending(previous, now).attempts) <= U64_MAX
  {
    assert Pending(previous, now).after <= U64_MAX;
    assert now <= U64_MAX && Due(Pending(previous, now), U64_MAX, false);
  }

  predicate Blocked(w: World) { w.record.Some? && w.record.value.blocked }

  /** Once a definitive failure is recorded, the next attempt is a manual one. */
  lemma {:induction false} RejectionWaitsForUser(run: seq<World>, steps: seq<Step>, j: nat, n: nat)
    requires Run(run, steps) && j < n < |steps|
    requires steps[j] == Fail(true) && steps[n].Start?
    requires forall i :: j < i < n ==> !steps[i].Start?
    ensures steps[n].manual
  {
    StaysBlocked(run, steps, j, n);
    assert Enabled(run[n], steps[n]);
  }

  lemma {:induction false} StaysBlocked(run: seq<World>, steps: seq<Step>, j: nat, n: nat)
    requires Run(run, steps) && j < n <= |steps|
    requires steps[j] == Fail(true)
    requires forall i :: j < i < n ==> !steps[i].Start?
    ensures Blocked(run[n]) && !run[n].running
  {
    if j + 1 < n {
      StaysBlocked(run, steps, j, n - 1);
    }
    assert run[n] == Next(run[n - 1], steps[n - 1]);
  }
}
