/** Buying a username: the purchase is journaled before the wallet swaps, and submitted
    only after the journal says so. A crash may fall between any two durable writes. */
module NamePurchase {
  import opened Prelude

  /** Send operations, names and mints, by identity. */
  type Name = int

  /** The one durable record. */
  datatype Purchase = Purchase(
    name: Name, mint: Name, amount: nat, operation: Option<Name>, submitted: bool, confirmed: bool)

  /** What the wallet library knows of a send operation. `Confirming` is a swap under way,
      `Created` a token that nobody has redeemed, `Spent` one the provider redeemed, with
      its saga still kept or already dropped. */
  datatype Progress = Reserved | Confirming | Created | Spent(kept: bool) | Refunded | Cancelled

  datatype Operation = Operation(mint: Name, amount: nat, progress: Progress)

  /** Money has left, or may have left, the balance for this operation. */
  predicate Live(op: Operation) {
    op.progress.Confirming? || op.progress.Created? || op.progress.Spent?
  }

  predicate Returned(op: Operation) { op.progress.Refunded? || op.progress.Cancelled? }

  /** How far the one command holding the gate has got. */
  datatype Stage =
    | Quoted | Prepared | Journaled | Marked | Swapping               // claim
    | Submitting | Returning | Settling | Checked | Sending | Awaiting  // submit
    | Recovering | Recovered | Removing                               // reclaim

  datatype Phase = Idle | At(stage: Stage, p: Purchase)

  /** `record`, `ops` and `marked` are durable, `phase` is not; `sent` is history. */
  datatype State = State(
    phase: Phase, record: Option<Purchase>, ops: map<Name, Operation>, marked: set<Name>, sent: set<Name>)

  datatype ClaimStep =
    | Begin(name: Name, mint: Name, amount: nat)  // no record after a refresh; the price still stands
    | Prepare(op: Name)
    | Decline                                     // over the maximum, expired or locked; or the journal failed
    | JournalFree
    | Journal
    | Mark
    | Swap                                        // `confirm` starts
    | Swapped                                     // `confirm` returns

  datatype SubmitStep =
    | OwnedElsewhere                              // the name is ours though nothing was submitted
    | Owned
    | GiveBack
    | Settle
    | Check
    | MarkSubmitted
    | Send
    | Accept

  datatype OtherStep =
    | FindName(name: Name, mint: Name)            // `refresh` without a record
    | ConfirmOwned                                // `refresh` with one
    | Retry
    | Reclaim
    | ReclaimFree
    | RecoveryDone
    | Revoke
    | AlreadyReturned
    | Remove
    | Stop                                        // any error, and any crash

  /** The mint, the provider and the library's recovery of interrupted operations. */
  datatype WorldStep =
    | Redeem(op: Name)
    | DropSaga(op: Name)
    | Undo(op: Name)
    | Finish(op: Name)

  datatype Step =
    | Claim(claim: ClaimStep)
    | Submit(submit: SubmitStep)
    | Other(other: OtherStep)
    | World(world: WorldStep)

  predicate Busy(s: State, stage: Stage) { s.phase.At? && s.phase.stage == stage }

  predicate ProgressIs(s: State, op: Name, progress: Progress) { op in s.ops && s.ops[op].progress == progress }

  function Moved(s: State, op: Name, progress: Progress): map<Name, Operation>
    requires op in s.ops
  {
    s.ops[op := s.ops[op].(progress := progress)]
  }

  // ----- wallet_name_claim -----

  predicate ClaimEnabled(s: State, step: ClaimStep) {
    match step
    case Begin(_, _, _) => s.phase.Idle? && s.record.None?
    case Prepare(op) => Busy(s, Quoted) && s.phase.p.amount > 0 && op !in s.ops
    case Decline => Busy(s, Prepared) && s.phase.p.operation.Some? && s.phase.p.operation.value in s.ops
    case JournalFree => Busy(s, Quoted) && s.phase.p.amount == 0
    case Journal => Busy(s, Prepared)
    case Mark => Busy(s, Journaled) && s.phase.p.operation.Some?
    case Swap => Busy(s, Marked) && s.phase.p.operation.Some? && s.phase.p.operation.value in s.ops
    case Swapped => Busy(s, Swapping) && s.phase.p.operation.Some? && s.phase.p.operation.value in s.ops
  }

  function ClaimNext(s: State, step: ClaimStep): State
    requires ClaimEnabled(s, step)
  {
    match step
    case Begin(name, mint, amount) => s.(phase := At(Quoted, Purchase(name, mint, amount, None, false, false)))
    case Prepare(op) =>
      s.(ops := s.ops[op := Operation(s.phase.p.mint, s.phase.p.amount, Reserved)],
         phase := At(Prepared, s.phase.p.(operation := Some(op))))
    case Decline => s.(ops := Moved(s, s.phase.p.operation.value, Cancelled), phase := Idle)
    case JournalFree => s.(record := Some(s.phase.p), phase := At(Submitting, s.phase.p))
    case Journal => s.(record := Some(s.phase.p), phase := At(Journaled, s.phase.p))
    case Mark => s.(marked := s.marked + {s.phase.p.operation.value}, phase := At(Marked, s.phase.p))
    case Swap => s.(ops := Moved(s, s.phase.p.operation.value, Confirming), phase := At(Swapping, s.phase.p))
    case Swapped => s.(ops := Moved(s, s.phase.p.operation.value, Created), phase := At(Submitting, s.phase.p))
  }

  // ----- submit -----

  /** The stored token: only of an operation that created one, and the right one. */
  predicate TokenFits(s: State, p: Purchase) {
    match p.operation
    case Some(op) => ProgressIs(s, op, Created) && s.ops[op].mint == p.mint && s.ops[op].amount == p.amount
    case None => p.amount == 0
  }

  predicate SubmitEnabled(s: State, step: SubmitStep) {
    match step
    case OwnedElsewhere => Busy(s, Submitting) && !s.phase.p.submitted && s.phase.p.operation.Some?
    case Owned => Busy(s, Submitting) && (s.phase.p.submitted || s.phase.p.operation.None?)
    case GiveBack =>
      Busy(s, Returning) && s.phase.p.operation.Some? && ProgressIs(s, s.phase.p.operation.value, Created)
    case Settle => Busy(s, Settling)
    case Check => Busy(s, Submitting) && TokenFits(s, s.phase.p)
    case MarkSubmitted => Busy(s, Checked)
    case Send => Busy(s, Sending)
    case Accept => Busy(s, Awaiting)
  }

  function Sent(s: State): set<Name>
    requires s.phase.At?
  {
    if s.phase.p.operation.Some? then s.sent + {s.phase.p.operation.value} else s.sent
  }

  function SubmitNext(s: State, step: SubmitStep): State
    requires SubmitEnabled(s, step)
  {
    match step
    case OwnedElsewhere => s.(phase := At(Returning, s.phase.p))
    case Owned => s.(phase := At(Settling, s.phase.p))
    case GiveBack => s.(ops := Moved(s, s.phase.p.operation.value, Refunded), phase := At(Settling, s.phase.p))
    case Settle => s.(record := Some(s.phase.p.(confirmed := true)), phase := Idle)
    case Check => s.(phase := At(Checked, s.phase.p))
    case MarkSubmitted =>
      s.(record := Some(s.phase.p.(submitted := true)), phase := At(Sending, s.phase.p.(submitted := true)))
    case Send => s.(sent := Sent(s), phase := At(Awaiting, s.phase.p))
    case Accept => s.(record := Some(s.phase.p.(confirmed := true)), phase := Idle)
  }

  // ----- refresh, wallet_name_retry, wallet_name_reclaim -----

  predicate OtherEnabled(s: State, step: OtherStep) {
    match step
    case FindName(_, _) => s.phase.Idle? && s.record.None?
    case ConfirmOwned => s.phase.Idle? && s.record.Some?
    case Retry => s.phase.Idle? && s.record.Some? && !s.record.value.confirmed
    case Reclaim => s.phase.Idle? && s.record.Some? && !s.record.value.confirmed && s.record.value.operation.Some?
    case ReclaimFree => s.phase.Idle? && s.record.Some? && !s.record.value.confirmed && s.record.value.operation.None?
    case RecoveryDone =>
      && Busy(s, Recovering) && s.phase.p.operation.Some?
      && !ProgressIs(s, s.phase.p.operation.value, Reserved) && !ProgressIs(s, s.phase.p.operation.value, Confirming)
    case Revoke => Busy(s, Recovered) && s.phase.p.operation.Some? && ProgressIs(s, s.phase.p.operation.value, Created)
    case AlreadyReturned =>
      && Busy(s, Recovered) && s.phase.p.operation.Some? && s.phase.p.operation.value in s.ops
      && !ProgressIs(s, s.phase.p.operation.value, Created) && !ProgressIs(s, s.phase.p.operation.value, Spent(true))
      && (ProgressIs(s, s.phase.p.operation.value, Refunded) || !s.phase.p.submitted)
    case Remove => Busy(s, Removing)
    case Stop => s.phase.At?
  }

  function OtherNext(s: State, step: OtherStep): State
    requires OtherEnabled(s, step)
  {
    match step
    case FindName(name, mint) => s.(record := Some(Purchase(name, mint, 0, None, false, true)))
    case ConfirmOwned => s.(record := Some(s.record.value.(confirmed := true)))
    case Retry => s.(phase := At(Submitting, s.record.value))
    case Reclaim => s.(phase := At(Recovering, s.record.value))
    case ReclaimFree => s.(phase := At(Removing, s.record.value))
    case RecoveryDone => s.(phase := At(Recovered, s.phase.p))
    case Revoke => s.(ops := Moved(s, s.phase.p.operation.value, Refunded), phase := At(Removing, s.phase.p))
    case AlreadyReturned => s.(phase := At(Removing, s.phase.p))
    case Remove => s.(record := None, phase := Idle)
    case Stop => s.(phase := Idle)
  }

  // ----- The world -----

  /** The provider can redeem only what it was sent. Interrupted operations are resolved
      when the wallet opens or a reclaim asks, never under another command. */
  predicate WorldEnabled(s: State, step: WorldStep) {
    match step
    case Redeem(op) => op in s.sent && ProgressIs(s, op, Created)
    case DropSaga(op) => ProgressIs(s, op, Spent(true))
    case Undo(op) =>
      (s.phase.Idle? || Busy(s, Recovering)) && (ProgressIs(s, op, Reserved) || ProgressIs(s, op, Confirming))
    case Finish(op) => (s.phase.Idle? || Busy(s, Recovering)) && ProgressIs(s, op, Confirming)
  }

  function WorldNext(s: State, step: WorldStep): State
    requires WorldEnabled(s, step)
  {
    match step
    case Redeem(op) => s.(ops := Moved(s, op, Spent(true)))
    case DropSaga(op) => s.(ops := Moved(s, op, Spent(false)))
    case Undo(op) => s.(ops := Moved(s, op, Cancelled))
    case Finish(op) => s.(ops := Moved(s, op, Created))
  }

  predicate Enabled(s: State, step: Step) {
    match step
    case Claim(c) => ClaimEnabled(s, c)
    case Submit(c) => SubmitEnabled(s, c)
    case Other(c) => OtherEnabled(s, c)
    case World(c) => WorldEnabled(s, c)
  }

  function Next(s: State, step: Step): State
    requires Enabled(s, step)
  {
    match step
    case Claim(c) => ClaimNext(s, c)
    case Submit(c) => SubmitNext(s, c)
    case Other(c) => OtherNext(s, c)
    case World(c) => WorldNext(s, c)
  }

  ghost predicate Leads(s: State, step: Step, v: State) { Enabled(s, step) && v == Next(s, step) }

  predicate Fresh(s: State) { s == State(Idle, None, map[], {}, {}) }

  ghost predicate Run(run: seq<State>, steps: seq<Step>) {
    && |run| == |steps| + 1
    && Fresh(run[0])
    && forall i {:trigger steps[i]} :: 0 <= i < |steps| ==> Leads(run[i], steps[i], run[i + 1])
  }

  lemma Follows(run: seq<State>, steps: seq<Step>, k: nat)
    requires Run(run, steps) && k < |steps|
    ensures Leads(run[k], steps[k], run[k + 1])
  {
  }

  // ----- Invariants -----

  predicate Names(s: State, op: Name) { s.record.Some? && s.record.value.operation == Some(op) }

  predicate Fits(s: State, p: Purchase) {
    p.operation.Some? ==>
      var op := p.operation.value;
      op in s.ops && s.ops[op].mint == p.mint && s.ops[op].amount == p.amount && (op in s.sent ==> p.submitted)
  }

  predicate RecordOk(s: State) { s.record.Some? ==> Fits(s, s.record.value) }

  /** A live operation is the one the record names, and is kept out of the token list. */
  predicate OpOk(s: State, op: Name) {
    && (op in s.ops ==>
          && (Live(s.ops[op]) ==> Names(s, op) && op in s.marked)
          && (s.ops[op].progress.Spent? ==> op in s.sent))
    && (op in s.sent ==> MadeToken(s, op) || ProgressIs(s, op, Refunded))
  }

  predicate PhaseOk(s: State) {
    s.phase.At? ==>
      var p := s.phase.p;
      match s.phase.stage
      case Quoted => s.record.None? && p.operation.None? && !p.submitted && !p.confirmed
      case Prepared =>
        && s.record.None? && !p.submitted && !p.confirmed && Fits(s, p)
        && p.operation.Some? && ProgressIs(s, p.operation.value, Reserved)
      case Journaled =>
        s.record == Some(p) && !p.submitted && p.operation.Some? && ProgressIs(s, p.operation.value, Reserved)
      case Marked =>
        && s.record == Some(p) && !p.submitted && p.operation.Some? && ProgressIs(s, p.operation.value, Reserved)
        && p.operation.value in s.marked
      case Swapping =>
        s.record == Some(p) && !p.submitted && p.operation.Some? && ProgressIs(s, p.operation.value, Confirming)
      case Submitting => s.record == Some(p)
      case Returning => s.record == Some(p) && !p.submitted
      case Settling => s.record == Some(p)
      case Checked => s.record == Some(p) && (p.operation.Some? ==> MadeToken(s, p.operation.value))
      case Sending => s.record == Some(p) && p.submitted && (p.operation.Some? ==> MadeToken(s, p.operation.value))
      case Awaiting => s.record == Some(p) && p.submitted
      case Recovering => s.record == Some(p)
      case Recovered =>
        && s.record == Some(p) && p.operation.Some?
        && !ProgressIs(s, p.operation.value, Reserved) && !ProgressIs(s, p.operation.value, Confirming)
      case Removing =>
        s.record == Some(p) && (p.operation.Some? ==> p.operation.value in s.ops && Returned(s.ops[p.operation.value]))
  }

  predicate MadeToken(s: State, op: Name) { op in s.ops && (s.ops[op].progress.Created? || s.ops[op].progress.Spent?) }

  ghost predicate Inv(s: State) {
    RecordOk(s) && PhaseOk(s) && forall op :: OpOk(s, op)
  }

  /** The operation a step is about. */
  function Current(s: State, step: Step): Name {
    if step.World? then step.world.op
    else if s.phase.At? && s.phase.p.operation.Some? then s.phase.p.operation.value
    else if s.record.Some? && s.record.value.operation.Some? then s.record.value.operation.value
    else if step.Claim? && step.claim.Prepare? then step.claim.op
    else 0
  }

  lemma ClaimKeeps(s: State, step: ClaimStep, op: Name)
    requires ClaimEnabled(s, step) && RecordOk(s) && PhaseOk(s) && OpOk(s, op) && OpOk(s, Current(s, Claim(step)))
    ensures RecordOk(ClaimNext(s, step)) && PhaseOk(ClaimNext(s, step)) && OpOk(ClaimNext(s, step), op)
  {
  }

  lemma SubmitKeeps(s: State, step: SubmitStep, op: Name)
    requires SubmitEnabled(s, step) && RecordOk(s) && PhaseOk(s) && OpOk(s, op) && OpOk(s, Current(s, Submit(step)))
    ensures RecordOk(SubmitNext(s, step)) && PhaseOk(SubmitNext(s, step)) && OpOk(SubmitNext(s, step), op)
  {
  }

  lemma OtherKeeps(s: State, step: OtherStep, op: Name)
    requires OtherEnabled(s, step) && RecordOk(s) && PhaseOk(s) && OpOk(s, op) && OpOk(s, Current(s, Other(step)))
    ensures RecordOk(OtherNext(s, step)) && PhaseOk(OtherNext(s, step)) && OpOk(OtherNext(s, step), op)
  {
  }

  lemma WorldKeeps(s: State, step: WorldStep, op: Name)
    requires WorldEnabled(s, step) && RecordOk(s) && PhaseOk(s) && OpOk(s, op) && OpOk(s, step.op)
    ensures RecordOk(WorldNext(s, step)) && PhaseOk(WorldNext(s, step)) && OpOk(WorldNext(s, step), op)
  {
  }

  lemma StepKeeps(s: State, step: Step, v: State, op: Name)
    requires Leads(s, step, v) && Inv(s)
    ensures RecordOk(v) && PhaseOk(v) && OpOk(v, op)
  {
    assert OpOk(s, op) && OpOk(s, Current(s, step));
    match step
    case Claim(c) => ClaimKeeps(s, c, op);
    case Submit(c) => SubmitKeeps(s, c, op);
    case Other(c) => OtherKeeps(s, c, op);
    case World(c) => WorldKeeps(s, c, op);
  }

  lemma NextKeepsInv(s: State, step: Step, v: State)
    requires Leads(s, step, v) && Inv(s)
    ensures Inv(v)
  {
    StepKeeps(s, step, v, 0);
    forall op ensures OpOk(v, op) { StepKeeps(s, step, v, op); }
  }

  lemma FreshIsOk(s: State)
    requires Fresh(s)
    ensures Inv(s)
  {
  }

  lemma {:induction false} RunKeeps(run: seq<State>, steps: seq<Step>, n: nat)
    requires Run(run, steps) && n <= |steps|
    ensures Inv(run[n])
  {
    if n > 0 {
      RunKeeps(run, steps, n - 1);
      Follows(run, steps, n - 1);
      NextKeepsInv(run[n - 1], steps[n - 1], run[n]);
    } else {
      FreshIsOk(run[0]);
    }
  }

  // ----- What never changes back -----

  predicate Begun(s: State, op: Name) { op in s.ops && !s.ops[op].progress.Reserved? }

  predicate IsSpent(s: State, op: Name) { op in s.ops && s.ops[op].progress.Spent? }

  predicate IsReturned(s: State, op: Name) { op in s.ops && Returned(s.ops[op]) }

  lemma StepKeepsFate(s: State, step: Step, v: State, op: Name)
    requires Leads(s, step, v) && PhaseOk(s)
    ensures Begun(s, op) ==> Begun(v, op)
    ensures IsSpent(s, op) ==> IsSpent(v, op)
    ensures IsReturned(s, op) ==> IsReturned(v, op)
  {
  }

  lemma {:induction false} FateIsFinal(run: seq<State>, steps: seq<Step>, k: nat, n: nat, op: Name)
    requires Run(run, steps) && k <= n <= |steps|
    ensures Begun(run[k], op) ==> Begun(run[n], op)
    ensures IsSpent(run[k], op) ==> IsSpent(run[n], op)
    ensures IsReturned(run[k], op) ==> IsReturned(run[n], op)
  {
    if k < n {
      FateIsFinal(run, steps, k, n - 1, op);
      RunKeeps(run, steps, n - 1);
      Follows(run, steps, n - 1);
      StepKeepsFate(run[n - 1], steps[n - 1], run[n], op);
    }
  }

  // ----- Main results -----

  /** However claims, retries, reclaims and crashes interleave, at most one purchase token
      exists that was not given back, and the durable record names it. */
  lemma OneLivePurchase(run: seq<State>, steps: seq<Step>, n: nat, a: Name, b: Name)
    requires Run(run, steps) && n <= |steps|
    requires a in run[n].ops && Live(run[n].ops[a])
    requires b in run[n].ops && Live(run[n].ops[b])
    ensures a == b && Names(run[n], a) && a in run[n].marked
    ensures run[n].ops[a].mint == run[n].record.value.mint && run[n].ops[a].amount == run[n].record.value.amount
  {
    RunKeeps(run, steps, n);
    assert OpOk(run[n], a) && OpOk(run[n], b);
  }

  /** The provider redeems at most one purchase, and its record is never removed. */
  lemma PaidAtMostOnce(run: seq<State>, steps: seq<Step>, k: nat, n: nat, a: Name, b: Name)
    requires Run(run, steps) && k <= n <= |steps|
    requires IsSpent(run[k], a) && IsSpent(run[n], b)
    ensures a == b && Names(run[n], a) && run[n].record.value.submitted
  {
    FateIsFinal(run, steps, k, n, a);
    OneLivePurchase(run, steps, n, a, b);
    RunKeeps(run, steps, n);
    assert OpOk(run[n], a);
  }

  /** A token reaches the provider only if it is the one the record names, made at the
      recorded mint for the recorded amount, after the record durably says so. */
  lemma OnlyTheJournaledTokenIsSent(run: seq<State>, steps: seq<Step>, k: nat, op: Name)
    requires Run(run, steps) && k < |steps| && op in run[k + 1].sent && op !in run[k].sent
    ensures Names(run[k], op) && run[k].record.value.submitted && MadeToken(run[k], op)
    ensures run[k].ops[op].mint == run[k].record.value.mint && run[k].ops[op].amount == run[k].record.value.amount
  {
    RunKeeps(run, steps, k);
    Follows(run, steps, k);
    SendsTheNamed(run[k], steps[k], run[k + 1], op);
  }

  lemma SendsTheNamed(s: State, step: Step, v: State, op: Name)
    requires Leads(s, step, v) && RecordOk(s) && PhaseOk(s) && op in v.sent && op !in s.sent
    ensures Names(s, op) && s.record.value.submitted && MadeToken(s, op)
    ensures s.ops[op].mint == s.record.value.mint && s.ops[op].amount == s.record.value.amount
  {
  }

  /** The record is removed only when its operation, if any, has been given back. */
  predicate RemovedReturned(s: State, step: Step, op: Name) {
    step == Other(Remove) && Names(s, op) && IsReturned(s, op)
  }

  lemma NamedUntilReturned(s: State, step: Step, v: State, op: Name)
    requires Leads(s, step, v) && RecordOk(s) && PhaseOk(s) && Names(s, op)
    ensures Names(v, op) || RemovedReturned(s, step, op)
  {
  }

  lemma {:induction false} NamedUntilRemoved(run: seq<State>, steps: seq<Step>, j: nat, k: nat, op: Name)
    returns (at: nat)
    requires Run(run, steps) && j <= k <= |steps| && Names(run[j], op)
    ensures Names(run[k], op) || (j <= at < k && RemovedReturned(run[at], steps[at], op))
  {
    at := j;
    if j < k {
      at := NamedUntilRemoved(run, steps, j, k - 1, op);
      if Names(run[k - 1], op) {
        RunKeeps(run, steps, k - 1);
        Follows(run, steps, k - 1);
        NamedUntilReturned(run[k - 1], steps[k - 1], run[k], op);
        at := k - 1;
      }
    }
  }

  /** The operation a swap is started for. */
  predicate Swaps(s: State, step: Step, op: Name) {
    step == Claim(Swap) && s.phase.At? && s.phase.p.operation == Some(op)
  }

  lemma SwapBegins(s: State, step: Step, v: State, op: Name)
    requires Leads(s, step, v) && PhaseOk(s) && Swaps(s, step, op)
    ensures Names(s, op) && !Begun(s, op)
    ensures Names(v, op) && Begun(v, op)
  {
  }

  /** A second payment is made only after the first record was removed, and it was
      removed only because its money had come back. */
  lemma SecondSwapOnlyAfterReturn(run: seq<State>, steps: seq<Step>, j: nat, k: nat, a: Name, b: Name) returns (at: nat)
    requires Run(run, steps) && j < k < |steps|
    requires Swaps(run[j], steps[j], a) && Swaps(run[k], steps[k], b)
    ensures j < at < k && RemovedReturned(run[at], steps[at], a)
    ensures a != b && IsReturned(run[k], a)
  {
    RunKeeps(run, steps, j);
    RunKeeps(run, steps, k);
    Follows(run, steps, j);
    Follows(run, steps, k);
    SwapBegins(run[j], steps[j], run[j + 1], a);
    SwapBegins(run[k], steps[k], run[k + 1], b);
    FateIsFinal(run, steps, j + 1, k, a);
    at := NamedUntilRemoved(run, steps, j + 1, k, a);
    FateIsFinal(run, steps, at, k, a);
  }
}
