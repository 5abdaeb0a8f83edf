/** Payment reviews: one-shot handles, spend ceilings, and the lock that races with
    recording a review. */
module WalletReviews {
  import opened Prelude

  const MAX_REVIEWS: nat := 32

  /** Names drawn at random (review handles) or given by a mint (quotes, invoices, mints). */
  type Name = int

  /** `invoiceExpiry` belongs to the invoice, `expiry` to the review. */
  datatype Approval = Approval(
    quote: Name, account: int, mint: Name, invoice: Name, invoiceExpiry: nat, maximum: nat, expiry: nat, epoch: nat)

  type Approvals = map<Name, Approval>

  /** What the mint prepared for a melt quote. */
  datatype Prepared = Prepared(amount: nat, totalFee: nat, feeReserve: nat, request: Name)

  function Unexpired(approvals: Approvals, now: nat): Approvals {
    map h | h in approvals && approvals[h].expiry > now :: approvals[h]
  }

  function Limited(approvals: Approvals, handle: Name, expiry: nat): Approvals {
    if handle in approvals
    then approvals[handle := approvals[handle].(expiry := Min(approvals[handle].expiry, expiry))]
    else approvals
  }

  /** The check made immediately before confirming, while `epoch` and `now` are current. */
  predicate MayConfirm(approval: Approval, prepared: Prepared, now: nat, unlocked: bool, epoch: nat) {
    && now < approval.expiry
    && prepared.amount + prepared.totalFee + prepared.feeReserve <= approval.maximum
    && prepared.request == approval.invoice
    && unlocked
    && approval.epoch == epoch
  }

  lemma UnexpiredSize(approvals: Approvals, now: nat)
    ensures |Unexpired(approvals, now)| <= |approvals|
  {
    SubsetSize(Unexpired(approvals, now).Keys, approvals.Keys);
  }

  // ----- The operations, interleaved -----

  /** `lock` is two steps: the epoch moves, then (under the map's mutex) the map is emptied. */
  datatype Locker = Bumped(epoch: nat) | Returned(epoch: nat)

  /** Recording holds the map's mutex from its checks to its insertion. */
  datatype Recorder = Reviewing(approval: Approval) | Inserting(approval: Approval) | Recorded

  datatype Payer =
    | Took(handle: Name, approval: Approval)
    | Ready(handle: Name, approval: Approval, prepared: Prepared, checked: nat)
    | Gone

  datatype Mutex = Free | HeldBy(recorder: int)

  /** A confirmation, with what was true when it was made. */
  datatype Confirmation = Confirmation(
    handle: Name, account: int, mint: Name, prepared: Prepared, checked: nat, epoch: nat, at: nat, unlocked: bool)

  datatype State = State(
    approvals: Approvals, mutex: Mutex, epoch: nat, clock: nat, unlocked: set<int>,
    lockers: map<int, Locker>, recorders: map<int, Recorder>, payers: map<int, Payer>,
    // history: every review as shown, and every confirmation
    shown: map<Name, Approval>, confirmed: seq<Confirmation>)

  datatype ReviewStep =
    | Bump                                  // lock: fetch_add
    | Clear                                 // lock: clear the map
    | StartReview(approval: Approval)       // reads the epoch
    | CheckPassed                           // record_review: retain, room, epoch
    | CheckFailed
    | Insert(handle: Name)
    | Limit(handle: Name, expiry: nat)
    | Cancel(handle: Name)
    | CancelAccount(account: int)
    | Advance(to: nat)
    | SetUnlocked(accounts: set<int>)
    | Restart

  predicate HasRoom(s: State, approval: Approval) {
    |Unexpired(s.approvals, s.clock)| < MAX_REVIEWS && approval.epoch == s.epoch
  }

  predicate ReviewEnabled(s: State, a: int, step: ReviewStep) {
    match step
    case Bump => a !in s.lockers
    case Clear => a in s.lockers && s.lockers[a].Bumped? && s.mutex == Free
    case StartReview(approval) => a !in s.recorders && approval.epoch == s.epoch
    case CheckPassed =>
      a in s.recorders && s.recorders[a].Reviewing? && s.mutex == Free && HasRoom(s, s.recorders[a].approval)
    case CheckFailed =>
      a in s.recorders && s.recorders[a].Reviewing? && s.mutex == Free && !HasRoom(s, s.recorders[a].approval)
    case Insert(handle) => a in s.recorders && s.recorders[a].Inserting? && handle !in s.shown
    case Limit(_, _) => s.mutex == Free
    case Cancel(_) => s.mutex == Free
    case CancelAccount(_) => s.mutex == Free
    case Advance(to) => s.clock <= to
    case SetUnlocked(_) => true
    case Restart => true
  }

  function ReviewNext(s: State, a: int, step: ReviewStep): State
    requires ReviewEnabled(s, a, step)
  {
    match step
    case Bump => s.(epoch := s.epoch + 1, lockers := s.lockers[a := Bumped(s.epoch + 1)])
    case Clear => s.(approvals := map[], lockers := s.lockers[a := Returned(s.lockers[a].epoch)])
    case StartReview(approval) => s.(recorders := s.recorders[a := Reviewing(approval)])
    case CheckPassed =>
      s.(approvals := Unexpired(s.approvals, s.clock), mutex := HeldBy(a),
         recorders := s.recorders[a := Inserting(s.recorders[a].approval)])
    case CheckFailed =>
      s.(approvals := Unexpired(s.approvals, s.clock), recorders := s.recorders[a := Recorded])
    case Insert(handle) =>
      s.(approvals := s.approvals[handle := s.recorders[a].approval], mutex := Free,
         recorders := s.recorders[a := Recorded], shown := s.shown[handle := s.recorders[a].approval])
    case Limit(handle, expiry) => s.(approvals := Limited(s.approvals, handle, expiry))
    case Cancel(handle) => s.(approvals := s.approvals - {handle})
    case CancelAccount(account) =>
      s.(approvals := map h | h in s.approvals && s.approvals[h].account != account :: s.approvals[h])
    case Advance(to) => s.(clock := to)
    case SetUnlocked(accounts) => s.(unlocked := accounts)
    case Restart =>
      s.(approvals := map[], mutex := Free, epoch := 0, unlocked := {},
         lockers := map[], recorders := map[], payers := map[])
  }

  datatype PayStep =
    | Take(handle: Name, account: int)
    | Prepare(mint: Name, prepared: Prepared)   // the wallet that opened is at `mint`; invoice checked again
    | Confirm
    | Abandon

  predicate PayEnabled(s: State, p: int, step: PayStep) {
    match step
    case Take(handle, account) =>
      && p !in s.payers && s.mutex == Free && handle in s.approvals
      && s.approvals[handle].account == account && s.clock < s.approvals[handle].expiry
    case Prepare(mint, _) =>
      && p in s.payers && s.payers[p].Took? && mint == s.payers[p].approval.mint
      && s.clock < s.payers[p].approval.invoiceExpiry
    case Confirm =>
      && p in s.payers && s.payers[p].Ready?
      && MayConfirm(s.payers[p].approval, s.payers[p].prepared, s.clock,
                    s.payers[p].approval.account in s.unlocked, s.epoch)
    case Abandon => p in s.payers
  }

  function PayNext(s: State, p: int, step: PayStep): State
    requires PayEnabled(s, p, step)
  {
    match step
    case Take(handle, _) =>
      s.(approvals := s.approvals - {handle}, payers := s.payers[p := Took(handle, s.approvals[handle])])
    case Prepare(_, prepared) =>
      s.(payers := s.payers[p := Ready(s.payers[p].handle, s.payers[p].approval, prepared, s.clock)])
    case Confirm =>
      var payer := s.payers[p];
      s.(payers := s.payers[p := Gone],
         confirmed := s.confirmed + [Confirmation(
           payer.handle, payer.approval.account, payer.approval.mint, payer.prepared, payer.checked, s.epoch, s.clock,
           payer.approval.account in s.unlocked)])
    case Abandon => s.(payers := s.payers[p := Gone])
  }

  datatype Step = Review(a: int, review: ReviewStep) | Paying(p: int, pay: PayStep)

  ghost predicate Leads(s: State, step: Step, v: State) {
    match step
    case Review(a, r) => ReviewEnabled(s, a, r) && v == ReviewNext(s, a, r)
    case Paying(p, y) => PayEnabled(s, p, y) && v == PayNext(s, p, y)
  }

  function Fresh(clock: nat): State { State(map[], Free, 0, clock, {}, map[], map[], map[], map[], []) }

  ghost predicate Run(run: seq<State>, steps: seq<Step>) {
    && |run| == |steps| + 1
    && run[0] == Fresh(run[0].clock)
    && forall i {:trigger steps[i]} :: 0 <= i < |steps| ==> Leads(run[i], steps[i], run[i + 1])
  }

  // ----- Invariants, one object at a time -----

  /** A stored approval is the one shown, except that its expiry may have been lowered. */
  predicate Matches(shown: Approval, approval: Approval) {
    approval == shown.(expiry := approval.expiry) && approval.expiry <= shown.expiry
  }

  predicate StoredOk(s: State, h: Name) {
    h in s.approvals ==> h in s.shown && Matches(s.shown[h], s.approvals[h])
  }

  predicate PayerOk(s: State, p: int) {
    p in s.payers && !s.payers[p].Gone? ==>
      && s.payers[p].handle in s.shown && s.payers[p].handle !in s.approvals
      && Matches(s.shown[s.payers[p].handle], s.payers[p].approval)
      && (s.payers[p].Ready? ==>
            s.payers[p].checked < s.payers[p].approval.invoiceExpiry && s.payers[p].checked <= s.clock)
  }

  predicate PayersOk(s: State, p: int, q: int) {
    p in s.payers && q in s.payers && p != q && !s.payers[p].Gone? && !s.payers[q].Gone?
    ==> s.payers[p].handle != s.payers[q].handle
  }

  /** The confirmation was allowed by the review as it was shown. */
  predicate WithinReview(shown: Approval, c: Confirmation) {
    && c.account == shown.account && c.mint == shown.mint && c.prepared.request == shown.invoice
    && c.prepared.amount + c.prepared.totalFee + c.prepared.feeReserve <= shown.maximum
    && c.checked < shown.invoiceExpiry && c.checked <= c.at < shown.expiry && c.epoch == shown.epoch && c.unlocked
  }

  predicate ConfirmedOk(s: State, i: nat, p: int) {
    i < |s.confirmed| ==>
      var h := s.confirmed[i].handle;
      && h in s.shown && WithinReview(s.shown[h], s.confirmed[i])
      && h !in s.approvals
      && (p in s.payers && !s.payers[p].Gone? ==> s.payers[p].handle != h)
  }

  predicate OnceOk(s: State, i: nat, j: nat) {
    i < j < |s.confirmed| ==> s.confirmed[i].handle != s.confirmed[j].handle
  }

  /** No stored approval is older than a lock that returned. */
  predicate LockOk(s: State, l: int, h: Name) {
    l in s.lockers ==>
      && s.lockers[l].epoch <= s.epoch
      && (s.lockers[l].Returned? && h in s.approvals ==> s.approvals[h].epoch >= s.lockers[l].epoch)
  }

  /** An approval about to be inserted is not older than one either. */
  predicate InsertOk(s: State, l: int, r: int) {
    r in s.recorders && s.recorders[r].Inserting? ==>
      && s.mutex == HeldBy(r)
      && |s.approvals| < MAX_REVIEWS
      && (l in s.lockers && s.lockers[l].Returned? ==> s.recorders[r].approval.epoch >= s.lockers[l].epoch)
  }

  ghost predicate Inv(s: State) {
    && |s.approvals| <= MAX_REVIEWS
    && (forall h :: StoredOk(s, h))
    && (forall p :: PayerOk(s, p))
    && (forall p, q :: PayersOk(s, p, q))
    && (forall i, p :: ConfirmedOk(s, i, p))
    && (forall i, j :: OnceOk(s, i, j))
    && (forall l, h :: LockOk(s, l, h))
    && (forall l, r :: InsertOk(s, l, r))
  }

  lemma ReviewKeepsSpend(s: State, a: int, step: ReviewStep, h: Name, p: int, q: int, i: nat, j: nat)
    requires ReviewEnabled(s, a, step)
    requires StoredOk(s, h) && PayerOk(s, p) && PayersOk(s, p, q) && ConfirmedOk(s, i, p) && OnceOk(s, i, j)
    ensures StoredOk(ReviewNext(s, a, step), h)
    ensures PayerOk(ReviewNext(s, a, step), p)
    ensures PayersOk(ReviewNext(s, a, step), p, q)
    ensures ConfirmedOk(ReviewNext(s, a, step), i, p)
    ensures OnceOk(ReviewNext(s, a, step), i, j)
  {
  }

  lemma ReviewKeepsLock(s: State, a: int, step: ReviewStep, l: int, h: Name, r: int)
    requires ReviewEnabled(s, a, step)
    requires |s.approvals| <= MAX_REVIEWS
    requires LockOk(s, l, h) && InsertOk(s, l, r) && InsertOk(s, l, a)
    ensures |ReviewNext(s, a, step).approvals| <= MAX_REVIEWS
    ensures LockOk(ReviewNext(s, a, step), l, h)
    ensures InsertOk(ReviewNext(s, a, step), l, r)
  {
    UnexpiredSize(s.approvals, s.clock);
    match step
    case Cancel(handle) => SubsetSize(s.approvals.Keys - {handle}, s.approvals.Keys);
    case CancelAccount(_) => SubsetSize(ReviewNext(s, a, step).approvals.Keys, s.approvals.Keys);
    case _ =>
  }

  lemma PayKeepsSpend(s: State, a: int, step: PayStep, h: Name, p: int, q: int, i: nat, j: nat)
    requires PayEnabled(s, a, step)
    requires StoredOk(s, h) && PayerOk(s, p) && PayersOk(s, p, q) && ConfirmedOk(s, i, p) && OnceOk(s, i, j)
    requires step.Take? ==> StoredOk(s, step.handle)
    requires PayerOk(s, q) && PayerOk(s, a) && PayersOk(s, p, a) && ConfirmedOk(s, i, a)
    ensures StoredOk(PayNext(s, a, step), h)
    ensures PayerOk(PayNext(s, a, step), p)
    ensures PayersOk(PayNext(s, a, step), p, q)
    ensures ConfirmedOk(PayNext(s, a, step), i, p)
    ensures OnceOk(PayNext(s, a, step), i, j)
  {
  }

  lemma PayKeepsLock(s: State, a: int, step: PayStep, l: int, h: Name, r: int)
    requires PayEnabled(s, a, step)
    requires |s.approvals| <= MAX_REVIEWS
    requires LockOk(s, l, h) && InsertOk(s, l, r)
    ensures |PayNext(s, a, step).approvals| <= MAX_REVIEWS
    ensures LockOk(PayNext(s, a, step), l, h)
    ensures InsertOk(PayNext(s, a, step), l, r)
  {
    if step.Take? {
      SubsetSize(s.approvals.Keys - {step.handle}, s.approvals.Keys);
    }
  }

  lemma StepKeeps(s: State, step: Step, v: State, h: Name, p: int, q: int, i: nat, j: nat, l: int, r: int)
    requires Leads(s, step, v) && Inv(s)
    ensures |v.approvals| <= MAX_REVIEWS
    ensures StoredOk(v, h) && PayerOk(v, p) && PayersOk(v, p, q) && ConfirmedOk(v, i, p) && OnceOk(v, i, j)
    ensures LockOk(v, l, h) && InsertOk(v, l, r)
  {
    assert StoredOk(s, h) && PayerOk(s, p) && PayersOk(s, p, q) && ConfirmedOk(s, i, p) && OnceOk(s, i, j);
    assert LockOk(s, l, h) && InsertOk(s, l, r);
    match step
    case Review(a, x) =>
      assert InsertOk(s, l, a);
      ReviewKeepsSpend(s, a, x, h, p, q, i, j);
      ReviewKeepsLock(s, a, x, l, h, r);
    case Paying(a, x) =>
      assert x.Take? ==> StoredOk(s, x.handle);
      assert PayerOk(s, q) && PayerOk(s, a) && PayersOk(s, p, a) && ConfirmedOk(s, i, a);
      PayKeepsSpend(s, a, x, h, p, q, i, j);
      PayKeepsLock(s, a, x, l, h, r);
  }

  lemma NextKeepsInv(s: State, step: Step, v: State)
    requires Leads(s, step, v) && Inv(s)
    ensures Inv(v)
  {
    StepKeeps(s, step, v, 0, 0, 0, 0, 0, 0, 0);
    forall h ensures StoredOk(v, h) { StepKeeps(s, step, v, h, 0, 0, 0, 0, 0, 0); }
    forall p ensures PayerOk(v, p) { StepKeeps(s, step, v, 0, p, 0, 0, 0, 0, 0); }
    forall p, q ensures PayersOk(v, p, q) { StepKeeps(s, step, v, 0, p, q, 0, 0, 0, 0); }
    forall i: nat, p ensures ConfirmedOk(v, i, p) { StepKeeps(s, step, v, 0, p, 0, i, 0, 0, 0); }
    forall i: nat, j: nat ensures OnceOk(v, i, j) { StepKeeps(s, step, v, 0, 0, 0, i, j, 0, 0); }
    forall l, h ensures LockOk(v, l, h) { StepKeeps(s, step, v, h, 0, 0, 0, 0, l, 0); }
    forall l, r ensures InsertOk(v, l, r) { StepKeeps(s, step, v, 0, 0, 0, 0, 0, l, r); }
  }

  lemma {:induction false} RunKeepsInv(run: seq<State>, steps: seq<Step>, n: nat)
    requires Run(run, steps) && n <= |steps|
    ensures Inv(run[n]) && |run[n].approvals| <= MAX_REVIEWS
  {
    if n > 0 {
      RunKeepsInv(run, steps, n - 1);
      assert Leads(run[n - 1], steps[n - 1], run[n]);
      NextKeepsInv(run[n - 1], steps[n - 1], run[n]);
    }
  }

  // ----- Main results -----

  /** In every run each handle is confirmed at most once, and every confirmation is
      inside the review as it was shown: its account, mint and invoice, a total within
      its ceiling, before its expiry, unlocked, and in the lock epoch it was made in. */
  lemma SpendsWithinReview(run: seq<State>, steps: seq<Step>, n: nat)
    requires Run(run, steps) && n <= |steps|
    ensures forall i :: 0 <= i < |run[n].confirmed| ==>
      var c := run[n].confirmed[i];
      && c.handle in run[n].shown
      && var shown := run[n].shown[c.handle];
         && c.account == shown.account && c.mint == shown.mint && c.prepared.request == shown.invoice
         && c.prepared.amount + c.prepared.totalFee + c.prepared.feeReserve <= shown.maximum
         && c.checked < shown.invoiceExpiry && c.checked <= c.at < shown.expiry && c.epoch == shown.epoch && c.unlocked
    ensures forall i, j :: 0 <= i < j < |run[n].confirmed| ==> run[n].confirmed[i].handle != run[n].confirmed[j].handle
  {
    RunKeepsInv(run, steps, n);
    var s := run[n];
    forall i: nat | i < |s.confirmed|
      ensures s.confirmed[i].handle in s.shown && WithinReview(s.shown[s.confirmed[i].handle], s.confirmed[i])
    {
      assert ConfirmedOk(s, i, 0);
    }
    forall i: nat, j: nat | i < j < |s.confirmed| ensures s.confirmed[i].handle != s.confirmed[j].handle {
      assert OnceOk(s, i, j);
    }
  }

  /** A ceiling taken from the melt that was reviewed admits a later melt that costs no more
      in any part, even one that costs the same, and refuses one whose sum is larger. */
  lemma CeilingIsTheReviewedSum(
    approval: Approval, reviewed: Prepared, prepared: Prepared, now: nat, unlocked: bool, epoch: nat)
    requires approval.maximum == reviewed.amount + reviewed.totalFee + reviewed.feeReserve
    requires now < approval.expiry && prepared.request == approval.invoice && unlocked && approval.epoch == epoch
    ensures (prepared.amount <= reviewed.amount && prepared.totalFee <= reviewed.totalFee
             && prepared.feeReserve <= reviewed.feeReserve) ==> MayConfirm(approval, prepared, now, unlocked, epoch)
    ensures (prepared.amount + prepared.totalFee + prepared.feeReserve
             > reviewed.amount + reviewed.totalFee + reviewed.feeReserve) ==>
      !MayConfirm(approval, prepared, now, unlocked, epoch)
  {
  }

  predicate Restarts(step: Step) { step.Review? && step.review == Restart }

  lemma {:induction false} ReturnedStays(run: seq<State>, steps: seq<Step>, l: int, k: nat, n: nat)
    requires Run(run, steps) && k <= n <= |steps|
    requires l in run[k].lockers
    requires forall i :: k <= i < n ==> !Restarts(steps[i])
    ensures l in run[n].lockers && run[n].lockers[l].epoch == run[k].lockers[l].epoch
    ensures run[k].lockers[l].Returned? ==> run[n].lockers[l] == run[k].lockers[l]
  {
    if k < n {
      ReturnedStays(run, steps, l, k, n - 1);
      assert Leads(run[n - 1], steps[n - 1], run[n]);
    }
  }

  /** The map of reviews never exceeds 32. Once a lock has returned, until the process
      restarts, it holds no review from before that lock and none is inserted. */
  lemma LockClearsReviews(run: seq<State>, steps: seq<Step>, l: int, k: nat, n: nat)
    requires Run(run, steps) && k <= n <= |steps|
    requires l in run[k].lockers && run[k].lockers[l].Returned?
    requires forall i :: k <= i < n ==> !Restarts(steps[i])
    ensures |run[n].approvals| <= 32
    ensures forall h :: h in run[n].approvals ==> run[n].approvals[h].epoch >= run[k].lockers[l].epoch
    ensures n < |steps| && steps[n].Review? && steps[n].review.Insert? ==>
      steps[n].a in run[n].recorders && run[n].recorders[steps[n].a].Inserting?
      && run[n].recorders[steps[n].a].approval.epoch >= run[k].lockers[l].epoch
  {
    RunKeepsInv(run, steps, n);
    ReturnedStays(run, steps, l, k, n);
    forall h | h in run[n].approvals ensures run[n].approvals[h].epoch >= run[k].lockers[l].epoch {
      assert LockOk(run[n], l, h);
    }
    if n < |steps| && steps[n].Review? && steps[n].review.Insert? {
      assert Leads(run[n], steps[n], run[n + 1]);
      assert InsertOk(run[n], l, steps[n].a);
    }
  }

  /** From the moment a lock has moved the epoch, even before it empties the map,
      nothing reviewed earlier is confirmed. */
  lemma NoConfirmationAcrossLock(run: seq<State>, steps: seq<Step>, l: int, k: nat, n: nat)
    requires Run(run, steps) && k <= n < |steps|
    requires l in run[k].lockers
    requires forall i :: k <= i < n ==> !Restarts(steps[i])
    requires steps[n].Paying? && steps[n].pay == Confirm
    ensures steps[n].p in run[n].payers && run[n].payers[steps[n].p].Ready?
    ensures run[n].payers[steps[n].p].handle in run[n].shown
    ensures run[n].shown[run[n].payers[steps[n].p].handle].epoch >= run[k].lockers[l].epoch
  {
    RunKeepsInv(run, steps, n);
    ReturnedStays(run, steps, l, k, n);
    assert Leads(run[n], steps[n], run[n + 1]);
    assert LockOk(run[n], l, 0) && PayerOk(run[n], steps[n].p);
  }

  // ----- The service object -----

  lemma RunExtends(run: seq<State>, steps: seq<Step>, step: Step, v: State)
    requires Run(run, steps) && Leads(run[|steps|], step, v)
    ensures Run(run + [v], steps + [step])
  {
    var longer, all := run + [v], steps + [step];
    forall i {:trigger all[i]} | 0 <= i < |all| ensures Leads(longer[i], all[i], longer[i + 1]) {
      if i < |steps| {
        assert Leads(run[i], steps[i], run[i + 1]);
      }
    }
  }

  /** The map and the lock epoch. The ghost history makes every sequence of calls a run of
      the machine, so its results hold of every service; `rest` is the machine's other state. */
  class WalletService {
    var approvals: Approvals
    var epoch: nat
    ghost var rest: State
    ghost var run: seq<State>
    ghost var steps: seq<Step>

    ghost function View(): State
      reads this
    {
      rest.(approvals := approvals, epoch := epoch)
    }

    /** Between calls nobody holds the map's mutex. */
    ghost predicate Valid()
      reads this
    {
      Run(run, steps) && run[|steps|] == View() && rest.mutex == Free
    }

    constructor (now: nat)
      ensures Valid() && View() == Fresh(now)
    {
      approvals, epoch, rest, steps := map[], 0, Fresh(now), [];
      new;
      run := [View()];
    }

    ghost method Note(step: Step, after: State)
      requires Run(run, steps) && Leads(run[|steps|], step, after)
      requires after.approvals == approvals && after.epoch == epoch
      modifies this`rest, this`run, this`steps
      ensures Run(run, steps) && run[|steps|] == View() == after && rest == after
      ensures steps == old(steps) + [step] && run == old(run) + [after]
    {
      RunExtends(run, steps, step, after);
      rest := after;
      run, steps := run + [View()], steps + [step];
    }

    /** Time passes; the vault holds these accounts. */
    ghost method Elapse(now: nat, unlocked: set<int>)
      requires Valid() && View().clock <= now
      modifies this`rest, this`run, this`steps
      ensures Valid() && View() == old(View()).(clock := now, unlocked := unlocked)
    {
      Note(Review(0, Advance(now)), View().(clock := now));
      Note(Review(0, SetUnlocked(unlocked)), View().(unlocked := unlocked));
    }

    lemma Bounded()
      requires Valid()
      ensures |approvals| <= MAX_REVIEWS
    {
      RunKeepsInv(run, steps, |steps|);
    }

    /** A review reads the lock epoch, and shows as its ceiling what its own prepared melt
        may cost. */
    method BeginReview(
      reviewer: int, quote: Name, account: int, mint: Name, invoice: Name, invoiceExpiry: nat, prepared: Prepared,
      expiry: nat, now: nat)
      returns (approval: Result<Approval>)
      requires Valid() && reviewer !in rest.recorders && rest.clock == now
      modifies this`rest, this`run, this`steps
      ensures Valid()
      ensures approval.Ok? <==> prepared.amount + prepared.totalFee + prepared.feeReserve <= U64_MAX && now < expiry
      ensures approval.Ok? ==>
        && approval.value == Approval(quote, account, mint, invoice, invoiceExpiry,
             prepared.amount + prepared.totalFee + prepared.feeReserve, expiry, epoch)
        && View() == old(View()).(recorders := old(rest.recorders)[reviewer := Reviewing(approval.value)])
      ensures approval.Err? ==> View() == old(View())
    {
      var fee := prepared.totalFee + prepared.feeReserve;
      if prepared.amount + fee > U64_MAX || expiry <= now {
        return Err;
      }
      var shown := Approval(quote, account, mint, invoice, invoiceExpiry, prepared.amount + fee, expiry, epoch);
      Note(Review(reviewer, StartReview(shown)), View().(recorders := rest.recorders[reviewer := Reviewing(shown)]));
      return Ok(shown);
    }

    /** `id` is the fresh random handle. Recorded only if no lock came since the review began. */
    method RecordReview(reviewer: int, approval: Approval, id: Name, now: nat) returns (handle: Result<Name>)
      requires Valid() && rest.clock == now && id !in rest.shown
      requires reviewer in rest.recorders && rest.recorders[reviewer] == Reviewing(approval)
      modifies this
      ensures Valid() && |approvals| <= MAX_REVIEWS && epoch == old(epoch)
      ensures handle ==
        if |Unexpired(old(approvals), now)| < 32 && approval.epoch == epoch then Ok(id) else Err
      ensures forall h :: h in approvals <==>
        (h == id && handle.Ok?) || (h in old(approvals) && old(approvals)[h].expiry > now)
      ensures approvals ==
        if handle.Ok? then Unexpired(old(approvals), now)[id := approval] else Unexpired(old(approvals), now)
      ensures rest.shown == if handle.Ok? then old(rest.shown)[id := approval] else old(rest.shown)
      ensures rest.confirmed == old(rest.confirmed) && rest.recorders == old(rest.recorders)[reviewer := Recorded]
    {
      approvals := map h | h in approvals && approvals[h].expiry > now :: approvals[h];
      if |approvals| >= MAX_REVIEWS || approval.epoch != epoch {
        Note(Review(reviewer, CheckFailed), View().(recorders := rest.recorders[reviewer := Recorded]));
        handle := Err;
      } else {
        InsertReview(reviewer, approval, id, old(approvals));
        handle := Ok(id);
      }
      Bounded();
    }

    /** Still under the mutex that `RecordReview` took to drop the expired. */
    method InsertReview(reviewer: int, approval: Approval, id: Name, ghost before: Approvals)
      requires Run(run, steps) && run[|steps|] == View().(approvals := before) && rest.mutex == Free
      requires approvals == Unexpired(before, rest.clock) && |approvals| < MAX_REVIEWS && approval.epoch == epoch
      requires id !in rest.shown && reviewer in rest.recorders && rest.recorders[reviewer] == Reviewing(approval)
      modifies this`approvals, this`rest, this`run, this`steps
      ensures Valid() && approvals == old(approvals)[id := approval]
      ensures rest.shown == old(rest.shown)[id := approval] && rest.confirmed == old(rest.confirmed)
      ensures rest.recorders == old(rest.recorders)[reviewer := Recorded]
    {
      Note(Review(reviewer, CheckPassed),
           View().(mutex := HeldBy(reviewer), recorders := rest.recorders[reviewer := Inserting(approval)]));
      approvals := approvals[id := approval];
      Note(Review(reviewer, Insert(id)),
           View().(mutex := Free, recorders := rest.recorders[reviewer := Recorded],
                   shown := rest.shown[id := approval]));
    }

    /** After a lock no review is recorded, and no review begun before it will be. */
    method Lock(locker: int)
      requires Valid() && locker !in rest.lockers
      modifies this
      ensures Valid() && epoch == old(epoch) + 1 && approvals == map[]
      ensures rest.lockers == old(rest.lockers)[locker := Returned(epoch)]
      ensures rest.recorders == old(rest.recorders) && rest.shown == old(rest.shown)
        && rest.confirmed == old(rest.confirmed)
    {
      epoch := epoch + 1;
      Note(Review(locker, Bump), View().(lockers := rest.lockers[locker := Bumped(epoch)]));
      approvals := map[];
      Note(Review(locker, Clear), View().(lockers := rest.lockers[locker := Returned(epoch)]));
    }

    method LimitReview(handle: Name, expiry: nat)
      requires Valid()
      modifies this
      ensures Valid() && View() == old(View()).(approvals := Limited(old(approvals), handle, expiry))
      ensures approvals.Keys == old(approvals).Keys
      ensures forall h :: h in approvals ==>
        approvals[h] == old(approvals)[h].(
          expiry := if h == handle && expiry < old(approvals)[h].expiry then expiry else old(approvals)[h].expiry)
    {
      if handle in approvals {
        var approval := approvals[handle];
        approvals := approvals[handle := approval.(expiry := Min(approval.expiry, expiry))];
      }
      Note(Review(0, Limit(handle, expiry)), View());
    }

    method CancelReview(handle: Name)
      requires Valid()
      modifies this
      ensures Valid() && View() == old(View()).(approvals := old(approvals) - {handle})
    {
      approvals := approvals - {handle};
      Note(Review(0, Cancel(handle)), View());
    }

    /** Consumes the handle whatever happens. `at` is the mint of the wallet that could be
        opened, `prepared` what its mint prepared; the clock is read on taking the handle,
        on checking the invoice again, and just before confirming. A confirmation is
        within its review as shown, and the first of its handle. */
    method PayReviewed(
      payer: int, account: int, handle: Name, now: nat, at: Option<Name>, checked: nat, prepared: Option<Prepared>,
      later: nat, unlocked: set<int>)
      returns (confirmed: bool)
      requires Valid() && payer !in rest.payers && View().clock <= now <= checked <= later
      modifies this
      ensures Valid() && approvals == old(approvals) - {handle} && epoch == old(epoch)
      ensures confirmed <==>
        && handle in old(approvals)
        && old(approvals)[handle].account == account && now < old(approvals)[handle].expiry
        && at == Some(old(approvals)[handle].mint) && checked < old(approvals)[handle].invoiceExpiry
        && prepared.Some? && later < old(approvals)[handle].expiry
        && prepared.value.amount + prepared.value.totalFee + prepared.value.feeReserve <= old(approvals)[handle].maximum
        && prepared.value.request == old(approvals)[handle].invoice
        && account in unlocked && old(approvals)[handle].epoch == epoch
      ensures rest.shown == old(rest.shown)
      ensures !confirmed ==> rest.confirmed == old(rest.confirmed)
      ensures confirmed ==>
        && rest.confirmed == old(rest.confirmed)
             + [Confirmation(handle, account, at.value, prepared.value, checked, epoch, later, true)]
        && handle in rest.shown && WithinReview(rest.shown[handle], rest.confirmed[|old(rest.confirmed)|])
        && forall i :: 0 <= i < |old(rest.confirmed)| ==> old(rest.confirmed)[i].handle != handle
    {
      Elapse(now, unlocked);
      var taken := TakeReview(payer, account, handle, now);
      if taken == None {
        return false;
      }
      var approval := taken.value;
      if at != Some(approval.mint) || approval.invoiceExpiry <= checked || prepared == None {
        Note(Paying(payer, Abandon), View().(payers := rest.payers[payer := Gone]));
        return false;
      }
      PrepareReviewed(payer, handle, approval, checked, prepared.value, later, unlocked);
      confirmed := ConfirmReviewed(payer, handle, approval, checked, prepared.value, later, unlocked);
    }

    /** Takes the handle off the map, and answers its approval if it is this account's and
        unexpired. */
    method TakeReview(payer: int, account: int, handle: Name, now: nat) returns (taken: Option<Approval>)
      requires Valid() && payer !in rest.payers && rest.clock == now
      modifies this`approvals, this`rest, this`run, this`steps
      ensures Valid() && approvals == old(approvals) - {handle}
      ensures rest.shown == old(rest.shown) && rest.confirmed == old(rest.confirmed) && rest.clock == now
      ensures taken ==
        if handle in old(approvals) && old(approvals)[handle].account == account && now < old(approvals)[handle].expiry
        then Some(old(approvals)[handle]) else None
      ensures taken.Some? ==> payer in rest.payers && rest.payers[payer] == Took(handle, taken.value)
    {
      if handle !in approvals {
        return None;
      }
      var approval := approvals[handle];
      approvals := approvals - {handle};
      if approval.account != account || approval.expiry <= now {
        Note(Review(0, Cancel(handle)), View());
        return None;
      }
      Note(Paying(payer, Take(handle, account)), View().(payers := rest.payers[payer := Took(handle, approval)]));
      return Some(approval);
    }

    /** The last confirmation is within its review, and the first of its handle. */
    lemma LastConfirmed()
      requires Valid() && rest.confirmed != []
      ensures var last := rest.confirmed[|rest.confirmed| - 1];
        && last.handle in rest.shown && WithinReview(rest.shown[last.handle], last)
        && forall i :: 0 <= i < |rest.confirmed| - 1 ==> rest.confirmed[i].handle != last.handle
    {
      SpendsWithinReview(run, steps, |steps|);
    }

    /** The wallet's mint prepares the melt, and the clock moves on to the last check. */
    ghost method PrepareReviewed(
      payer: int, handle: Name, approval: Approval, checked: nat, prepared: Prepared, later: nat, unlocked: set<int>)
      requires Valid() && View().clock <= checked <= later && checked < approval.invoiceExpiry
      requires payer in rest.payers && rest.payers[payer] == Took(handle, approval)
      modifies this`rest, this`run, this`steps
      ensures Valid() && rest.shown == old(rest.shown) && rest.confirmed == old(rest.confirmed)
      ensures rest.clock == later && rest.unlocked == unlocked
      ensures payer in rest.payers && rest.payers[payer] == Ready(handle, approval, prepared, checked)
    {
      Elapse(checked, unlocked);
      Note(Paying(payer, Prepare(approval.mint, prepared)),
           View().(payers := rest.payers[payer := Ready(handle, approval, prepared, checked)]));
      Elapse(later, unlocked);
    }

    method ConfirmReviewed(
      payer: int, handle: Name, approval: Approval, checked: nat, prepared: Prepared, later: nat, unlocked: set<int>)
      returns (confirmed: bool)
      requires Valid() && rest.clock == later && rest.unlocked == unlocked
      requires payer in rest.payers && rest.payers[payer] == Ready(handle, approval, prepared, checked)
      modifies this`rest, this`run, this`steps
      ensures Valid() && rest.shown == old(rest.shown)
      ensures confirmed <==> MayConfirm(approval, prepared, later, approval.account in unlocked, epoch)
      ensures !confirmed ==> rest.confirmed == old(rest.confirmed)
      ensures confirmed ==>
        && rest.confirmed == old(rest.confirmed)
             + [Confirmation(handle, approval.account, approval.mint, prepared, checked, epoch, later, true)]
        && handle in rest.shown && WithinReview(rest.shown[handle], rest.confirmed[|old(rest.confirmed)|])
        && forall i :: 0 <= i < |old(rest.confirmed)| ==> old(rest.confirmed)[i].handle != handle
    {
      var total := prepared.amount + prepared.totalFee + prepared.feeReserve;
      if approval.expiry <= later || total > approval.maximum || prepared.request != approval.invoice
         || approval.account !in unlocked || approval.epoch != epoch
      {
        Note(Paying(payer, Abandon), View().(payers := rest.payers[payer := Gone]));
        return false;
      }
      ghost var confirmation :=
        Confirmation(handle, approval.account, approval.mint, prepared, checked, epoch, later, true);
      Note(Paying(payer, Confirm),
           View().(payers := rest.payers[payer := Gone], confirmed := rest.confirmed + [confirmation]));
      LastConfirmed();
      assert rest.confirmed[|old(rest.confirmed)|] == confirmation;
      assert forall i :: 0 <= i < |old(rest.confirmed)| ==> rest.confirmed[i] == old(rest.confirmed)[i];
      return true;
    }
  }
}
