/** The name commands as they write: each performs its durable writes one by one, and
    the ghost history makes each of its executions a stretch of a run of the machine in
    `NamePurchase`. */
module NameWallet {
  import opened Prelude
  import opened NamePurchase

  /** What the provider says of this account's address. */
  datatype Lookup = Unreachable | Unnamed | Named(name: Name, mint: Name)

  /** Outcomes outside the wallet while a purchase is submitted. */
  datatype Outside = Outside(lookup: Lookup, revokes: bool, accepts: bool)

  /** What the library's recovery makes of an interrupted operation. */
  datatype Recovery = Failed | Undone | Completed

  /** What a claim meets before and while it pays: whether the review is still good, the
      price unchanged, the prepared total within the maximum shown, and the swap done.
      `op` is the operation id the library draws. */
  datatype Terms = Terms(name: Name, mint: Name, amount: nat, op: Name,
                         valid: bool, samePrice: bool, affordable: bool, swaps: bool)

  predicate Owns(lookup: Lookup, name: Name) { lookup.Named? && lookup.name == name }

  function Refreshed(record: Option<Purchase>, lookup: Lookup): Option<Purchase> {
    match record
    case Some(p) => if Owns(lookup, p.name) then Some(p.(confirmed := true)) else record
    case None =>
      if lookup.Named? then Some(Purchase(lookup.name, lookup.mint, 0, None, false, true)) else None
  }

  lemma RunExtends(run: seq<State>, steps: seq<Step>, step: Step, v: State)
    requires Run(run, steps) && Leads(run[|steps|], step, v)
    ensures Run(run + [v], steps + [step])
  {
    var longer, all := run + [v], steps + [step];
    forall i {:trigger all[i]} | 0 <= i < |all| ensures Leads(longer[i], all[i], longer[i + 1]) {
      if i < |steps| {
        Follows(run, steps, i);
      }
    }
  }

  class Wallet {
    var record: Option<Purchase>
    var ops: map<Name, Operation>
    var marked: set<Name>
    ghost var sent: set<Name>
    ghost var phase: Phase
    ghost var run: seq<State>
    ghost var steps: seq<Step>

    ghost function View(): State
      reads this
    {
      State(phase, record, ops, marked, sent)
    }

    ghost predicate Valid()
      reads this
    {
      Run(run, steps) && run[|steps|] == View()
    }

    constructor ()
      ensures Valid() && phase == Idle && record == None && ops == map[] && marked == {} && sent == {}
    {
      record, ops, marked, sent, phase, steps := None, map[], {}, {}, Idle, [];
      new;
      run := [View()];
    }

    /** Takes note of one step, whose writes have just been made. */
    ghost method Note(step: Step, after: Phase)
      requires Run(run, steps) && Leads(run[|steps|], step, State(after, record, ops, marked, sent))
      modifies this`phase, this`run, this`steps
      ensures Valid() && phase == after
    {
      RunExtends(run, steps, step, State(after, record, ops, marked, sent));
      phase := after;
      run, steps := run + [View()], steps + [step];
    }

    method SetProgress(op: Name, progress: Progress)
      requires op in ops
      modifies this`ops
      ensures ops == old(ops)[op := old(ops)[op].(progress := progress)]
    {
      ops := ops[op := ops[op].(progress := progress)];
    }

    lemma Holds()
      requires Valid()
      ensures Inv(View())
    {
      RunKeeps(run, steps, |steps|);
    }

    method Refresh(lookup: Lookup) returns (found: Result<Option<Purchase>>)
      requires Valid() && phase.Idle?
      modifies this`record, this`phase, this`run, this`steps
      ensures Valid() && phase.Idle?
      ensures lookup.Unreachable? ==> found == Err && record == old(record)
      ensures !lookup.Unreachable? && old(record).Some? ==>
        record == Some(old(record).value.(
          confirmed := old(record).value.confirmed || (lookup.Named? && lookup.name == old(record).value.name)))
      ensures !lookup.Unreachable? && old(record).None? ==>
        record == if lookup.Named? then Some(Purchase(lookup.name, lookup.mint, 0, None, false, true)) else None
      ensures !lookup.Unreachable? ==> found == Ok(record) && record == Refreshed(old(record), lookup)
    {
      if lookup.Unreachable? {
        return Err;
      }
      if record.Some? {
        if lookup.Named? && lookup.name == record.value.name {
          record := Some(record.value.(confirmed := true));
          Note(Other(ConfirmOwned), Idle);
        }
      } else if lookup.Named? {
        record := Some(Purchase(lookup.name, lookup.mint, 0, None, false, true));
        Note(Other(FindName(lookup.name, lookup.mint)), Idle);
      }
      return Ok(record);
    }

    /** An error or a crash: the command is gone, the store stays. */
    ghost method Give()
      requires Valid() && phase.At?
      modifies this`phase, this`run, this`steps
      ensures Valid() && phase.Idle?
    {
      Note(Other(Stop), Idle);
    }

    // ----- submit -----

    method Save(p: Purchase)
      modifies this`record
      ensures record == Some(p)
    {
      record := Some(p);
    }

    /** The stored token of a created operation, at the recorded mint and amount. */
    method StoredToken(p: Purchase) returns (fits: bool)
      ensures fits <==> TokenFits(View(), p)
      ensures fits <==>
        if p.operation.None? then p.amount == 0
        else
          && p.operation.value in ops && ops[p.operation.value].progress == Created
          && ops[p.operation.value].mint == p.mint && ops[p.operation.value].amount == p.amount
    {
      match p.operation
      case Some(op) =>
        fits := op in ops && ops[op].progress == Created && ops[op].mint == p.mint && ops[op].amount == p.amount;
      case None =>
        fits := p.amount == 0;
    }

    /** The name turned out to be ours: an unsent token goes back to the wallet first. */
    method SettleOwned(p: Purchase, revokes: bool) returns (result: Result<Purchase>)
      requires Valid() && phase == At(Submitting, p)
      modifies this`record, this`ops, this`phase, this`run, this`steps
      ensures Valid() && phase.Idle?
      ensures result.Ok? <==>
        p.submitted || p.operation.None? || (revokes && ProgressIs(old(View()), p.operation.value, Created))
      ensures result.Err? ==> record == old(record) && ops == old(ops)
      ensures result.Ok? ==> result.value == p.(confirmed := true) && record == Some(result.value)
      ensures result.Ok? && (p.submitted || p.operation.None?) ==> ops == old(ops)
      ensures result.Ok? && !p.submitted && p.operation.Some? ==>
        && p.operation.value in old(ops)
        && ops == old(ops)[p.operation.value := old(ops)[p.operation.value].(progress := Refunded)]
    {
      if !p.submitted && p.operation.Some? {
        Note(Submit(OwnedElsewhere), At(Returning, p));
        if !(revokes && p.operation.value in ops && ops[p.operation.value].progress == Created) {
          Give();
          return Err;
        }
        SetProgress(p.operation.value, Refunded);
        Note(Submit(GiveBack), At(Settling, p));
      } else {
        Note(Submit(Owned), At(Settling, p));
      }
      Save(p.(confirmed := true));
      Note(Submit(Settle), Idle);
      return Ok(p.(confirmed := true));
    }

    /** Journals the submission, sends the token, and records an acceptance. */
    method SendToken(p: Purchase, accepts: bool) returns (result: Purchase)
      requires Valid() && phase == At(Submitting, p) && TokenFits(View(), p)
      modifies this`record, this`sent, this`phase, this`run, this`steps
      ensures Valid() && phase.Idle? && record == Some(result)
      ensures result == p.(submitted := true, confirmed := p.confirmed || accepts)
      ensures sent == old(sent) + (if p.operation.Some? then {p.operation.value} else {})
    {
      Note(Submit(Check), At(Checked, p));
      result := p.(submitted := true);
      Save(result);
      Note(Submit(MarkSubmitted), At(Sending, result));
      sent := sent + (if p.operation.Some? then {p.operation.value} else {});
      Note(Submit(Send), At(Awaiting, result));
      if accepts {
        result := result.(confirmed := true);
        Save(result);
        Note(Submit(Accept), Idle);
      } else {
        Give();
      }
    }

    method SubmitPurchase(p: Purchase, w: Outside) returns (result: Result<Purchase>)
      requires Valid() && phase == At(Submitting, p)
      modifies this`record, this`ops, this`sent, this`phase, this`run, this`steps
      ensures Valid() && phase.Idle?
      ensures result.Err? ==> record == old(record) && ops == old(ops) && sent == old(sent)
      ensures result.Ok? ==> !w.lookup.Unreachable? && record == Some(result.value) && ops.Keys == old(ops.Keys)
      // Ours already: nothing is sent, and an unsent token is back in the wallet.
      ensures result.Ok? && Owns(w.lookup, p.name) ==>
        && result.value == p.(confirmed := true) && sent == old(sent)
        && (!p.submitted && p.operation.Some? ==> IsReturned(View(), p.operation.value))
      // Otherwise the one token the record names is sent, and only if it fits.
      ensures result.Ok? && !Owns(w.lookup, p.name) ==>
        && TokenFits(old(View()), p) && ops == old(ops)
        && result.value == p.(submitted := true, confirmed := p.confirmed || w.accepts)
        && sent == old(sent) + (if p.operation.Some? then {p.operation.value} else {})
      ensures result.Ok? <==>
        && !w.lookup.Unreachable?
        && if w.lookup.Named? && w.lookup.name == p.name then
             || p.submitted || p.operation.None?
             || (w.revokes && p.operation.value in old(ops) && old(ops)[p.operation.value].progress == Created)
           else if p.operation.None? then p.amount == 0
           else
             && p.operation.value in old(ops) && old(ops)[p.operation.value].progress == Created
             && old(ops)[p.operation.value].mint == p.mint && old(ops)[p.operation.value].amount == p.amount
      ensures result.Ok? ==>
        var ours := w.lookup.Named? && w.lookup.name == p.name;
        result.value == if ours then p.(confirmed := true)
                        else p.(submitted := true, confirmed := p.confirmed || w.accepts)
      // No other operation is touched.
      ensures forall op :: op in old(ops) && p.operation != Some(op) ==> op in ops && ops[op] == old(ops)[op]
      ensures p.operation.None? ==> ops == old(ops)
    {
      if w.lookup.Unreachable? {
        Give();
        return Err;
      }
      if w.lookup.Named? && w.lookup.name == p.name {
        result := SettleOwned(p, w.revokes);
        return;
      }
      var fits := StoredToken(p);
      if !fits {
        Give();
        return Err;
      }
      var done := SendToken(p, w.accepts);
      return Ok(done);
    }

    // ----- wallet_name_claim -----

    /** Reserves, journals, marks, and only then swaps. */
    method Pay(p: Purchase, terms: Terms) returns (paid: Result<Purchase>)
      requires Valid() && phase == At(Quoted, p) && p.amount > 0 && terms.op !in ops && record.None?
      modifies this`record, this`ops, this`marked, this`phase, this`run, this`steps
      ensures Valid()
      ensures terms.op in ops && ops == old(ops)[terms.op := ops[terms.op]]
      ensures ops[terms.op].mint == p.mint && ops[terms.op].amount == p.amount
      ensures paid.Ok? <==> terms.affordable && terms.swaps
      ensures paid.Ok? ==>
        && paid.value == p.(operation := Some(terms.op)) && phase == At(Submitting, paid.value)
        && record == Some(paid.value) && ops[terms.op].progress == Created && terms.op in marked
      ensures paid.Err? ==>
        && phase.Idle?
        && (if terms.affordable then record == Some(p.(operation := Some(terms.op)))
            else record.None? && ops[terms.op].progress == Cancelled)
    {
      var q := p.(operation := Some(terms.op));
      ops := ops[terms.op := Operation(p.mint, p.amount, Reserved)];
      Note(Claim(Prepare(terms.op)), At(Prepared, q));
      if !terms.affordable {
        SetProgress(terms.op, Cancelled);
        Note(Claim(Decline), Idle);
        return Err;
      }
      Save(q);
      Note(Claim(Journal), At(Journaled, q));
      marked := marked + {terms.op};
      Note(Claim(Mark), At(Marked, q));
      paid := Confirm(q, terms);
    }

    method Confirm(q: Purchase, terms: Terms) returns (paid: Result<Purchase>)
      requires Valid() && phase == At(Marked, q) && q.operation == Some(terms.op) && terms.op in ops
      modifies this`ops, this`phase, this`run, this`steps
      ensures Valid() && terms.op in ops
      ensures ops == old(ops)[terms.op := old(ops)[terms.op].(progress := ops[terms.op].progress)]
      ensures paid == if terms.swaps then Ok(q) else Err
      ensures paid.Ok? ==> phase == At(Submitting, q) && ops[terms.op].progress == Created
      ensures paid.Err? ==> phase.Idle? && ops[terms.op].progress == Confirming
    {
      SetProgress(terms.op, Confirming);
      Note(Claim(Swap), At(Swapping, q));
      if !terms.swaps {
        Give();
        return Err;
      }
      SetProgress(terms.op, Created);
      Note(Claim(Swapped), At(Submitting, q));
      return Ok(q);
    }

    /** A claim never starts over an existing record, and whatever it reserves is either
        cancelled or named by the record it leaves. */
    method ClaimName(terms: Terms, lookup: Lookup, w: Outside) returns (result: Result<Purchase>)
      requires Valid() && phase.Idle? && terms.op !in ops
      modifies this
      ensures Valid() && phase.Idle?
      ensures old(record).Some? ==> result.Err? && ops == old(ops) && sent == old(sent) && marked == old(marked)
      ensures old(record).Some? ==> record == old(record) || record == Refreshed(old(record), lookup)
      ensures terms.op in ops ==> ops[terms.op].progress == Cancelled || Names(View(), terms.op)
      ensures forall op :: op in old(ops) ==> op in ops && ops[op] == old(ops)[op]
      ensures result.Ok? ==>
        && terms.valid && terms.samePrice && terms.affordable && record == Some(result.value)
        && (result.value.name, result.value.mint, result.value.amount) == (terms.name, terms.mint, terms.amount)
        && result.value.operation == (if terms.amount > 0 then Some(terms.op) else None)
      ensures sent == old(sent) || (terms.amount > 0 && sent == old(sent) + {terms.op})
      ensures result.Ok? <==>
        && terms.valid && terms.samePrice && terms.affordable && (terms.amount > 0 ==> terms.swaps)
        && old(record).None? && lookup == Unnamed && w.lookup != Unreachable
        && (w.lookup.Named? && w.lookup.name == terms.name && terms.amount > 0 ==> w.revokes)
      ensures result.Ok? ==>
        var ours := w.lookup.Named? && w.lookup.name == terms.name;
        && result.value.submitted == !ours && result.value.confirmed == (ours || w.accepts)
        && sent == (if terms.amount > 0 && !ours then old(sent) + {terms.op} else old(sent))
    {
      if !terms.valid {
        return Err;
      }
      var found := Refresh(lookup);
      if found.Err? || found.value.Some? || !terms.samePrice {
        return Err;
      }
      var p := Purchase(terms.name, terms.mint, terms.amount, None, false, false);
      Note(Claim(Begin(terms.name, terms.mint, terms.amount)), At(Quoted, p));
      if terms.amount > 0 {
        var paid := Pay(p, terms);
        if paid.Err? {
          return Err;
        }
        result := SubmitPurchase(paid.value, w);
      } else {
        result := ClaimFree(p, terms.affordable, w);
      }
    }

    method ClaimFree(p: Purchase, allowed: bool, w: Outside) returns (result: Result<Purchase>)
      requires Valid() && phase == At(Quoted, p) && p.amount == 0 && p.operation.None?
      modifies this`record, this`ops, this`sent, this`phase, this`run, this`steps
      ensures Valid() && phase.Idle? && sent == old(sent) && ops == old(ops)
      ensures result.Ok? ==> allowed && record == Some(result.value)
      ensures result.Ok? ==>
        && (result.value.name, result.value.mint, result.value.amount) == (p.name, p.mint, 0)
        && result.value.operation.None?
      ensures result.Ok? <==> allowed && w.lookup != Unreachable
      ensures result.Ok? ==>
        var ours := w.lookup.Named? && w.lookup.name == p.name;
        result.value == if ours then p.(confirmed := true)
                        else p.(submitted := true, confirmed := p.confirmed || w.accepts)
    {
      if !allowed {
        Give();
        return Err;
      }
      Save(p);
      Note(Claim(JournalFree), At(Submitting, p));
      result := SubmitPurchase(p, w);
    }

    // ----- wallet_name_retry and wallet_name_reclaim -----

    /** Retrying reuses the recorded operation and makes no other. */
    method RetryName(lookup: Lookup, w: Outside) returns (result: Result<Purchase>)
      requires Valid() && phase.Idle?
      modifies this`record, this`ops, this`sent, this`phase, this`run, this`steps
      ensures Valid() && phase.Idle? && ops.Keys == old(ops.Keys)
      ensures record == old(record) || result.Ok? || record == Refreshed(old(record), lookup)
      ensures result.Ok? ==> record == Some(result.value)
      ensures result.Ok? && old(record).Some? ==>
        result.value == old(record.value).(submitted := result.value.submitted, confirmed := result.value.confirmed)
      ensures forall op :: op in sent && op !in old(sent) ==> Names(old(View()), op)
      ensures old(record).Some? && old(record).value.operation.Some? ==> old(record).value.operation.value in old(ops)
      ensures result.Ok? <==>
        && lookup != Unreachable && (old(record).Some? || lookup.Named?)
        && (old(record).Some? && !old(record).value.confirmed
            && !(lookup.Named? && lookup.name == old(record).value.name) ==>
              var p := old(record).value;
              && w.lookup != Unreachable
              && if w.lookup.Named? && w.lookup.name == p.name then
                   || p.submitted || p.operation.None?
                   || (w.revokes && old(ops)[p.operation.value].progress == Created)
                 else if p.operation.None? then p.amount == 0
                 else old(ops)[p.operation.value].progress == Created)
    {
      RecordedOperations();
      var found := Refresh(lookup);
      if found.Err? || found.value.None? {
        return Err;
      }
      var p := found.value.value;
      if p.confirmed {
        return Ok(p);
      }
      Note(Other(Retry), At(Submitting, p));
      result := SubmitPurchase(p, w);
    }

    /** Removes the record exactly when it is unconfirmed, the name not ours, and its money
        is back or can be taken back: the pending token's revocation is granted, or it was
        refunded, or it never got as far as a token and nothing was submitted. */
    method ReclaimName(lookup: Lookup, recovery: Recovery, revokes: bool) returns (ok: bool)
      requires Valid() && phase.Idle?
      modifies this`record, this`ops, this`phase, this`run, this`steps
      ensures Valid() && phase.Idle? && ops.Keys == old(ops.Keys)
      ensures ok ==> old(record).Some? && !old(record).value.confirmed && record.None?
      ensures ok && old(record).value.operation.Some? ==> IsReturned(View(), old(record).value.operation.value)
      ensures !ok ==> record == old(record) || record == Refreshed(old(record), lookup)
      ensures old(record).Some? && old(record).value.operation.Some? ==> old(record).value.operation.value in old(ops)
      ensures ok <==>
        && old(record).Some? && !old(record).value.confirmed
        && lookup != Unreachable && !(lookup.Named? && lookup.name == old(record).value.name)
        && (old(record).value.operation.Some? ==>
              var was := old(ops)[old(record).value.operation.value].progress;
              && recovery != Failed
              && (|| ((was == Created || (was == Confirming && recovery == Completed)) && revokes)
                  || was == Refunded
                  || (!old(record).value.submitted
                      && (was == Cancelled || was == Reserved || (was == Confirming && recovery == Undone)))))
    {
      RecordedOperations();
      var found := Refresh(lookup);
      if found.Err? || found.value.None? || found.value.value.confirmed {
        return false;
      }
      var p := found.value.value;
      if p.operation.Some? {
        Note(Other(Reclaim), At(Recovering, p));
        ok := TakeBack(p, recovery, revokes);
        if !ok {
          return;
        }
      } else {
        Note(Other(ReclaimFree), At(Removing, p));
      }
      record := None;
      Note(Other(Remove), Idle);
      ok := true;
    }

    lemma RecordedOperations()
      requires Valid()
      ensures record.Some? && record.value.operation.Some? ==>
        && record.value.operation.value in ops
        && ops[record.value.operation.value].mint == record.value.mint
        && ops[record.value.operation.value].amount == record.value.amount
    {
      Holds();
    }

    /** Recovery, then a revocation if a token is still pending; with none pending, only
        a recorded refund or a purchase never submitted will do. */
    method TakeBack(p: Purchase, recovery: Recovery, revokes: bool) returns (ok: bool)
      requires Valid() && phase == At(Recovering, p) && p.operation.Some?
      modifies this`ops, this`phase, this`run, this`steps
      ensures Valid() && ops.Keys == old(ops.Keys)
      ensures if ok then phase == At(Removing, p) else phase.Idle?
      ensures ok ==> IsReturned(View(), p.operation.value)
      ensures p.operation.value in old(ops) && ops.Keys == old(ops.Keys)
      ensures var was := old(ops)[p.operation.value].progress;
        ok <==>
          && recovery != Failed
          && (|| ((was == Created || (was == Confirming && recovery == Completed)) && revokes)
              || was == Refunded
              || (!p.submitted && (was == Cancelled || was == Reserved || (was == Confirming && recovery == Undone))))
      ensures ok ==>
        var was := old(ops)[p.operation.value];
        ops == old(ops)[p.operation.value := was.(progress :=
          if was.progress == Created || was.progress == Refunded then Refunded
          else if was.progress == Confirming && recovery == Completed then Refunded
          else Cancelled)]
    {
      var op := p.operation.value;
      RecordedOperation(p);
      ok := Recover(p, recovery);
      if !ok {
        return;
      }
      if ops[op].progress == Created && revokes {
        SetProgress(op, Refunded);
        Note(Other(Revoke), At(Removing, p));
        return true;
      }
      if !ops[op].progress.Created? && ops[op].progress != Spent(true) && (ops[op].progress.Refunded? || !p.submitted) {
        Note(Other(AlreadyReturned), At(Removing, p));
        return true;
      }
      Give();
      return false;
    }

    /** The operation being reclaimed is known, and was sent before it was redeemed. */
    lemma RecordedOperation(p: Purchase)
      requires Valid() && phase == At(Recovering, p) && p.operation.Some?
      ensures p.operation.value in ops
      ensures ops[p.operation.value].progress.Spent? ==> p.submitted
    {
      Holds();
      assert OpOk(View(), p.operation.value);
    }

    method Recover(p: Purchase, recovery: Recovery) returns (ok: bool)
      requires Valid() && phase == At(Recovering, p) && p.operation.Some?
      modifies this`ops, this`phase, this`run, this`steps
      ensures Valid() && ops.Keys == old(ops.Keys)
      ensures if ok then phase == At(Recovered, p) && p.operation.value in ops else phase.Idle?
      ensures !ok <==> recovery.Failed?
      ensures !ok ==> ops == old(ops)
      ensures ok ==>
        && p.operation.value in old(ops)
        && var was := old(ops)[p.operation.value];
           ops == old(ops)[p.operation.value := was.(progress :=
             if was.progress == Reserved || (was.progress == Confirming && recovery == Undone) then Cancelled
             else if was.progress == Confirming then Created else was.progress)]
    {
      var op := p.operation.value;
      if recovery.Failed? {
        Give();
        return false;
      }
      Holds();
      if ops[op].progress == Confirming && recovery.Completed? {
        SetProgress(op, Created);
        Note(World(Finish(op)), At(Recovering, p));
      } else if ops[op].progress.Reserved? || ops[op].progress.Confirming? {
        SetProgress(op, Cancelled);
        Note(World(Undo(op)), At(Recovering, p));
      }
      Note(Other(RecoveryDone), At(Recovered, p));
      return true;
    }
  }
}
