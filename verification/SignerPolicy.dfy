/** Permission rules and how a request is matched against them. */
module SignerPolicy {
  import opened Prelude

  datatype Operation =
    | Connect | Ping | GetPublicKey | SignEvent | Nip04Encrypt | Nip04Decrypt | Nip44Encrypt | Nip44Decrypt

  datatype Decision = Allow | Deny

  datatype Outcome = Allowed | Denied | Prompt

  /** `kind` is only used by sign_event; on a rule `None` means any kind. */
  datatype Scope = Scope(operation: Operation, kind: Option<nat>)

  datatype Rule = Rule(scope: Scope, decision: Decision)

  function OutcomeOf(decision: Decision): Outcome {
    if decision == Allow then Allowed else Denied
  }

  /** Every rule of one client, in row order. */
  datatype PolicySet = PolicySet(rules: seq<Rule>, allowAll: bool, denyAll: bool) {

    function Evaluate(request: Scope): Outcome {
      if denyAll then Denied
      else
        var exact := if request.kind.Some? then Find(rules, request) else None;
        match exact
        case Some(rule) => OutcomeOf(rule.decision)
        case None =>
          match Find(rules, Scope(request.operation, None))
          case Some(rule) => OutcomeOf(rule.decision)
          case None => if allowAll then Allowed else Prompt
    }
  }

  /** The first rule with this scope. */
  function Find(rules: seq<Rule>, scope: Scope): (found: Option<Rule>)
    ensures found.Some? ==> found.value in rules && found.value.scope == scope
    ensures found.None? ==> forall rule :: rule in rules ==> rule.scope != scope
  {
    if rules == [] then None
    else if rules[0].scope == scope then Some(rules[0])
    else Find(rules[1..], scope)
  }

  predicate UniqueScopes(rules: seq<Rule>) {
    forall i, j :: 0 <= i < j < |rules| ==> rules[i].scope != rules[j].scope
  }

  /** Some rule, wherever it stands, gives this decision for this scope. */
  predicate Says(rules: seq<Rule>, scope: Scope, decision: Decision) {
    Rule(scope, decision) in rules
  }

  predicate Silent(rules: seq<Rule>, scope: Scope) {
    !Says(rules, scope, Allow) && !Says(rules, scope, Deny)
  }

  lemma FindSays(rules: seq<Rule>, scope: Scope)
    requires UniqueScopes(rules)
    ensures Find(rules, scope).None? <==> Silent(rules, scope)
    ensures forall d :: Says(rules, scope, d) <==> Find(rules, scope) == Some(Rule(scope, d))
  {
    var found := Find(rules, scope);
    forall d ensures Says(rules, scope, d) <==> found == Some(Rule(scope, d)) {
      if Says(rules, scope, d) {
        assert Rule(scope, d).scope == scope;
        var i :| 0 <= i < |rules| && rules[i] == found.value;
        var j :| 0 <= j < |rules| && rules[j] == Rule(scope, d);
        assert i == j;
      }
    }
    if found.Some? {
      assert found.value.decision == Allow || found.value.decision == Deny;
      assert Says(rules, scope, found.value.decision);
    }
  }

  /** When a request is allowed without asking, in terms of which rules exist: never
      under deny-all; by the exact-kind rule; failing one, by the method-wide rule;
      failing both, by allow-all. */
  lemma AllowedExactlyWhen(set_: PolicySet, request: Scope)
    requires UniqueScopes(set_.rules)
    ensures var wide := Scope(request.operation, None);
      set_.Evaluate(request) == Allowed <==>
        !set_.denyAll
        && (Says(set_.rules, request, Allow)
            || (Silent(set_.rules, request) && Says(set_.rules, wide, Allow))
            || (Silent(set_.rules, request) && Silent(set_.rules, wide) && set_.allowAll))
    ensures var wide := Scope(request.operation, None);
      set_.Evaluate(request) == Denied <==>
        set_.denyAll
        || Says(set_.rules, request, Deny)
        || (Silent(set_.rules, request) && Says(set_.rules, wide, Deny))
  {
    FindSays(set_.rules, request);
    FindSays(set_.rules, Scope(request.operation, None));
  }

  /** The order of the rows does not matter. */
  lemma OrderIrrelevant(a: PolicySet, b: PolicySet, request: Scope)
    requires UniqueScopes(a.rules) && UniqueScopes(b.rules)
    requires multiset(a.rules) == multiset(b.rules)
    requires a.allowAll == b.allowAll && a.denyAll == b.denyAll
    ensures a.Evaluate(request) == b.Evaluate(request)
  {
    assert forall rule :: rule in a.rules <==> rule in multiset(a.rules);
    assert forall rule :: rule in b.rules <==> rule in multiset(b.rules);
    AllowedExactlyWhen(a, request);
    AllowedExactlyWhen(b, request);
  }
}
