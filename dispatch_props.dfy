/** What the two combining protocols promise: dispatch is a short-circuit OR
    over the registered evaluators in registration order, visibility is an
    AND (intersection) over all of them. */
module DispatchProps {
  import opened Store
  import opened Access
  import opened Registry

  /** Evaluator `e` does not grant: it has no such method, or it returns a
      falsy value. */
  predicate Abstains(reg: Access.Registry, env: Env, e: Evaluator, call: Call)
    requires Registered(reg)
  {
    !HasMethod(e, call.action()) || Evaluate(reg, env, e, call) == Deny
  }

  lemma {:induction false} FirstDecisionAmong(reg: Access.Registry, env: Env, m: ModelClass, evals: seq<Evaluator>, call: Call)
    requires Registered(reg)
    requires forall e | e in evals :: ModelOf(e) == m
    ensures var r := DispatchAmong(reg, env, m, evals, call);
      (r == Deny <==> forall i | 0 <= i < |evals| :: Abstains(reg, env, evals[i], call)) &&
      (r != Deny ==> exists i | 0 <= i < |evals| ::
         HasMethod(evals[i], call.action()) && Evaluate(reg, env, evals[i], call) == r &&
         forall j | 0 <= j < i :: Abstains(reg, env, evals[j], call))
  {
    if evals != [] {
      var r := DispatchAmong(reg, env, m, evals, call);
      FirstDecisionAmong(reg, env, m, evals[1..], call);
      if Abstains(reg, env, evals[0], call) {
        assert r == DispatchAmong(reg, env, m, evals[1..], call);
        if r != Deny {
          var i :| 0 <= i < |evals[1..]| && HasMethod(evals[1..][i], call.action()) &&
            Evaluate(reg, env, evals[1..][i], call) == r &&
            forall j | 0 <= j < i :: Abstains(reg, env, evals[1..][j], call);
          assert evals[i + 1] == evals[1..][i];
          assert forall j | 0 <= j < i + 1 :: Abstains(reg, env, evals[j], call) by {
            forall j | 0 <= j < i + 1 ensures Abstains(reg, env, evals[j], call) {
              if j > 0 { assert evals[j] == evals[1..][j - 1]; }
            }
          }
        } else {
          forall i | 0 <= i < |evals| ensures Abstains(reg, env, evals[i], call) {
            if i > 0 { assert evals[i] == evals[1..][i - 1]; }
          }
        }
      } else {
        assert r == Evaluate(reg, env, evals[0], call);
      }
    }
  }

  /** `check_user_access` answers with the first registered evaluator (in
      registration order) that has the method and does not return a falsy
      value; it denies exactly when every registered evaluator lacks the
      method or denies, in particular when the model is unregistered. */
  lemma DispatchIsFirstDecision(reg: Access.Registry, env: Env, m: ModelClass, call: Call)
    requires Registered(reg)
    ensures var evals, r := Lookup(reg, m), Dispatch(reg, env, m, call);
      (r == Deny <==> forall i | 0 <= i < |evals| :: Abstains(reg, env, evals[i], call)) &&
      (r != Deny ==> exists i | 0 <= i < |evals| ::
         HasMethod(evals[i], call.action()) && Evaluate(reg, env, evals[i], call) == r &&
         forall j | 0 <= j < i :: Abstains(reg, env, evals[j], call))
  {
    LookupRegistered(reg, m);
    FirstDecisionAmong(reg, env, m, Lookup(reg, m), call);
  }

  /** An unregistered model grants nothing. */
  lemma UnregisteredDenies(reg: Access.Registry, env: Env, m: ModelClass, call: Call)
    requires Registered(reg) && Lookup(reg, m) == []
    ensures Dispatch(reg, env, m, call) == Deny
  {
  }

  /** An action no evaluator has a method for degrades to a denial. */
  lemma UnknownActionDenied(reg: Access.Registry, env: Env, m: ModelClass, name: string)
    requires Registered(reg)
    requires name !in KnownActionNames
    ensures Dispatch(reg, env, m, OtherCall(name)) == Deny
  {
    DispatchIsFirstDecision(reg, env, m, OtherCall(name));
  }

  /** The narrowing loop keeps exactly the objects every queryset contains. */
  lemma {:induction false} NarrowIsIntersection(acc: set<nat>, qs: seq<set<nat>>, x: nat)
    ensures x in Narrow(acc, qs) <==> x in acc && forall i | 0 <= i < |qs| :: x in qs[i]
  {
    if qs != [] {
      NarrowIsIntersection(acc * qs[0], qs[1..], x);
      if x in acc * qs[0] && forall i | 0 <= i < |qs[1..]| :: x in qs[1..][i] {
        forall i | 0 <= i < |qs| ensures x in qs[i] {
          if i > 0 { assert qs[i] == qs[1..][i - 1]; }
        }
      }
    }
  }

  /** `get_user_queryset`: nothing for an unregistered model, the one
      evaluator's queryset unchanged, or the objects in every evaluator's
      queryset. */
  lemma VisibleSetCases(reg: Access.Registry, env: Env, m: ModelClass)
    requires Registered(reg)
    ensures var evals := Lookup(reg, m);
      (|evals| == 0 ==> VisibleSet(reg, env, m) == {}) &&
      (|evals| == 1 ==> VisibleSet(reg, env, m) == Queryset(reg, env, evals[0])) &&
      (|evals| >= 2 ==> forall x :: x in VisibleSet(reg, env, m) <==>
         x in AllOf(env.store, m) && forall i | 0 <= i < |evals| :: x in Queryset(reg, env, evals[i]))
  {
    var evals := Lookup(reg, m);
    LookupRegistered(reg, m);
    var qs := Querysets(reg, env, m, evals);
    if |evals| >= 2 {
      forall x ensures x in VisibleSet(reg, env, m) <==>
        x in AllOf(env.store, m) && forall i | 0 <= i < |evals| :: x in Queryset(reg, env, evals[i])
      {
        NarrowIsIntersection(AllOf(env.store, m), qs, x);
      }
    }
  }

  /** Every evaluator's queryset holds objects of its own model only. */
  lemma QuerysetWithinModel(reg: Access.Registry, env: Env, e: Evaluator)
    requires Registered(reg)
    ensures Queryset(reg, env, e) <= AllOf(env.store, ModelOf(e))
  {
  }

  /** An object is visible only if it is an object of the model that every
      registered evaluator lets through, and at least one is registered. */
  lemma VisibleOnlyThroughEveryLens(reg: Access.Registry, env: Env, m: ModelClass, x: nat)
    requires Registered(reg)
    requires x in VisibleSet(reg, env, m)
    ensures |Lookup(reg, m)| > 0
    ensures x in AllOf(env.store, m)
    ensures forall i | 0 <= i < |Lookup(reg, m)| :: x in Queryset(reg, env, Lookup(reg, m)[i])
  {
    VisibleSetCases(reg, env, m);
    LookupRegistered(reg, m);
    if |Lookup(reg, m)| == 1 {
      QuerysetWithinModel(reg, env, Lookup(reg, m)[0]);
    }
  }

  /** With the registrations of lines 693-705 each model has one evaluator,
      so dispatch asks it alone and visibility is its queryset. */
  lemma StandardRegistryDelegates(reg: Access.Registry, env: Env, m: ModelClass, call: Call)
    requires Registered(reg) && IsStandard(reg)
    ensures Dispatch(reg, env, m, call) ==
      if HasMethod(EvaluatorFor(m), call.action()) then Evaluate(reg, env, EvaluatorFor(m), call) else Deny
    ensures VisibleSet(reg, env, m) == Queryset(reg, env, EvaluatorFor(m))
  {
    var evals := [EvaluatorFor(m)];
    assert Lookup(reg, m) == evals;
    assert evals[1..] == [];
    assert DispatchAmong(reg, env, m, evals[1..], call) == Deny;
    assert Dispatch(reg, env, m, call) == DispatchAmong(reg, env, m, evals, call);
  }

  /** The registry of lines 693-705 meets the registration discipline. */
  lemma StandardIsRegistered(reg: Access.Registry)
    requires IsStandard(reg)
    ensures Registered(reg)
  {
    forall m | m in reg ensures forall e | e in reg[m] :: ModelOf(e) == m {
      assert Lookup(reg, m) == [EvaluatorFor(m)];
    }
  }
}
