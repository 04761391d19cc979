/** The module-level `access_registry` of awx/main/access.py and the three
    functions that use it, as a class: `register_access` appends,
    `get_user_queryset` and `check_user_access` read. */
module Registry {
  import opened Store
  import opened Access

  /** The evaluator registered for each model at import time. */
  function EvaluatorFor(m: ModelClass): (e: Evaluator)
    ensures ModelOf(e) == m
  {
    match m
    case UserModel => UserAccess
    case OrganizationModel => OrganizationAccess
    case InventoryModel => InventoryAccess
    case HostModel => HostAccess
    case GroupModel => GroupAccess
    case CredentialModel => CredentialAccess
    case TeamModel => TeamAccess
    case ProjectModel => ProjectAccess
    case PermissionModel => PermissionAccess
    case JobTemplateModel => JobTemplateAccess
    case JobModel => JobAccess
    case JobHostSummaryModel => JobHostSummaryAccess
    case JobEventModel => JobEventAccess
  }

  /** The order of the `register_access` calls of lines 693-705. */
  const StandardOrder: seq<Evaluator> := [
    UserAccess, OrganizationAccess, InventoryAccess, HostAccess, GroupAccess,
    CredentialAccess, TeamAccess, ProjectAccess, PermissionAccess,
    JobTemplateAccess, JobAccess, JobHostSummaryAccess, JobEventAccess
  ]

  /** Where each model's registration comes in StandardOrder. */
  function Position(m: ModelClass): (k: nat)
    ensures k < |StandardOrder| && StandardOrder[k] == EvaluatorFor(m)
  {
    match m
    case UserModel => 0
    case OrganizationModel => 1
    case InventoryModel => 2
    case HostModel => 3
    case GroupModel => 4
    case CredentialModel => 5
    case TeamModel => 6
    case ProjectModel => 7
    case PermissionModel => 8
    case JobTemplateModel => 9
    case JobModel => 10
    case JobHostSummaryModel => 11
    case JobEventModel => 12
  }

  lemma PositionOfOrder(i: nat)
    requires i < |StandardOrder|
    ensures Position(ModelOf(StandardOrder[i])) == i
    ensures EvaluatorFor(ModelOf(StandardOrder[i])) == StandardOrder[i]
  {
  }

  /** A registry as lines 693-705 leave it: exactly one evaluator per model,
      the one for that model. */
  predicate IsStandard(reg: Access.Registry) {
    forall m :: Lookup(reg, m) == [EvaluatorFor(m)]
  }

  lemma LookupRegistered(reg: Access.Registry, m: ModelClass)
    requires Registered(reg)
    ensures forall e | e in Lookup(reg, m) :: ModelOf(e) == m
  {
  }

  class AccessRegistry {
    /** model class -> its evaluator classes, in registration order */
    var entries: Access.Registry

    ghost predicate Valid()
      reads this
    {
      Registered(entries)
    }

    constructor ()
      ensures Valid() && entries == map[]
    {
      entries := map[];
    }

    /** The registry after the import-time registrations of lines 693-705,
        made one `register_access` call at a time. */
    constructor Standard()
      ensures Valid() && IsStandard(entries)
    {
      entries := map[];
      new;
      var i := 0;
      while i < |StandardOrder|
        invariant 0 <= i <= |StandardOrder|
        invariant Valid()
        invariant forall m :: Lookup(entries, m) == if Position(m) < i then [EvaluatorFor(m)] else []
      {
        var e := StandardOrder[i];
        PositionOfOrder(i);
        Register(ModelOf(e), e);
        i := i + 1;
      }
    }

    /** `register_access` (lines 52-54): appends `e` to the list of `m`,
        creating the list if need be; no other model's list changes. */
    method Register(m: ModelClass, e: Evaluator)
      requires Valid() && ModelOf(e) == m
      modifies this
      ensures Valid()
      ensures entries == old(entries)[m := Lookup(old(entries), m) + [e]]
      ensures m !in old(entries) ==> entries == old(entries)[m := [e]]
    {
      assert m !in entries ==> Lookup(entries, m) + [e] == [e];
      entries := entries[m := Lookup(entries, m) + [e]];
    }

    /** `get_user_queryset` (lines 56-73): gather every evaluator's queryset,
        then return none, the only one, or their intersection. */
    method GetUserQueryset(env: Env, m: ModelClass) returns (r: set<nat>)
      requires Valid()
      ensures r == VisibleSet(entries, env, m)
    {
      var evals := Lookup(entries, m);
      LookupRegistered(entries, m);
      ghost var all := Querysets(entries, env, m, evals);
      var querysets: seq<set<nat>> := [];
      var i := 0;
      while i < |evals|
        invariant 0 <= i <= |evals|
        invariant querysets == all[..i]
      {
        querysets := querysets + [Queryset(entries, env, evals[i])];
        i := i + 1;
      }
      assert querysets == all;
      if |querysets| == 0 {
        return {};
      } else if |querysets| == 1 {
        return querysets[0];
      }
      var queryset := AllOf(env.store, m);
      var j := 0;
      while j < |querysets|
        invariant 0 <= j <= |querysets|
        invariant Narrow(queryset, querysets[j..]) == Narrow(AllOf(env.store, m), querysets)
      {
        assert querysets[j..][1..] == querysets[j + 1..];
        queryset := queryset * querysets[j];
        j := j + 1;
      }
      return queryset;
    }

    /** `check_user_access` (lines 75-90): the first evaluator that has the
        method and does not deny decides; an exception it raises decides too;
        otherwise the answer is a denial. */
    method CheckUserAccess(env: Env, m: ModelClass, call: Call) returns (r: Outcome)
      requires Valid()
      ensures r == Dispatch(entries, env, m, call)
    {
      var evals := Lookup(entries, m);
      LookupRegistered(entries, m);
      var i := 0;
      while i < |evals|
        invariant 0 <= i <= |evals|
        invariant Dispatch(entries, env, m, call) == DispatchAmong(entries, env, m, evals[i..], call)
      {
        assert evals[i..][1..] == evals[i + 1..];
        var e := evals[i];
        if HasMethod(e, call.action()) {
          var result := Evaluate(entries, env, e, call);
          if result != Deny {
            return result;
          }
        }
        i := i + 1;
      }
      return Deny;
    }
  }
}
