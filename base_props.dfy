/** The defaults every evaluator inherits from BaseAccess
    (awx/main/access.py lines 92-141) and the job placeholders. */
module BaseProps {
  import opened Store
  import opened Access

  /** `can_write` and `can_unattach` are change checks: the first with the
      same payload, the second with none. */
  lemma WriteAndUnattachAreChange(reg: Access.Registry, env: Env, e: Evaluator, obj: nat, data: Payload, sub: ObjRef)
    requires Registered(reg)
    ensures Evaluate(reg, env, e, WriteCall(obj, data)) == Evaluate(reg, env, e, ChangeCall(obj, data))
    ensures Evaluate(reg, env, e, UnattachCall(obj, sub)) == Evaluate(reg, env, e, ChangeCall(obj, map[]))
  {
  }

  /** Every evaluator but UserAccess and InventoryAccess inherits
      `can_admin` as an alias of `can_change`. */
  lemma AdminIsChangeByDefault(reg: Access.Registry, env: Env, e: Evaluator, obj: nat, data: Payload)
    requires Registered(reg)
    requires e != UserAccess && e != InventoryAccess
    ensures Evaluate(reg, env, e, AdminCall(obj, data)) == Evaluate(reg, env, e, ChangeCall(obj, data))
  {
  }

  /** Organization, team, project and permission deletes are change checks
      without a payload. */
  lemma DeleteIsChangeWhereOverridden(reg: Access.Registry, env: Env, e: Evaluator, obj: nat)
    requires Registered(reg)
    requires e in {OrganizationAccess, TeamAccess, ProjectAccess, PermissionAccess}
    ensures Evaluate(reg, env, e, DeleteCall(obj)) == Evaluate(reg, env, e, ChangeCall(obj, map[]))
  {
  }

  /** Host, group, job template, job, job host summary and job event
      deletes fall back to BaseAccess: superusers only. So do the adds and
      changes of the evaluators that do not override them. */
  lemma SuperuserOnlyDefaults(reg: Access.Registry, env: Env, e: Evaluator, obj: nat, data: Payload)
    requires Registered(reg)
    ensures e in {HostAccess, GroupAccess, JobTemplateAccess, JobAccess, JobHostSummaryAccess, JobEventAccess} ==>
      Evaluate(reg, env, e, DeleteCall(obj)) == Verdict(IsSuperuser(env.store, env.actor))
    ensures e in {OrganizationAccess, ProjectAccess, PermissionAccess, JobAccess, JobHostSummaryAccess, JobEventAccess} ==>
      Evaluate(reg, env, e, AddCall(data)) == Verdict(IsSuperuser(env.store, env.actor))
    ensures e in {JobTemplateAccess, JobHostSummaryAccess, JobEventAccess} ==>
      Evaluate(reg, env, e, ChangeCall(obj, data)) == Verdict(IsSuperuser(env.store, env.actor))
  {
  }

  /** `can_attach` outside GroupAccess (lines 132-138): change access to the
      object and, unless skipped, read access to the attached object
      through its own model's evaluators; when the change check does not
      allow, its answer (a denial or an exception) is the answer. */
  lemma BaseAttachRule(reg: Access.Registry, env: Env, e: Evaluator, obj: nat, sub: ObjRef, data: Payload, skip: bool)
    requires Registered(reg)
    requires e != GroupAccess
    ensures var r, c := Evaluate(reg, env, e, AttachCall(obj, sub, data, skip)), Evaluate(reg, env, e, ChangeCall(obj, map[]));
      (r == Allow <==> c == Allow && (skip || Dispatch(reg, env, sub.model, ReadCall(sub.id)) == Allow)) &&
      (c != Allow ==> r == c) &&
      (skip ==> r == c)
  {
  }

  /** `JobAccess.can_start` and `can_cancel` are placeholders that refuse;
      no other evaluator has them, so dispatch refuses them for every model. */
  lemma StartAndCancelRefused(reg: Access.Registry, env: Env, m: ModelClass, obj: nat)
    requires Registered(reg)
    ensures Dispatch(reg, env, m, StartCall(obj)) == Deny
    ensures Dispatch(reg, env, m, CancelCall(obj)) == Deny
  {
    AllAbstainDeny(reg, env, m, Lookup(reg, m), StartCall(obj));
    AllAbstainDeny(reg, env, m, Lookup(reg, m), CancelCall(obj));
  }

  lemma {:induction false} AllAbstainDeny(reg: Access.Registry, env: Env, m: ModelClass, evals: seq<Evaluator>, call: Call)
    requires Registered(reg)
    requires forall e | e in evals :: ModelOf(e) == m
    requires call.StartCall? || call.CancelCall?
    ensures DispatchAmong(reg, env, m, evals, call) == Deny
  {
    if evals != [] {
      AllAbstainDeny(reg, env, m, evals[1..], call);
    }
  }
}
