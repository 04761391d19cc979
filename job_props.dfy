/** JobAccess, JobHostSummaryAccess and JobEventAccess (awx/main/access.py
    lines 663-691). */
module JobProps {
  import opened Store
  import opened Access
  import opened Registry
  import opened DispatchProps

  /** Line 671: only a superuser changes a job, and only while it is new;
      nobody changes a job that has left the `new` state. */
  lemma JobChangeRule(reg: Access.Registry, env: Env, j: nat, data: Payload)
    requires Registered(reg)
    ensures Evaluate(reg, env, JobAccess, ChangeCall(j, data)) == Allow <==>
      IsSuperuser(env.store, env.actor) && j in env.store.jobs && env.store.jobs[j].status == New
    ensures j in env.store.jobs && env.store.jobs[j].status != New ==>
      Evaluate(reg, env, JobAccess, ChangeCall(j, data)) == Deny
  {
  }

  /** The placeholder querysets of lines 668, 684 and 691: every job, job
      host summary and job event is listed for everyone. */
  lemma JobRecordsAllListed(reg: Access.Registry, env: Env)
    requires Registered(reg) && IsStandard(reg)
    ensures VisibleSet(reg, env, JobModel) == env.store.jobs.Keys
    ensures VisibleSet(reg, env, JobHostSummaryModel) == env.store.jobHostSummaries
    ensures VisibleSet(reg, env, JobEventModel) == env.store.jobEvents
  {
    StandardRegistryDelegates(reg, env, JobModel, ReadCall(0));
    StandardRegistryDelegates(reg, env, JobHostSummaryModel, ReadCall(0));
    StandardRegistryDelegates(reg, env, JobEventModel, ReadCall(0));
  }

  /** Only a superuser may read a job, a job host summary or a job event
      (BaseAccess.can_read), though all are listed. */
  lemma JobRecordsReadBySuperuser(reg: Access.Registry, env: Env, x: nat)
    requires Registered(reg)
    ensures Evaluate(reg, env, JobAccess, ReadCall(x)) == Verdict(IsSuperuser(env.store, env.actor))
    ensures Evaluate(reg, env, JobHostSummaryAccess, ReadCall(x)) == Verdict(IsSuperuser(env.store, env.actor))
    ensures Evaluate(reg, env, JobEventAccess, ReadCall(x)) == Verdict(IsSuperuser(env.store, env.actor))
  {
  }
}
