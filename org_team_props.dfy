/** OrganizationAccess (awx/main/access.py lines 202-229) and TeamAccess
    (lines 451-493). */
module OrgTeamProps {
  import opened Store
  import opened Access
  import opened Registry
  import opened DispatchProps

  /** An existing organization is in the actor's queryset exactly when the
      actor may read it: superuser, admin or member. */
  lemma OrganizationVisibleIffReadable(reg: Access.Registry, env: Env, o: nat)
    requires Registered(reg) && IsStandard(reg)
    requires o in env.store.organizations
    ensures o in VisibleSet(reg, env, OrganizationModel) <==>
      Evaluate(reg, env, OrganizationAccess, ReadCall(o)) == Allow
    ensures Evaluate(reg, env, OrganizationAccess, ReadCall(o)) == Allow <==>
      IsSuperuser(env.store, env.actor) || IsOrgAdmin(env.store, env.actor, o) || IsOrgMember(env.store, env.actor, o)
  {
    StandardRegistryDelegates(reg, env, OrganizationModel, ReadCall(o));
  }

  /** Changing and deleting an organization need a superuser or one of its
      admins; a member may read it but not change it. */
  lemma OrganizationChangeRule(reg: Access.Registry, env: Env, o: nat, data: Payload)
    requires Registered(reg)
    ensures Evaluate(reg, env, OrganizationAccess, ChangeCall(o, data)) == Allow <==>
      IsSuperuser(env.store, env.actor) || IsOrgAdmin(env.store, env.actor, o)
    ensures Evaluate(reg, env, OrganizationAccess, DeleteCall(o)) ==
      Evaluate(reg, env, OrganizationAccess, ChangeCall(o, data))
    ensures Evaluate(reg, env, OrganizationAccess, ChangeCall(o, data)) == Allow ==>
      Evaluate(reg, env, OrganizationAccess, ReadCall(o)) == Allow
  {
  }

  /** An active team whose organization is stored is in the actor's
      queryset exactly when the actor may read it: superuser, admin of its
      organization, or member. When the organization is gone, reading the
      team is a lookup error for anyone but a superuser (line 488). */
  lemma TeamVisibleIffReadable(reg: Access.Registry, env: Env, t: nat)
    requires Registered(reg) && IsStandard(reg)
    requires t in env.store.teams && env.store.teams[t].active
    ensures env.store.teams[t].organization in env.store.organizations ==>
      (t in VisibleSet(reg, env, TeamModel) <==> Evaluate(reg, env, TeamAccess, ReadCall(t)) == Allow)
    ensures Evaluate(reg, env, TeamAccess, ReadCall(t)) == Allow <==>
      IsSuperuser(env.store, env.actor) ||
      (env.store.teams[t].organization in env.store.organizations &&
       (AdminsTeamOrg(env.store, env.actor, t) || OnTeam(env.store, env.actor, t)))
    ensures env.store.teams[t].organization !in env.store.organizations && !IsSuperuser(env.store, env.actor) ==>
      Evaluate(reg, env, TeamAccess, ReadCall(t)) == LookupError
  {
    StandardRegistryDelegates(reg, env, TeamModel, ReadCall(t));
  }

  /** An inactive team is hidden from everyone, superusers included. */
  lemma InactiveTeamHidden(s: Store, me: nat, t: nat)
    requires t in s.teams && !s.teams[t].active
    ensures t !in TeamQueryset(s, me)
  {
  }

  /** Reading does not test `active`: a member of an inactive team may read
      it (lines 477-482) though the queryset (line 460) hides it. */
  lemma InactiveTeamReadable(reg: Access.Registry, env: Env, t: nat)
    requires Registered(reg) && IsStandard(reg)
    requires t in env.store.teams && !env.store.teams[t].active
    requires env.store.teams[t].organization in env.store.organizations
    requires OnTeam(env.store, env.actor, t)
    ensures Evaluate(reg, env, TeamAccess, ReadCall(t)) == Allow
    ensures t !in VisibleSet(reg, env, TeamModel)
  {
    StandardRegistryDelegates(reg, env, TeamModel, ReadCall(t));
  }

  /** Creating a (blank) team needs a superuser or the admin of some
      organization; changing or deleting one needs a superuser or an admin
      of the team's own organization. */
  lemma TeamChangeRule(reg: Access.Registry, env: Env, t: nat, data: Payload)
    requires Registered(reg)
    ensures Evaluate(reg, env, TeamAccess, AddCall(data)) == Allow <==>
      IsSuperuser(env.store, env.actor) || AdminsSomeOrg(env.store, env.actor)
    ensures Evaluate(reg, env, TeamAccess, ChangeCall(t, data)) == Allow <==>
      IsSuperuser(env.store, env.actor) ||
      (t in env.store.teams && IsOrgAdmin(env.store, env.actor, env.store.teams[t].organization))
    ensures Evaluate(reg, env, TeamAccess, ChangeCall(t, data)) == LookupError <==>
      !IsSuperuser(env.store, env.actor) && t in env.store.teams &&
      env.store.teams[t].organization !in env.store.organizations
    ensures Evaluate(reg, env, TeamAccess, DeleteCall(t)) == Evaluate(reg, env, TeamAccess, ChangeCall(t, data))
  {
  }
}
