/** PermissionAccess (awx/main/access.py lines 536-565). */
module PermissionProps {
  import opened Store
  import opened Access
  import opened Registry
  import opened DispatchProps

  /** Lines 552-562: a superuser may change any grant; otherwise a grant to
      a user by an admin of an organization the user is a member of, and a
      grant to a team by an admin of the team's organization. A grantee, or
      a grantee team's organization, that is no longer stored is a lookup
      error. Deleting is changing. */
  lemma PermissionChangeRule(reg: Access.Registry, env: Env, p: nat, data: Payload)
    requires Registered(reg)
    requires p in env.store.permissions && !IsSuperuser(env.store, env.actor)
    ensures var s, me := env.store, env.actor;
      Evaluate(reg, env, PermissionAccess, ChangeCall(p, data)) == Allow <==>
        match s.permissions[p].grantee
        case GrantToUser(u) => u in s.users && exists o | o in s.organizations ::
          me in s.organizations[o].admins && u in s.organizations[o].members
        case GrantToTeam(t) => t in s.teams && IsOrgAdmin(s, me, s.teams[t].organization)
    ensures var s := env.store;
      Evaluate(reg, env, PermissionAccess, ChangeCall(p, data)) == LookupError <==>
        match s.permissions[p].grantee
        case GrantToUser(u) => u !in s.users
        case GrantToTeam(t) => t !in s.teams || s.teams[t].organization !in s.organizations
    ensures Evaluate(reg, env, PermissionAccess, DeleteCall(p)) == Evaluate(reg, env, PermissionAccess, ChangeCall(p, data))
  {
  }

  /** Lines 543-550: the grantee, a member of the grantee team, and anyone
      who may change a grant may read it. The holder tests come first, so a
      grantee that is no longer stored is a lookup error for everyone. */
  lemma PermissionReadRule(reg: Access.Registry, env: Env, p: nat)
    requires Registered(reg)
    ensures var s := env.store;
      Evaluate(reg, env, PermissionAccess, ReadCall(p)) == Allow <==>
        (p in s.permissions ==> GranteeStored(s, s.permissions[p].grantee)) &&
        ((p in s.permissions && Reaches(s, env.actor, s.permissions[p].grantee)) ||
         Evaluate(reg, env, PermissionAccess, ChangeCall(p, map[])) == Allow)
    ensures var s := env.store;
      p in s.permissions && !GranteeStored(s, s.permissions[p].grantee) ==>
        Evaluate(reg, env, PermissionAccess, ReadCall(p)) == LookupError
  {
  }

  /** The holder of a grant may read it but, unless they administer
      its user or team, not change it. */
  lemma HolderReadsOwnGrant(reg: Access.Registry, env: Env, p: nat)
    requires Registered(reg)
    requires env.actor in env.store.users
    requires p in env.store.permissions && env.store.permissions[p].grantee == GrantToUser(env.actor)
    requires !IsSuperuser(env.store, env.actor) && !AdminsMemberOrgOf(env.store, env.actor, env.actor)
    ensures Evaluate(reg, env, PermissionAccess, ReadCall(p)) == Allow
    ensures Evaluate(reg, env, PermissionAccess, ChangeCall(p, map[])) == Deny
  {
  }

  /** The placeholder queryset of line 541: every grant is listed for
      everyone. */
  lemma EveryGrantListed(reg: Access.Registry, env: Env)
    requires Registered(reg) && IsStandard(reg)
    ensures VisibleSet(reg, env, PermissionModel) == env.store.permissions.Keys
  {
    StandardRegistryDelegates(reg, env, PermissionModel, ReadCall(0));
  }
}
