/** UserAccess (awx/main/access.py lines 143-200). */
module UserProps {
  import opened Store
  import opened Access

  /** Lines 191-200: deleting a user is allowed exactly when the target is
      not the actor, the last-superuser guard does not fire, and the actor is
      a superuser or administers an organization the target belongs to. */
  lemma UserDeleteRule(reg: Access.Registry, env: Env, obj: nat)
    requires Registered(reg)
    ensures var s, me := env.store, env.actor;
      Evaluate(reg, env, UserAccess, DeleteCall(obj)) == Allow <==>
        obj != me &&
        !(obj in s.users && s.users[obj].isSuperuser && |ActiveSuperusers(s)| == 1) &&
        (IsSuperuser(s, me) || AdminsMemberOrgOf(s, me, obj))
  {
  }

  /** Nobody may delete themselves, superusers included. */
  lemma NoSelfDelete(reg: Access.Registry, env: Env)
    requires Registered(reg)
    ensures Evaluate(reg, env, UserAccess, DeleteCall(env.actor)) == Deny
  {
  }

  /** The last active superuser cannot be deleted. */
  lemma LastSuperuserKept(reg: Access.Registry, env: Env, obj: nat)
    requires Registered(reg)
    requires ActiveSuperusers(env.store) == {obj}
    ensures Evaluate(reg, env, UserAccess, DeleteCall(obj)) == Deny
  {
    assert obj in ActiveSuperusers(env.store);
  }

  /** The guard counts active superusers but tests only that the target is
      a superuser: with one active superuser left, an inactive superuser
      cannot be deleted either. */
  lemma InactiveSuperuserGuarded(reg: Access.Registry, env: Env, obj: nat, other: nat)
    requires Registered(reg)
    requires obj in env.store.users && env.store.users[obj].isSuperuser && !env.store.users[obj].isActive
    requires ActiveSuperusers(env.store) == {other}
    ensures Evaluate(reg, env, UserAccess, DeleteCall(obj)) == Deny
  {
  }

  /** Lines 168-171: the team test ignores `obj`, so an actor on any team
      may read every user, existing or not. */
  lemma TeamMemberReadsEveryUser(reg: Access.Registry, env: Env, obj: nat)
    requires Registered(reg)
    requires OnSomeTeam(env.store, env.actor)
    ensures Evaluate(reg, env, UserAccess, ReadCall(obj)) == Allow
  {
  }

  /** Admin implies change implies read; every actor may change (and so
      read) their own record. */
  lemma UserLevelsNest(reg: Access.Registry, env: Env, obj: nat, data: Payload)
    requires Registered(reg)
    ensures Evaluate(reg, env, UserAccess, AdminCall(obj, data)) == Allow ==>
      Evaluate(reg, env, UserAccess, ChangeCall(obj, data)) == Allow
    ensures Evaluate(reg, env, UserAccess, ChangeCall(obj, data)) == Allow ==>
      Evaluate(reg, env, UserAccess, ReadCall(obj)) == Allow
    ensures Evaluate(reg, env, UserAccess, ChangeCall(env.actor, data)) == Allow
  {
    var s, me := env.store, env.actor;
    assert Evaluate(reg, env, UserAccess, AdminCall(obj, data)) == Verdict(UserCanAdmin(s, me, obj));
    assert Evaluate(reg, env, UserAccess, ChangeCall(obj, data)) == Verdict(UserCanChange(s, me, obj));
    assert Evaluate(reg, env, UserAccess, ReadCall(obj)) == Verdict(UserCanRead(s, me, obj));
  }

  /** Change is self or admin; admin is superuser or admin of one of the
      target's organizations; add is superuser or admin of any organization. */
  lemma UserChangeRule(reg: Access.Registry, env: Env, obj: nat, data: Payload)
    requires Registered(reg)
    ensures var s, me := env.store, env.actor;
      (Evaluate(reg, env, UserAccess, ChangeCall(obj, data)) == Allow <==>
        me == obj || IsSuperuser(s, me) || AdminsMemberOrgOf(s, me, obj)) &&
      (Evaluate(reg, env, UserAccess, AdminCall(obj, data)) == Allow <==>
        IsSuperuser(s, me) || AdminsMemberOrgOf(s, me, obj)) &&
      (Evaluate(reg, env, UserAccess, AddCall(data)) == Allow <==>
        IsSuperuser(s, me) || exists o | o in s.organizations :: me in s.organizations[o].admins)
  {
  }

  /** An active user the actor may change is in the actor's user queryset. */
  lemma ChangeableUserVisible(s: Store, me: nat, obj: nat)
    requires obj in s.users && s.users[obj].isActive
    requires UserCanChange(s, me, obj)
    ensures obj in UserQueryset(s, me)
  {
  }

  /** A user in the queryset other than the actor themselves shares a team
      with the actor, or the actor may administer them. */
  lemma VisibleUserGrounds(s: Store, me: nat, obj: nat)
    requires obj in UserQueryset(s, me) && obj != me
    ensures obj in s.users && s.users[obj].isActive
    ensures UserCanAdmin(s, me, obj) || exists t | t in s.teams :: me in s.teams[t].members && obj in s.teams[t].members
  {
  }
}
