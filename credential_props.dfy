/** CredentialAccess (awx/main/access.py lines 393-449). */
module CredentialProps {
  import opened Store
  import opened Access
  import opened Registry
  import opened DispatchProps

  /** Lines 432-443: a superuser may change any credential. Anyone else
      passes the user tests (the credential's user, or an admin of an
      organization that user belongs to) or, independently, the team test
      (an admin of the team's organization); a credential with neither key
      is changed by nobody. A gone user raises before either test; a gone
      team or team organization raises when the user tests have not
      allowed. */
  lemma CredentialChangeRule(reg: Access.Registry, env: Env, c: nat, data: Payload)
    requires Registered(reg)
    requires c in env.store.credentials && !IsSuperuser(env.store, env.actor)
    ensures var s, me, cr := env.store, env.actor, env.store.credentials[c];
      Evaluate(reg, env, CredentialAccess, ChangeCall(c, data)) == Allow <==>
        (cr.user.Some? && cr.user.value in s.users &&
          (cr.user.value == me || exists o | o in s.organizations ::
            me in s.organizations[o].admins && cr.user.value in s.organizations[o].members)) ||
        (!UserGone(s, cr) && cr.team.Some? && cr.team.value in s.teams &&
          IsOrgAdmin(s, me, s.teams[cr.team.value].organization))
    ensures var s, me, cr := env.store, env.actor, env.store.credentials[c];
      Evaluate(reg, env, CredentialAccess, ChangeCall(c, data)) == LookupError <==>
        UserGone(s, cr) ||
        (!UserBranchAllows(s, me, cr) && cr.team.Some? &&
          (cr.team.value !in s.teams || s.teams[cr.team.value].organization !in s.organizations))
    ensures Evaluate(reg, env, CredentialAccess, ReadCall(c)) ==
      Evaluate(reg, env, CredentialAccess, ChangeCall(c, data))
  {
  }

  /** The two keys are tested independently: with both a user and a team,
      an admin of the team's organization may change the credential even
      when the user tests fail. */
  lemma TeamTestAfterFailedUserTests(reg: Access.Registry, env: Env, c: nat)
    requires Registered(reg)
    requires c in env.store.credentials
    requires var cr := env.store.credentials[c];
      cr.user.Some? && cr.team.Some? && !UserGone(env.store, cr) &&
      AdminsTeamOrg(env.store, env.actor, cr.team.value)
    ensures Evaluate(reg, env, CredentialAccess, ChangeCall(c, map[])) == Allow
    ensures Evaluate(reg, env, CredentialAccess, DeleteCall(c)) == Allow
  {
  }

  /** Lines 445-449: a credential with neither a user nor a team may be
      deleted by anyone, though only a superuser may read or change it. */
  lemma UnownedCredentialDeletable(reg: Access.Registry, env: Env, c: nat)
    requires Registered(reg)
    requires c in env.store.credentials
    requires env.store.credentials[c].user.None? && env.store.credentials[c].team.None?
    ensures Evaluate(reg, env, CredentialAccess, DeleteCall(c)) == Allow
    ensures Evaluate(reg, env, CredentialAccess, ReadCall(c)) == Verdict(IsSuperuser(env.store, env.actor))
  {
  }

  /** A credential with a user or a team may be deleted exactly by those
      who may change it, except where the test of line 446 itself raises:
      when the user is gone, or when there is no user and the team is gone.
      That happens before any permission test, superusers included. */
  lemma OwnedCredentialDeleteIsChange(reg: Access.Registry, env: Env, c: nat)
    requires Registered(reg)
    requires c in env.store.credentials ==>
      env.store.credentials[c].user.Some? || env.store.credentials[c].team.Some?
    ensures var s := env.store;
      c in s.credentials &&
      (UserGone(s, s.credentials[c]) || (s.credentials[c].user.None? && TeamGone(s, s.credentials[c]))) ==>
      Evaluate(reg, env, CredentialAccess, DeleteCall(c)) == LookupError
    ensures var s := env.store;
      (c in s.credentials ==>
        !UserGone(s, s.credentials[c]) && !(s.credentials[c].user.None? && TeamGone(s, s.credentials[c]))) ==>
      Evaluate(reg, env, CredentialAccess, DeleteCall(c)) ==
      Evaluate(reg, env, CredentialAccess, ChangeCall(c, map[]))
  {
  }

  /** Every active credential the actor may read is in the actor's
      queryset. */
  lemma ReadableCredentialVisible(s: Store, me: nat, c: nat)
    requires c in s.credentials && s.credentials[c].active
    requires CredentialCanRead(s, me, c) == Allow
    ensures c in CredentialQueryset(s, me)
  {
  }

  /** The converse fails twice over: a member of the credential's team, and
      an admin of an organization that the credential's user administers
      but does not belong to, see the credential listed (lines 411-417);
      when neither the user tests nor the team test allows, they may not
      read it (lines 419-420). */
  lemma ListedButNotReadable(s: Store, me: nat, c: nat)
    requires c in s.credentials && s.credentials[c].active && !IsSuperuser(s, me)
    requires var cr := s.credentials[c];
      (cr.team.Some? && OnTeam(s, me, cr.team.value)) ||
      (cr.user.Some? && exists o | o in s.organizations ::
        me in s.organizations[o].admins && cr.user.value in s.organizations[o].admins)
    requires var cr := s.credentials[c];
      !(cr.user.Some? && (cr.user.value == me || AdminsMemberOrgOf(s, me, cr.user.value)))
    requires var cr := s.credentials[c];
      !(cr.team.Some? && AdminsTeamOrg(s, me, cr.team.value))
    ensures c in CredentialQueryset(s, me)
    ensures CredentialCanRead(s, me, c) != Allow
  {
  }

  /** Lines 422-430 under the registrations of lines 693-705: a superuser
      may add any credential; otherwise a payload naming a user needs change
      access to that user, one naming only a team change access to that
      team, either must name an existing object, and one naming neither is
      refused. */
  lemma CredentialAddRule(reg: Access.Registry, env: Env, data: Payload)
    requires Registered(reg) && IsStandard(reg)
    requires !IsSuperuser(env.store, env.actor)
    ensures var s, me, r := env.store, env.actor, Evaluate(reg, env, CredentialAccess, AddCall(data));
      (UserField in data ==>
        match RefTo(data, UserField, s.users.Keys)
        case None => r == LookupError
        case Some(u) => r == Verdict(UserCanChange(s, me, u))) &&
      (UserField !in data && TeamField in data ==>
        match RefTo(data, TeamField, s.teams.Keys)
        case None => r == LookupError
        case Some(t) => r == TeamCanChange(s, me, t)) &&
      (UserField !in data && TeamField !in data ==> r == Deny)
  {
    match RefTo(data, UserField, env.store.users.Keys) {
      case None =>
      case Some(u) => StandardRegistryDelegates(reg, env, UserModel, ChangeCall(u, map[]));
    }
    match RefTo(data, TeamField, env.store.teams.Keys) {
      case None =>
      case Some(t) => StandardRegistryDelegates(reg, env, TeamModel, ChangeCall(t, map[]));
    }
  }

  /** Any actor may add a credential for themselves. */
  lemma OwnCredentialAddable(reg: Access.Registry, env: Env, data: Payload)
    requires Registered(reg) && IsStandard(reg)
    requires UserField in data && data[UserField] == Ref(env.actor) && env.actor in env.store.users
    ensures Evaluate(reg, env, CredentialAccess, AddCall(data)) == Allow
  {
    if !IsSuperuser(env.store, env.actor) {
      CredentialAddRule(reg, env, data);
    }
  }
}
