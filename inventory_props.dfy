/** InventoryAccess (awx/main/access.py lines 231-298): the three permission
    levels, the soft-delete flag and the organization re-check. */
module InventoryProps {
  import opened Store
  import opened Access
  import opened Registry
  import opened DispatchProps

  /** A grant on `inv` held by `me`, directly or through a team. */
  predicate GrantOn(s: Store, me: nat, inv: nat, p: nat) {
    p in s.permissions && s.permissions[p].inventory == inv && Reaches(s, me, s.permissions[p].grantee)
  }

  /** For an actor who is neither a superuser nor an admin of the
      inventory's organization, the three levels of an active inventory:
      read needs an admin, write or read grant, write an admin or write
      grant, admin an admin grant. */
  lemma InventoryLevels(s: Store, me: nat, inv: nat)
    requires inv in s.inventories && s.inventories[inv].active
    requires !IsSuperuser(s, me) && !IsOrgAdmin(s, me, s.inventories[inv].organization)
    ensures HasPermissionTypes(s, me, inv, ReadTypes) <==>
      exists p :: GrantOn(s, me, inv, p) &&
        s.permissions[p].permissionType in {InventoryAdmin, InventoryWrite, InventoryRead}
    ensures HasPermissionTypes(s, me, inv, WriteTypes) <==>
      exists p :: GrantOn(s, me, inv, p) && s.permissions[p].permissionType in {InventoryAdmin, InventoryWrite}
    ensures HasPermissionTypes(s, me, inv, AdminTypes) <==>
      exists p :: GrantOn(s, me, inv, p) && s.permissions[p].permissionType == InventoryAdmin
  {
  }

  /** Read and delete of an inventory, and change, write and admin with any
      payload that names no organization, are its three level tests. */
  lemma InventoryActionsByLevel(reg: Access.Registry, env: Env, inv: nat, data: Payload)
    requires Registered(reg)
    ensures Evaluate(reg, env, InventoryAccess, ReadCall(inv)) ==
      Verdict(HasPermissionTypes(env.store, env.actor, inv, ReadTypes))
    ensures Evaluate(reg, env, InventoryAccess, DeleteCall(inv)) ==
      Verdict(HasPermissionTypes(env.store, env.actor, inv, AdminTypes))
    ensures OrganizationField !in data ==>
      Evaluate(reg, env, InventoryAccess, ChangeCall(inv, data)) ==
        Verdict(HasPermissionTypes(env.store, env.actor, inv, WriteTypes)) &&
      Evaluate(reg, env, InventoryAccess, WriteCall(inv, data)) ==
        Verdict(HasPermissionTypes(env.store, env.actor, inv, WriteTypes)) &&
      Evaluate(reg, env, InventoryAccess, AdminCall(inv, data)) ==
        Verdict(HasPermissionTypes(env.store, env.actor, inv, AdminTypes))
  {
    assert OrganizationRecheck(reg, env, map[]) == None;
    assert OrganizationField !in data ==> OrganizationRecheck(reg, env, data) == None;
  }

  /** Each level implies the ones below it for visibility. */
  lemma LevelsNest(s: Store, me: nat)
    ensures InventoryQueryset(s, me, AdminTypes) <= InventoryQueryset(s, me, WriteTypes)
    ensures InventoryQueryset(s, me, WriteTypes) <= InventoryQueryset(s, me, ReadTypes)
  {
    forall i | i in InventoryQueryset(s, me, AdminTypes) ensures i in InventoryQueryset(s, me, WriteTypes) {
      if !IsSuperuser(s, me) && !IsOrgAdmin(s, me, s.inventories[i].organization) {
        var p :| p in s.permissions && s.permissions[p].inventory == i &&
          s.permissions[p].permissionType in AdminTypes && Reaches(s, me, s.permissions[p].grantee);
        assert s.permissions[p].permissionType in WriteTypes;
      }
    }
    forall i | i in InventoryQueryset(s, me, WriteTypes) ensures i in InventoryQueryset(s, me, ReadTypes) {
      if !IsSuperuser(s, me) && !IsOrgAdmin(s, me, s.inventories[i].organization) {
        var p :| p in s.permissions && s.permissions[p].inventory == i &&
          s.permissions[p].permissionType in WriteTypes && Reaches(s, me, s.permissions[p].grantee);
        assert s.permissions[p].permissionType in ReadTypes;
      }
    }
  }

  /** An admin grant passes read, write, admin and delete. */
  lemma AdminGrantPassesAll(reg: Access.Registry, env: Env, inv: nat, p: nat)
    requires Registered(reg)
    requires inv in env.store.inventories && env.store.inventories[inv].active
    requires GrantOn(env.store, env.actor, inv, p) && env.store.permissions[p].permissionType == InventoryAdmin
    ensures Evaluate(reg, env, InventoryAccess, ReadCall(inv)) == Allow
    ensures Evaluate(reg, env, InventoryAccess, ChangeCall(inv, map[])) == Allow
    ensures Evaluate(reg, env, InventoryAccess, AdminCall(inv, map[])) == Allow
    ensures Evaluate(reg, env, InventoryAccess, DeleteCall(inv)) == Allow
  {
    var s, me := env.store, env.actor;
    assert HoldsGrant(s, me, inv, AdminTypes);
    assert HoldsGrant(s, me, inv, WriteTypes);
    assert HoldsGrant(s, me, inv, ReadTypes);
    InventoryActionsByLevel(reg, env, inv, map[]);
  }

  /** A plain user whose only grants on the inventory are read grants may
      read it but not change, administer or delete it. */
  lemma ReadGrantOnlyReads(reg: Access.Registry, env: Env, inv: nat, p: nat)
    requires Registered(reg)
    requires inv in env.store.inventories && env.store.inventories[inv].active
    requires !IsSuperuser(env.store, env.actor)
    requires !IsOrgAdmin(env.store, env.actor, env.store.inventories[inv].organization)
    requires GrantOn(env.store, env.actor, inv, p)
    requires forall q | GrantOn(env.store, env.actor, inv, q) :: env.store.permissions[q].permissionType == InventoryRead
    ensures Evaluate(reg, env, InventoryAccess, ReadCall(inv)) == Allow
    ensures Evaluate(reg, env, InventoryAccess, ChangeCall(inv, map[])) == Deny
    ensures Evaluate(reg, env, InventoryAccess, AdminCall(inv, map[])) == Deny
    ensures Evaluate(reg, env, InventoryAccess, DeleteCall(inv)) == Deny
  {
    InventoryLevels(env.store, env.actor, inv);
    InventoryActionsByLevel(reg, env, inv, map[]);
    assert GrantOn(env.store, env.actor, inv, p) &&
      env.store.permissions[p].permissionType in {InventoryAdmin, InventoryWrite, InventoryRead};
  }

  /** Grants at the deploy ('run') or check level are in none of the three
      lists of lines 30-43, so they give neither read, write nor admin. */
  lemma DeployAndCheckGrantsGiveNothing(s: Store, me: nat, inv: nat)
    requires !IsSuperuser(s, me)
    requires inv in s.inventories ==> !IsOrgAdmin(s, me, s.inventories[inv].organization)
    requires forall p | GrantOn(s, me, inv, p) ::
      s.permissions[p].permissionType == InventoryDeploy || s.permissions[p].permissionType == InventoryCheck
    ensures !HasPermissionTypes(s, me, inv, ReadTypes)
    ensures !HasPermissionTypes(s, me, inv, WriteTypes)
    ensures !HasPermissionTypes(s, me, inv, AdminTypes)
  {
    LevelsNest(s, me);
  }

  /** An inactive inventory is in no queryset, not even a superuser's, so
      every level test fails on it. */
  lemma InactiveInventoryHidden(s: Store, me: nat, inv: nat, allowed: set<PermissionType>)
    requires inv in s.inventories && !s.inventories[inv].active
    ensures inv !in InventoryQueryset(s, me, allowed)
    ensures !HasPermissionTypes(s, me, inv, allowed)
  {
  }

  /** Adding an inventory (lines 271-283), under the registrations of lines
      693-705: without a payload any organization admin may; with one, a
      superuser may, and anyone else needs to administer the organization
      the payload names, which must exist. */
  lemma InventoryAddRule(reg: Access.Registry, env: Env, data: Payload)
    requires Registered(reg) && IsStandard(reg)
    ensures var s, me, r := env.store, env.actor, InventoryCanAdd(reg, env, data);
      (|data| == 0 ==> r == Verdict(IsSuperuser(s, me) || AdminsSomeOrg(s, me))) &&
      (|data| > 0 && IsSuperuser(s, me) ==> r == Allow) &&
      (|data| > 0 && !IsSuperuser(s, me) ==>
        match RefTo(data, OrganizationField, s.organizations.Keys)
        case None => r == LookupError
        case Some(o) => r == Verdict(IsOrgAdmin(s, me, o)))
  {
    match RefTo(data, OrganizationField, env.store.organizations.Keys)
    case None =>
    case Some(o) =>
      StandardRegistryDelegates(reg, env, OrganizationModel, ChangeCall(o, map[]));
  }

  /** Changing or administering an inventory with a payload that moves it to
      an organization the actor does not administer is refused, whatever
      the actor's grants. */
  lemma OrganizationMoveRechecked(reg: Access.Registry, env: Env, inv: nat, data: Payload, o: nat)
    requires Registered(reg) && IsStandard(reg)
    requires !IsSuperuser(env.store, env.actor)
    requires RefTo(data, OrganizationField, env.store.organizations.Keys) == Some(o)
    requires !IsOrgAdmin(env.store, env.actor, o)
    ensures Evaluate(reg, env, InventoryAccess, ChangeCall(inv, data)) == Deny
    ensures Evaluate(reg, env, InventoryAccess, AdminCall(inv, data)) == Deny
  {
    assert OrganizationField in data.Keys;
    assert |data| > 0;
    InventoryAddRule(reg, env, data);
    assert InventoryCanAdd(reg, env, data) == Deny;
    assert OrganizationRecheck(reg, env, data) == Some(Deny);
  }

  /** The converse: when the payload names an organization the actor may
      change (a superuser, or an admin of it), the re-check passes and
      change and admin are the write and admin level tests. */
  lemma OrganizationMovePassesRecheck(reg: Access.Registry, env: Env, inv: nat, data: Payload, o: nat)
    requires Registered(reg) && IsStandard(reg)
    requires RefTo(data, OrganizationField, env.store.organizations.Keys) == Some(o)
    requires IsSuperuser(env.store, env.actor) || IsOrgAdmin(env.store, env.actor, o)
    ensures Evaluate(reg, env, InventoryAccess, ChangeCall(inv, data)) ==
      Verdict(HasPermissionTypes(env.store, env.actor, inv, WriteTypes))
    ensures Evaluate(reg, env, InventoryAccess, AdminCall(inv, data)) ==
      Verdict(HasPermissionTypes(env.store, env.actor, inv, AdminTypes))
  {
    assert OrganizationField in data.Keys;
    assert |data| > 0;
    InventoryAddRule(reg, env, data);
    assert OrganizationRecheck(reg, env, data) == None;
  }
}
