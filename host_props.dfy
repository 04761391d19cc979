/** HostAccess (awx/main/access.py lines 300-346) under the registrations
    of lines 693-705: hosts follow their inventory, adding one passes the
    licence gate, and a host cannot change inventory. */
module HostProps {
  import opened Store
  import opened Access
  import opened Registry
  import opened DispatchProps

  /** A host is visible exactly when it is active and its inventory is. */
  lemma HostVisibility(reg: Access.Registry, env: Env, h: nat)
    requires Registered(reg) && IsStandard(reg)
    ensures h in VisibleSet(reg, env, HostModel) <==>
      h in env.store.hosts && env.store.hosts[h].active &&
      env.store.hosts[h].inventory in InventoryQueryset(env.store, env.actor, ReadTypes)
  {
    StandardRegistryDelegates(reg, env, HostModel, ReadCall(h));
    StandardRegistryDelegates(reg, env, InventoryModel, ReadCall(h));
  }

  /** Reading a host is reading its inventory; changing one (with no
      payload) is changing its inventory; a missing host is refused, and a
      host whose inventory is gone is a lookup error (lines 314 and 346). */
  lemma HostFollowsInventory(reg: Access.Registry, env: Env, h: nat)
    requires Registered(reg) && IsStandard(reg)
    ensures h !in env.store.hosts ==>
      Evaluate(reg, env, HostAccess, ReadCall(h)) == Deny &&
      Evaluate(reg, env, HostAccess, ChangeCall(h, map[])) == Deny
    ensures h in env.store.hosts && env.store.hosts[h].inventory !in env.store.inventories ==>
      Evaluate(reg, env, HostAccess, ReadCall(h)) == LookupError &&
      Evaluate(reg, env, HostAccess, ChangeCall(h, map[])) == LookupError
    ensures h in env.store.hosts && env.store.hosts[h].inventory in env.store.inventories ==>
      var inv := env.store.hosts[h].inventory;
      Evaluate(reg, env, HostAccess, ReadCall(h)) ==
        Verdict(HasPermissionTypes(env.store, env.actor, inv, ReadTypes)) &&
      Evaluate(reg, env, HostAccess, ChangeCall(h, map[])) ==
        Verdict(HasPermissionTypes(env.store, env.actor, inv, WriteTypes))
  {
    if h in env.store.hosts {
      var inv := env.store.hosts[h].inventory;
      StandardRegistryDelegates(reg, env, InventoryModel, ReadCall(inv));
      StandardRegistryDelegates(reg, env, InventoryModel, ChangeCall(inv, map[]));
      assert OrganizationRecheck(reg, env, map[]) == None;
    }
  }

  /** Lines 316-338: no payload or no `inventory` key refuses; a key naming
      no inventory is a lookup error; without change access to the
      inventory the answer is a denial; with it, a licence with free
      instances allows and an exhausted one raises the quota error carrying
      the available instance count. */
  lemma HostAddLicenceGate(reg: Access.Registry, env: Env, data: Payload)
    requires Registered(reg) && IsStandard(reg)
    ensures var r := Evaluate(reg, env, HostAccess, AddCall(data));
      ((|data| == 0 || InventoryField !in data) ==> r == Deny) &&
      (InventoryField in data && RefTo(data, InventoryField, env.store.inventories.Keys).None? ==>
        r == LookupError) &&
      (forall inv | RefTo(data, InventoryField, env.store.inventories.Keys) == Some(inv) ::
        r == if !HasPermissionTypes(env.store, env.actor, inv, WriteTypes) then Deny
             else if env.licence.freeInstances > 0 then Allow
             else QuotaExceeded(env.licence.availableInstances))
  {
    match RefTo(data, InventoryField, env.store.inventories.Keys)
    case None =>
    case Some(inv) =>
      assert InventoryField in data.Keys;
      assert |data| > 0;
      StandardRegistryDelegates(reg, env, InventoryModel, ChangeCall(inv, map[]));
      assert OrganizationRecheck(reg, env, map[]) == None;
  }

  /** Only a licence with free instances lets a host be added. */
  lemma NoHostWithoutFreeInstances(reg: Access.Registry, env: Env, data: Payload)
    requires Registered(reg) && IsStandard(reg)
    requires env.licence.freeInstances <= 0
    ensures Evaluate(reg, env, HostAccess, AddCall(data)) != Allow
  {
    HostAddLicenceGate(reg, env, data);
  }

  /** Lines 342-343: a non-empty payload that does not name the host's own
      inventory raises the host-move error, before any permission test;
      only a host whose inventory is gone fails earlier, at the lookup of
      line 342. */
  lemma HostMoveRefused(reg: Access.Registry, env: Env, h: nat, data: Payload)
    requires Registered(reg)
    requires h in env.store.hosts && |data| > 0
    requires InventoryField !in data || data[InventoryField] != Ref(env.store.hosts[h].inventory)
    ensures env.store.hosts[h].inventory in env.store.inventories ==>
      Evaluate(reg, env, HostAccess, ChangeCall(h, data)) == HostMoveError &&
      Evaluate(reg, env, HostAccess, WriteCall(h, data)) == HostMoveError
    ensures env.store.hosts[h].inventory !in env.store.inventories ==>
      Evaluate(reg, env, HostAccess, ChangeCall(h, data)) == LookupError &&
      Evaluate(reg, env, HostAccess, WriteCall(h, data)) == LookupError
  {
  }

  /** A payload that keeps the host in its stored inventory is judged as a
      change to that inventory. */
  lemma HostStayingPut(reg: Access.Registry, env: Env, h: nat, data: Payload)
    requires Registered(reg) && IsStandard(reg)
    requires h in env.store.hosts
    requires InventoryField in data && data[InventoryField] == Ref(env.store.hosts[h].inventory)
    ensures env.store.hosts[h].inventory in env.store.inventories ==>
      Evaluate(reg, env, HostAccess, ChangeCall(h, data)) ==
        Verdict(HasPermissionTypes(env.store, env.actor, env.store.hosts[h].inventory, WriteTypes))
    ensures env.store.hosts[h].inventory !in env.store.inventories ==>
      Evaluate(reg, env, HostAccess, ChangeCall(h, data)) == LookupError
  {
    var inv := env.store.hosts[h].inventory;
    StandardRegistryDelegates(reg, env, InventoryModel, ChangeCall(inv, map[]));
    assert OrganizationRecheck(reg, env, map[]) == None;
  }
}
