/** GroupAccess (awx/main/access.py lines 348-391): groups follow their
    inventory, and attaching one group under another is refused when it
    would make a group its own ancestor. */
module GroupProps {
  import opened Store
  import opened Access
  import opened Registry
  import opened DispatchProps

  /** A group is visible exactly when it is active and its inventory is. */
  lemma GroupVisibility(reg: Access.Registry, env: Env, g: nat)
    requires Registered(reg) && IsStandard(reg)
    ensures g in VisibleSet(reg, env, GroupModel) <==>
      g in env.store.groups && env.store.groups[g].active &&
      env.store.groups[g].inventory in InventoryQueryset(env.store, env.actor, ReadTypes)
  {
    StandardRegistryDelegates(reg, env, GroupModel, ReadCall(g));
    StandardRegistryDelegates(reg, env, InventoryModel, ReadCall(g));
  }

  /** Reading a group is reading its inventory; changing it (whatever the
      payload) or adding one to an inventory is changing the inventory. A
      missing group is refused, and a group whose inventory is gone is a
      lookup error (lines 362 and 374). */
  lemma GroupFollowsInventory(reg: Access.Registry, env: Env, g: nat, data: Payload)
    requires Registered(reg) && IsStandard(reg)
    ensures g !in env.store.groups ==>
      Evaluate(reg, env, GroupAccess, ReadCall(g)) == Deny &&
      Evaluate(reg, env, GroupAccess, ChangeCall(g, data)) == Deny
    ensures g in env.store.groups && env.store.groups[g].inventory !in env.store.inventories ==>
      Evaluate(reg, env, GroupAccess, ReadCall(g)) == LookupError &&
      Evaluate(reg, env, GroupAccess, ChangeCall(g, data)) == LookupError
    ensures g in env.store.groups && env.store.groups[g].inventory in env.store.inventories ==>
      var inv := env.store.groups[g].inventory;
      Evaluate(reg, env, GroupAccess, ReadCall(g)) ==
        Verdict(HasPermissionTypes(env.store, env.actor, inv, ReadTypes)) &&
      Evaluate(reg, env, GroupAccess, ChangeCall(g, data)) ==
        Verdict(HasPermissionTypes(env.store, env.actor, inv, WriteTypes))
    ensures (|data| == 0 || InventoryField !in data) ==> Evaluate(reg, env, GroupAccess, AddCall(data)) == Deny
    ensures InventoryField in data && RefTo(data, InventoryField, env.store.inventories.Keys).None? ==>
      Evaluate(reg, env, GroupAccess, AddCall(data)) == LookupError
    ensures forall inv | RefTo(data, InventoryField, env.store.inventories.Keys) == Some(inv) ::
      Evaluate(reg, env, GroupAccess, AddCall(data)) == Verdict(HasPermissionTypes(env.store, env.actor, inv, WriteTypes))
  {
    assert OrganizationRecheck(reg, env, map[]) == None;
    if g in env.store.groups {
      var inv := env.store.groups[g].inventory;
      StandardRegistryDelegates(reg, env, InventoryModel, ReadCall(inv));
      StandardRegistryDelegates(reg, env, InventoryModel, ChangeCall(inv, map[]));
    }
    match RefTo(data, InventoryField, env.store.inventories.Keys)
    case None =>
    case Some(inv) =>
      assert InventoryField in data.Keys;
      assert |data| > 0;
      StandardRegistryDelegates(reg, env, InventoryModel, ChangeCall(inv, map[]));
  }

  /** Lines 376-391: attaching `sub` to group `obj` is allowed exactly when
      the base attach rule allows it and, if `sub` is a group, the parent
      and its ancestors do not meet the child and its descendants. */
  lemma GroupAttachRule(reg: Access.Registry, env: Env, obj: nat, sub: ObjRef, data: Payload, skip: bool)
    requires Registered(reg)
    ensures var r, base := Evaluate(reg, env, GroupAccess, AttachCall(obj, sub, data, skip)),
                            BaseCanAttach(reg, env, GroupAccess, obj, sub, skip);
      (r == Allow <==> base == Allow && !(sub.model == GroupModel && CreatesCycle(env.store, obj, sub.id))) &&
      (base != Allow ==> r == base)
  {
  }

  /** Lines 384-388: the parent's closure and the child's closure built as
      two sets, each completed with the group itself, and their overlap
      tested. */
  method CycleCheck(s: Store, obj: nat, sub: nat) returns (cycle: bool)
    ensures cycle == CreatesCycle(s, obj, sub)
    ensures cycle <==> exists g :: (g == obj || g in AncestorsOf(s, obj)) && (g == sub || g in DescendantsOf(s, sub))
  {
    var parentPks := AncestorsOf(s, obj);
    parentPks := parentPks + {obj};
    var childPks := DescendantsOf(s, sub);
    childPks := childPks + {sub};
    cycle := parentPks * childPks != {};
    if cycle {
      var g :| g in parentPks * childPks;
      assert g in AncestorsOf(s, obj) + {obj} && g in DescendantsOf(s, sub) + {sub};
    } else {
      forall g | g in AncestorsOf(s, obj) + {obj} ensures g !in DescendantsOf(s, sub) + {sub} {
        assert g !in parentPks * childPks;
      }
    }
  }

  /** `GroupAccess.can_attach` (lines 376-391) as it runs: the base rule
      first, then the cycle test when the attached object is a group. */
  method CheckGroupAttach(reg: Access.Registry, env: Env, obj: nat, sub: ObjRef, skip: bool) returns (r: Outcome)
    requires Registered(reg)
    ensures r == GroupCanAttach(reg, env, obj, sub, skip)
    ensures r == Allow ==> sub.model != GroupModel || !CreatesCycle(env.store, obj, sub.id)
  {
    var base := BaseCanAttach(reg, env, GroupAccess, obj, sub, skip);
    if base != Allow {
      return base;
    }
    if sub.model == GroupModel {
      var cycle := CycleCheck(env.store, obj, sub.id);
      if cycle {
        return Deny;
      }
    }
    return Allow;
  }

  /** A group cannot be attached under itself. */
  lemma SelfAttachRefused(reg: Access.Registry, env: Env, g: nat, data: Payload, skip: bool)
    requires Registered(reg)
    ensures Evaluate(reg, env, GroupAccess, AttachCall(g, ObjRef(GroupModel, g), data, skip)) != Allow
  {
    assert g in AncestorsOf(env.store, g) + {g};
  }

  /** A group cannot be attached under one of its own descendants: if
      `child` is already an ancestor of `parent`, or `parent` already a
      descendant of `child`, the attach is refused. */
  lemma ReverseAttachRefused(reg: Access.Registry, env: Env, parent: nat, child: nat, data: Payload, skip: bool)
    requires Registered(reg)
    requires child in AncestorsOf(env.store, parent) || parent in DescendantsOf(env.store, child)
    ensures Evaluate(reg, env, GroupAccess, AttachCall(parent, ObjRef(GroupModel, child), data, skip)) != Allow
  {
    if child in AncestorsOf(env.store, parent) {
      assert child in DescendantsOf(env.store, child) + {child};
    } else {
      assert parent in AncestorsOf(env.store, parent) + {parent};
    }
  }

  // ---- the hierarchy the check protects ----

  /** No group is its own ancestor or its own descendant. */
  predicate Acyclic(s: Store) {
    forall g | g in s.groups :: g !in s.groups[g].ancestors && g !in s.groups[g].descendants
  }

  /** The stored closures after adding the edge parent -> child: the child
      and its descendants gain the parent and its ancestors as ancestors,
      and the parent and its ancestors gain the child and its descendants
      as descendants. */
  function WithEdge(s: Store, parent: nat, child: nat): Store
  {
    var below := DescendantsOf(s, child) + {child};
    var above := AncestorsOf(s, parent) + {parent};
    s.(groups := map g | g in s.groups ::
      s.groups[g].(
        ancestors := if g in below then s.groups[g].ancestors + above else s.groups[g].ancestors,
        descendants := if g in above then s.groups[g].descendants + below else s.groups[g].descendants))
  }

  /** The point of the check: an attach the cycle test lets through keeps an
      acyclic hierarchy acyclic. */
  lemma AttachKeepsHierarchyAcyclic(s: Store, parent: nat, child: nat)
    requires Acyclic(s)
    requires !CreatesCycle(s, parent, child)
    ensures Acyclic(WithEdge(s, parent, child))
  {
    var t := WithEdge(s, parent, child);
    var below := DescendantsOf(s, child) + {child};
    var above := AncestorsOf(s, parent) + {parent};
    forall g | g in t.groups ensures g !in t.groups[g].ancestors && g !in t.groups[g].descendants {
      if g in below && g in above {
        assert false;
      }
    }
  }

  /** The two stored closures describe one relation: `a` is an ancestor of
      `b` exactly when `b` is a descendant of `a`. */
  predicate ClosuresAgree(s: Store) {
    forall a, b | a in s.groups && b in s.groups ::
      a in s.groups[b].ancestors <==> b in s.groups[a].descendants
  }

  /** The stored ancestor sets are closed: an ancestor of an ancestor is an
      ancestor. */
  predicate AncestorsTransitive(s: Store) {
    forall a, b, c | a in s.groups && b in s.groups && c in s.groups ::
      a in s.groups[b].ancestors && b in s.groups[c].ancestors ==> a in s.groups[c].ancestors
  }

  /** One group's closures after adding the edge parent -> child. */
  lemma WithEdgeAt(s: Store, parent: nat, child: nat, g: nat)
    requires g in s.groups
    ensures var t := WithEdge(s, parent, child);
      g in t.groups &&
      t.groups[g].ancestors == (if g in DescendantsOf(s, child) + {child}
                                then s.groups[g].ancestors + AncestorsOf(s, parent) + {parent}
                                else s.groups[g].ancestors) &&
      t.groups[g].descendants == (if g in AncestorsOf(s, parent) + {parent}
                                  then s.groups[g].descendants + DescendantsOf(s, child) + {child}
                                  else s.groups[g].descendants)
  {
  }

  /** Adding an edge keeps the set of groups and keeps the two closures
      describing one relation, which now relates the parent to the child. */
  lemma WithEdgeKeepsAgreement(s: Store, parent: nat, child: nat)
    requires ClosuresAgree(s)
    requires parent in s.groups && child in s.groups
    ensures WithEdge(s, parent, child).groups.Keys == s.groups.Keys
    ensures ClosuresAgree(WithEdge(s, parent, child))
    ensures parent in WithEdge(s, parent, child).groups[child].ancestors
  {
    var t := WithEdge(s, parent, child);
    WithEdgeAt(s, parent, child, child);
    forall a, b | a in t.groups && b in t.groups
      ensures a in t.groups[b].ancestors <==> b in t.groups[a].descendants
    {
      WithEdgeAt(s, parent, child, a);
      WithEdgeAt(s, parent, child, b);
    }
  }

  /** Adding an edge to a closed, agreeing pair of closures leaves the
      ancestor sets closed: the update is the transitive closure of the old
      relation plus the new edge. */
  lemma {:induction false} WithEdgeKeepsTransitive(s: Store, parent: nat, child: nat)
    requires ClosuresStored(s) && ClosuresAgree(s) && AncestorsTransitive(s)
    requires parent in s.groups && child in s.groups
    ensures AncestorsTransitive(WithEdge(s, parent, child))
  {
    var t := WithEdge(s, parent, child);
    var below := DescendantsOf(s, child) + {child};
    var above := AncestorsOf(s, parent) + {parent};
    forall a, b, c | a in t.groups && b in t.groups && c in t.groups &&
      a in t.groups[b].ancestors && b in t.groups[c].ancestors
      ensures a in t.groups[c].ancestors
    {
      WithEdgeAt(s, parent, child, b);
      WithEdgeAt(s, parent, child, c);
      if c in below {
        if b in above && b != parent {
          assert b in s.groups[parent].ancestors;
        }
      } else {
        assert b in s.groups[c].ancestors;
      }
    }
  }

  /** The stored closures name stored groups only. */
  predicate ClosuresStored(s: Store) {
    forall g | g in s.groups :: s.groups[g].ancestors <= s.groups.Keys && s.groups[g].descendants <= s.groups.Keys
  }

  /** And a refused attach is one that would have closed a cycle: the new
      edge would make some group its own ancestor. */
  lemma RefusedAttachWouldCycle(s: Store, parent: nat, child: nat)
    requires ClosuresStored(s)
    requires parent in s.groups && child in s.groups
    requires CreatesCycle(s, parent, child)
    ensures !Acyclic(WithEdge(s, parent, child))
  {
    var t := WithEdge(s, parent, child);
    var below := DescendantsOf(s, child) + {child};
    var above := AncestorsOf(s, parent) + {parent};
    var g :| g in above && g in below;
    assert g in s.groups;
    assert g in t.groups[g].ancestors;
  }
}
