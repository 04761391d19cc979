/** The access evaluators of awx/main/access.py and the two protocols that
    combine them: dispatch (`check_user_access`, first evaluator that grants
    wins) and visibility (`get_user_queryset`, intersection of every
    evaluator's queryset).

    The evaluators call back into both protocols (`self.user.can_access`,
    `self.user.get_queryset`), so dispatch, visibility and the evaluators form
    one mutually recursive group. It terminates because a call back always
    goes to a model of lower rank (Host, Group and Credential consult
    Inventory, Organization, User and Team; Inventory consults Organization),
    and an attach, the only call that consults an arbitrary model, consults it
    for a read. */
module Access {
  import opened Store

  /** The model classes with a registered evaluator (lines 693-705). */
  datatype ModelClass =
    | UserModel
    | OrganizationModel
    | InventoryModel
    | HostModel
    | GroupModel
    | CredentialModel
    | TeamModel
    | ProjectModel
    | PermissionModel
    | JobTemplateModel
    | JobModel
    | JobHostSummaryModel
    | JobEventModel

  /** The evaluator classes, one per model. */
  datatype Evaluator =
    | UserAccess
    | OrganizationAccess
    | InventoryAccess
    | HostAccess
    | GroupAccess
    | CredentialAccess
    | TeamAccess
    | ProjectAccess
    | PermissionAccess
    | JobTemplateAccess
    | JobAccess
    | JobHostSummaryAccess
    | JobEventAccess

  /** The class attribute `model` of each evaluator. */
  function ModelOf(e: Evaluator): ModelClass {
    match e
    case UserAccess => UserModel
    case OrganizationAccess => OrganizationModel
    case InventoryAccess => InventoryModel
    case HostAccess => HostModel
    case GroupAccess => GroupModel
    case CredentialAccess => CredentialModel
    case TeamAccess => TeamModel
    case ProjectAccess => ProjectModel
    case PermissionAccess => PermissionModel
    case JobTemplateAccess => JobTemplateModel
    case JobAccess => JobModel
    case JobHostSummaryAccess => JobHostSummaryModel
    case JobEventAccess => JobEventModel
  }

  /** The action names `check_user_access` turns into `can_<action>`;
      `Other` is any name no evaluator defines a method for. */
  datatype Action =
    | Read | Add | Change | Write | Admin | Delete | Attach | Unattach | Start | Cancel
    | Other(name: string)

  /** The names of the `can_<action>` methods the evaluators define; an
      `Other` action names none of them. */
  const KnownActionNames: set<string> :=
    {"read", "add", "change", "write", "admin", "delete", "attach", "unattach", "start", "cancel"}

  /** A reference to an object of any model (the `sub_obj` of an attach). */
  datatype ObjRef = ObjRef(model: ModelClass, id: nat)

  /** An action together with the arguments its `can_<action>` method takes.
      The `relationship` argument of attach and unattach is not carried: no
      evaluator reads it. */
  datatype Call =
    | ReadCall(obj: nat)
    | AddCall(data: Payload)
    | ChangeCall(obj: nat, data: Payload)
    | WriteCall(obj: nat, data: Payload)
    | AdminCall(obj: nat, data: Payload)
    | DeleteCall(obj: nat)
    | AttachCall(obj: nat, sub: ObjRef, data: Payload, skipSubObjReadCheck: bool)
    | UnattachCall(obj: nat, sub: ObjRef)
    | StartCall(obj: nat)
    | CancelCall(obj: nat)
    | OtherCall(name: string)
  {
    function action(): Action {
      match this
      case ReadCall(_) => Read
      case AddCall(_) => Add
      case ChangeCall(_, _) => Change
      case WriteCall(_, _) => Write
      case AdminCall(_, _) => Admin
      case DeleteCall(_) => Delete
      case AttachCall(_, _, _, _) => Attach
      case UnattachCall(_, _) => Unattach
      case StartCall(_) => Start
      case CancelCall(_) => Cancel
      case OtherCall(name) => Other(name)
    }
  }

  /** The answer of an evaluator or of the dispatcher. `Deny` is a falsy
      return; the last three are exceptions, which leave the dispatcher at
      once: `PermissionDenied` for an exhausted licence (line 338) or a host
      moved between inventories (line 343), and a lookup that finds no
      object: a payload key that is absent or names no object
      (`get_object_or_400`, `objects.get`, `data[key]`), or a stored
      reference followed to a row that is gone (`obj.inventory`,
      `obj.team`, ...). */
  datatype Outcome = Allow | Deny | QuotaExceeded(instances: int) | LookupError | HostMoveError

  function Verdict(b: bool): Outcome {
    if b then Allow else Deny
  }

  /** The actor, the store it is judged against, and the licence oracle's answer. */
  datatype Env = Env(store: Store, actor: nat, licence: Licence)

  type Registry = map<ModelClass, seq<Evaluator>>

  /** Every evaluator is registered under its own model, as lines 693-705 do. */
  predicate Registered(reg: Registry) {
    forall m | m in reg :: forall e | e in reg[m] :: ModelOf(e) == m
  }

  function Lookup(reg: Registry, m: ModelClass): seq<Evaluator> {
    if m in reg then reg[m] else []
  }

  /** Which `can_<action>` methods each evaluator class has: all of them
      inherit read, add, change, write, admin, delete, attach and unattach
      from BaseAccess; only JobAccess adds start and cancel. */
  predicate HasMethod(e: Evaluator, a: Action) {
    match a
    case Start => e == JobAccess
    case Cancel => e == JobAccess
    case Other(_) => false
    case _ => true
  }

  /** Every object of a model (`model.objects.all()`). */
  function AllOf(s: Store, m: ModelClass): set<nat> {
    match m
    case UserModel => s.users.Keys
    case OrganizationModel => s.organizations.Keys
    case InventoryModel => s.inventories.Keys
    case HostModel => s.hosts.Keys
    case GroupModel => s.groups.Keys
    case CredentialModel => s.credentials.Keys
    case TeamModel => s.teams.Keys
    case ProjectModel => s.projects.Keys
    case PermissionModel => s.permissions.Keys
    case JobTemplateModel => s.jobTemplates.Keys
    case JobModel => s.jobs.Keys
    case JobHostSummaryModel => s.jobHostSummaries
    case JobEventModel => s.jobEvents
  }

  // ---- termination measure ----

  function TypeRank(m: ModelClass): nat {
    match m
    case HostModel => 2
    case GroupModel => 2
    case CredentialModel => 2
    case InventoryModel => 1
    case _ => 0
  }

  function Rank(m: ModelClass, a: Action): nat {
    if a.Attach? then 3 else TypeRank(m)
  }

  // ======================================================================
  // Dispatch: check_user_access (lines 75-90)
  // ======================================================================

  /** The answer `check_user_access` gives: the evaluators registered for
      the model, in registration order, each consulted if it has the method. */
  function Dispatch(reg: Registry, env: Env, m: ModelClass, call: Call): Outcome
    requires Registered(reg)
    decreases Rank(m, call.action()), 9, 0
  {
    DispatchAmong(reg, env, m, Lookup(reg, m), call)
  }

  function DispatchAmong(reg: Registry, env: Env, m: ModelClass, evals: seq<Evaluator>, call: Call): Outcome
    requires Registered(reg)
    requires forall e | e in evals :: ModelOf(e) == m
    decreases Rank(m, call.action()), 8, |evals|
  {
    if evals == [] then Deny
    else if !HasMethod(evals[0], call.action()) then DispatchAmong(reg, env, m, evals[1..], call)
    else
      var r := Evaluate(reg, env, evals[0], call);
      if r != Deny then r else DispatchAmong(reg, env, m, evals[1..], call)
  }

  /** Calls `can_<action>` on evaluator `e`. */
  function Evaluate(reg: Registry, env: Env, e: Evaluator, call: Call): Outcome
    requires Registered(reg)
    requires HasMethod(e, call.action())
    decreases Rank(ModelOf(e), call.action()), 7, 0
  {
    match call
    case ReadCall(obj) => CanRead(reg, env, e, obj)
    case AddCall(data) => CanAdd(reg, env, e, data)
    case ChangeCall(obj, data) => CanChange(reg, env, e, obj, data)
    // BaseAccess.can_write: an alias for can_change, overridden nowhere
    case WriteCall(obj, data) => CanChange(reg, env, e, obj, data)
    case AdminCall(obj, data) => CanAdmin(reg, env, e, obj, data)
    case DeleteCall(obj) => CanDelete(reg, env, e, obj)
    case AttachCall(obj, sub, _, skip) => CanAttach(reg, env, e, obj, sub, skip)
    // BaseAccess.can_unattach, overridden nowhere
    case UnattachCall(obj, _) => CanChange(reg, env, e, obj, map[])
    // JobAccess.can_start and can_cancel are placeholders that refuse
    case StartCall(_) => Deny
    case CancelCall(_) => Deny
    case OtherCall(_) => Deny
  }

  function CanRead(reg: Registry, env: Env, e: Evaluator, obj: nat): Outcome
    requires Registered(reg)
    decreases Rank(ModelOf(e), Read), 3, 1
  {
    var s, me := env.store, env.actor;
    match e
    case UserAccess => Verdict(UserCanRead(s, me, obj))
    case OrganizationAccess => Verdict(OrganizationCanRead(s, me, obj))
    case InventoryAccess => Verdict(InventoryCanRead(s, me, obj))
    case HostAccess => HostCanRead(reg, env, obj)
    case GroupAccess => GroupCanRead(reg, env, obj)
    case CredentialAccess => CredentialCanRead(s, me, obj)
    case TeamAccess => TeamCanRead(s, me, obj)
    case ProjectAccess => ProjectCanRead(s, me, obj)
    case PermissionAccess => PermissionCanRead(s, me, obj)
    case JobTemplateAccess => JobTemplateCanRead(s, me, obj)
    case _ => Verdict(IsSuperuser(s, me))
  }

  function CanAdd(reg: Registry, env: Env, e: Evaluator, data: Payload): Outcome
    requires Registered(reg)
    decreases Rank(ModelOf(e), Add), 0, 1
  {
    var s, me := env.store, env.actor;
    match e
    case UserAccess => Verdict(UserCanAdd(s, me))
    case InventoryAccess => InventoryCanAdd(reg, env, data)
    case HostAccess => HostCanAdd(reg, env, data)
    case GroupAccess => GroupCanAdd(reg, env, data)
    case CredentialAccess => CredentialCanAdd(reg, env, data)
    case TeamAccess => Verdict(TeamCanAdd(s, me))
    case JobTemplateAccess => JobTemplateCanAdd(s, me, data)
    case _ => Verdict(IsSuperuser(s, me))
  }

  function CanChange(reg: Registry, env: Env, e: Evaluator, obj: nat, data: Payload): Outcome
    requires Registered(reg)
    decreases Rank(ModelOf(e), Change), 2, 1
  {
    var s, me := env.store, env.actor;
    match e
    case UserAccess => Verdict(UserCanChange(s, me, obj))
    case OrganizationAccess => Verdict(OrganizationCanChange(s, me, obj))
    case InventoryAccess => InventoryCanChange(reg, env, obj, data)
    case HostAccess => HostCanChange(reg, env, obj, data)
    case GroupAccess => GroupCanChange(reg, env, obj)
    case CredentialAccess => CredentialCanChange(s, me, obj)
    case TeamAccess => TeamCanChange(s, me, obj)
    case ProjectAccess => ProjectCanChange(s, me, obj)
    case PermissionAccess => PermissionCanChange(s, me, obj)
    case JobAccess => Verdict(JobCanChange(s, me, obj))
    case _ => Verdict(IsSuperuser(s, me))
  }

  /** BaseAccess.can_admin is an alias for can_change; UserAccess and
      InventoryAccess override it. */
  function CanAdmin(reg: Registry, env: Env, e: Evaluator, obj: nat, data: Payload): Outcome
    requires Registered(reg)
    decreases Rank(ModelOf(e), Admin), 3, 1
  {
    match e
    case UserAccess => Verdict(UserCanAdmin(env.store, env.actor, obj))
    case InventoryAccess => InventoryCanAdmin(reg, env, obj, data)
    case _ => CanChange(reg, env, e, obj, data)
  }

  function CanDelete(reg: Registry, env: Env, e: Evaluator, obj: nat): Outcome
    requires Registered(reg)
    decreases Rank(ModelOf(e), Delete), 3, 1
  {
    var s, me := env.store, env.actor;
    match e
    case UserAccess => Verdict(UserCanDelete(s, me, obj))
    case InventoryAccess => InventoryCanAdmin(reg, env, obj, map[])
    case CredentialAccess => CredentialCanDelete(s, me, obj)
    case OrganizationAccess => CanChange(reg, env, e, obj, map[])
    case TeamAccess => CanChange(reg, env, e, obj, map[])
    case ProjectAccess => CanChange(reg, env, e, obj, map[])
    case PermissionAccess => CanChange(reg, env, e, obj, map[])
    case _ => Verdict(IsSuperuser(s, me))
  }

  function CanAttach(reg: Registry, env: Env, e: Evaluator, obj: nat, sub: ObjRef, skip: bool): Outcome
    requires Registered(reg)
    decreases Rank(ModelOf(e), Attach), 4, 1
  {
    if e == GroupAccess then GroupCanAttach(reg, env, obj, sub, skip)
    else BaseCanAttach(reg, env, e, obj, sub, skip)
  }

  /** BaseAccess.can_attach (lines 132-138): change access to `obj` and,
      unless skipped, read access to `sub` through its own model's
      evaluators. An exception from either call propagates. */
  function BaseCanAttach(reg: Registry, env: Env, e: Evaluator, obj: nat, sub: ObjRef, skip: bool): Outcome
    requires Registered(reg)
    decreases Rank(ModelOf(e), Attach), 3, 0
  {
    var c := CanChange(reg, env, e, obj, map[]);
    if skip || c != Allow then c
    else Dispatch(reg, env, sub.model, ReadCall(sub.id))
  }

  // ======================================================================
  // Visibility: get_user_queryset (lines 56-73)
  // ======================================================================

  /** The objects of model `m` visible to the actor: none when no evaluator
      is registered, the one evaluator's queryset when there is one, and
      otherwise the objects of `m` that pass every evaluator's queryset. */
  function VisibleSet(reg: Registry, env: Env, m: ModelClass): set<nat>
    requires Registered(reg)
    decreases TypeRank(m), 3, 0
  {
    var qs := Querysets(reg, env, m, Lookup(reg, m));
    if |qs| == 0 then {}
    else if |qs| == 1 then qs[0]
    else Narrow(AllOf(env.store, m), qs)
  }

  /** The list `querysets` built by the first loop of get_user_queryset. */
  function Querysets(reg: Registry, env: Env, m: ModelClass, evals: seq<Evaluator>): (qs: seq<set<nat>>)
    requires Registered(reg)
    requires forall e | e in evals :: ModelOf(e) == m
    decreases TypeRank(m), 2, |evals|
    ensures |qs| == |evals|
    ensures forall i | 0 <= i < |evals| :: qs[i] == Queryset(reg, env, evals[i])
  {
    if evals == [] then []
    else [Queryset(reg, env, evals[0])] + Querysets(reg, env, m, evals[1..])
  }

  /** `queryset.filter(pk__in=qs)` for each `qs` in turn. */
  function Narrow(acc: set<nat>, qs: seq<set<nat>>): set<nat> {
    if qs == [] then acc else Narrow(acc * qs[0], qs[1..])
  }

  /** Each evaluator's `get_queryset()`. */
  function Queryset(reg: Registry, env: Env, e: Evaluator): set<nat>
    requires Registered(reg)
    decreases TypeRank(ModelOf(e)), 1, 0
  {
    var s, me := env.store, env.actor;
    match e
    case UserAccess => UserQueryset(s, me)
    case OrganizationAccess => OrganizationQueryset(s, me)
    case InventoryAccess => InventoryQueryset(s, me, ReadTypes)
    case HostAccess => HostQueryset(reg, env)
    case GroupAccess => GroupQueryset(reg, env)
    case CredentialAccess => CredentialQueryset(s, me)
    case TeamAccess => TeamQueryset(s, me)
    case ProjectAccess => ProjectQueryset(s, me)
    // the FIXME querysets of lines 541, 668, 684 and 691 return everything
    case PermissionAccess => s.permissions.Keys
    case JobTemplateAccess => JobTemplateQueryset(s, me)
    case JobAccess => s.jobs.Keys
    case JobHostSummaryAccess => s.jobHostSummaries
    case JobEventAccess => s.jobEvents
  }

  // ======================================================================
  // UserAccess (lines 143-200)
  // ======================================================================

  function UserQueryset(s: Store, me: nat): set<nat> {
    set u | u in s.users && s.users[u].isActive &&
      (IsSuperuser(s, me) || u == me || AdminsMemberOrgOf(s, me, u) ||
       exists t | t in s.teams :: me in s.teams[t].members && u in s.teams[t].members)
  }

  /** The team test counts the actor's own teams that contain the actor, so
      it ignores `obj`. */
  predicate UserCanRead(s: Store, me: nat, obj: nat) {
    OnSomeTeam(s, me) || UserCanChange(s, me, obj)
  }

  predicate UserCanAdd(s: Store, me: nat) {
    IsSuperuser(s, me) || AdminsSomeOrg(s, me)
  }

  predicate UserCanChange(s: Store, me: nat, obj: nat) {
    me == obj || UserCanAdmin(s, me, obj)
  }

  predicate UserCanAdmin(s: Store, me: nat, obj: nat) {
    IsSuperuser(s, me) || AdminsMemberOrgOf(s, me, obj)
  }

  predicate UserCanDelete(s: Store, me: nat, obj: nat) {
    if obj == me then false
    else if obj in s.users && s.users[obj].isSuperuser && |ActiveSuperusers(s)| == 1 then false
    else IsSuperuser(s, me) || AdminsMemberOrgOf(s, me, obj)
  }

  // ======================================================================
  // OrganizationAccess (lines 202-229)
  // ======================================================================

  function OrganizationQueryset(s: Store, me: nat): set<nat> {
    set o | o in s.organizations &&
      (IsSuperuser(s, me) || me in s.organizations[o].admins || me in s.organizations[o].members)
  }

  predicate OrganizationCanRead(s: Store, me: nat, obj: nat) {
    OrganizationCanChange(s, me, obj) || IsOrgMember(s, me, obj)
  }

  predicate OrganizationCanChange(s: Store, me: nat, obj: nat) {
    IsSuperuser(s, me) || IsOrgAdmin(s, me, obj)
  }

  // ======================================================================
  // InventoryAccess (lines 231-298)
  // ======================================================================

  /** PERMISSION_TYPES_ALLOWING_INVENTORY_READ, _WRITE and _ADMIN (lines 30-43). */
  const ReadTypes: set<PermissionType> := {InventoryAdmin, InventoryWrite, InventoryRead}
  const WriteTypes: set<PermissionType> := {InventoryAdmin, InventoryWrite}
  const AdminTypes: set<PermissionType> := {InventoryAdmin}

  /** Some grant on inventory `inv`, of a type in `allowed`, is held by the
      actor directly or through a team. */
  predicate HoldsGrant(s: Store, me: nat, inv: nat, allowed: set<PermissionType>) {
    exists p | p in s.permissions ::
      s.permissions[p].inventory == inv && s.permissions[p].permissionType in allowed &&
      Reaches(s, me, s.permissions[p].grantee)
  }

  /** `get_queryset(allowed)` (lines 249-263); an empty `allowed` means the
      read list. */
  function InventoryQueryset(s: Store, me: nat, allowed: set<PermissionType>): set<nat> {
    var levels := if allowed == {} then ReadTypes else allowed;
    set i | i in s.inventories && s.inventories[i].active &&
      (IsSuperuser(s, me) || IsOrgAdmin(s, me, s.inventories[i].organization) ||
       HoldsGrant(s, me, i, levels))
  }

  /** `has_permission_types` (lines 265-266). */
  predicate HasPermissionTypes(s: Store, me: nat, obj: nat, allowed: set<PermissionType>) {
    obj in InventoryQueryset(s, me, allowed)
  }

  predicate InventoryCanRead(s: Store, me: nat, obj: nat) {
    HasPermissionTypes(s, me, obj, ReadTypes)
  }

  /** Lines 271-283: without a payload, any organization admin may add; with
      one, the actor needs change access to the named organization. */
  function InventoryCanAdd(reg: Registry, env: Env, data: Payload): Outcome
    requires Registered(reg)
    decreases Rank(InventoryModel, Add), 0, 0
  {
    var s, me := env.store, env.actor;
    if |data| == 0 then Verdict(IsSuperuser(s, me) || AdminsSomeOrg(s, me))
    else if IsSuperuser(s, me) then Allow
    else match RefTo(data, OrganizationField, s.organizations.Keys)
      case None => LookupError
      case Some(org) => Dispatch(reg, env, OrganizationModel, ChangeCall(org, map[]))
  }

  /** The organization re-check shared by can_change and can_admin: an
      exception from can_add propagates, a denial denies, else `None`. */
  function OrganizationRecheck(reg: Registry, env: Env, data: Payload): Option<Outcome>
    requires Registered(reg)
    decreases Rank(InventoryModel, Add), 0, 1
  {
    if |data| > 0 && OrganizationField in data then
      var a := InventoryCanAdd(reg, env, data);
      if a == Allow then None else Some(a)
    else None
  }

  function InventoryCanChange(reg: Registry, env: Env, obj: nat, data: Payload): Outcome
    requires Registered(reg)
    decreases Rank(InventoryModel, Change), 2, 0
  {
    match OrganizationRecheck(reg, env, data)
    case Some(r) => r
    case None => Verdict(HasPermissionTypes(env.store, env.actor, obj, WriteTypes))
  }

  function InventoryCanAdmin(reg: Registry, env: Env, obj: nat, data: Payload): Outcome
    requires Registered(reg)
    decreases Rank(InventoryModel, Admin), 1, 0
  {
    match OrganizationRecheck(reg, env, data)
    case Some(r) => r
    case None => Verdict(HasPermissionTypes(env.store, env.actor, obj, AdminTypes))
  }

  // ======================================================================
  // HostAccess (lines 300-346)
  // ======================================================================

  function HostQueryset(reg: Registry, env: Env): set<nat>
    requires Registered(reg)
    decreases TypeRank(HostModel), 0, 0
  {
    var inventories := VisibleSet(reg, env, InventoryModel);
    set h | h in env.store.hosts && env.store.hosts[h].active &&
      env.store.hosts[h].inventory in inventories
  }

  /** Line 314; `obj.inventory` raises when the host's inventory is gone. */
  function HostCanRead(reg: Registry, env: Env, obj: nat): Outcome
    requires Registered(reg)
    decreases Rank(HostModel, Read), 3, 0
  {
    if obj !in env.store.hosts then Deny
    else
      var inv := env.store.hosts[obj].inventory;
      if inv !in env.store.inventories then LookupError
      else Dispatch(reg, env, InventoryModel, ReadCall(inv))
  }

  /** Lines 316-338: change access to the named inventory, then the licence
      gate, whose failure is the quota error carrying `available_instances`. */
  function HostCanAdd(reg: Registry, env: Env, data: Payload): Outcome
    requires Registered(reg)
    decreases Rank(HostModel, Add), 0, 0
  {
    if |data| == 0 || InventoryField !in data then Deny
    else match RefTo(data, InventoryField, env.store.inventories.Keys)
      case None => LookupError
      case Some(inv) =>
        var c := Dispatch(reg, env, InventoryModel, ChangeCall(inv, map[]));
        if c != Allow then c
        else if env.licence.freeInstances > 0 then Allow
        else QuotaExceeded(env.licence.availableInstances)
  }

  /** Lines 340-346: a non-empty payload whose `inventory` is missing or is
      not the host's inventory is refused with the host-move error. Both
      branches follow `obj.inventory`, which raises when it is gone. */
  function HostCanChange(reg: Registry, env: Env, obj: nat, data: Payload): Outcome
    requires Registered(reg)
    decreases Rank(HostModel, Change), 2, 0
  {
    if obj !in env.store.hosts then Deny
    else
      var inv := env.store.hosts[obj].inventory;
      if inv !in env.store.inventories then LookupError
      else if |data| > 0 && (InventoryField !in data || data[InventoryField] != Ref(inv)) then HostMoveError
      else Dispatch(reg, env, InventoryModel, ChangeCall(inv, map[]))
  }

  // ======================================================================
  // GroupAccess (lines 348-391)
  // ======================================================================

  function GroupQueryset(reg: Registry, env: Env): set<nat>
    requires Registered(reg)
    decreases TypeRank(GroupModel), 0, 0
  {
    var inventories := VisibleSet(reg, env, InventoryModel);
    set g | g in env.store.groups && env.store.groups[g].active &&
      env.store.groups[g].inventory in inventories
  }

  /** Line 362; `obj.inventory` raises when the group's inventory is gone. */
  function GroupCanRead(reg: Registry, env: Env, obj: nat): Outcome
    requires Registered(reg)
    decreases Rank(GroupModel, Read), 3, 0
  {
    if obj !in env.store.groups then Deny
    else
      var inv := env.store.groups[obj].inventory;
      if inv !in env.store.inventories then LookupError
      else Dispatch(reg, env, InventoryModel, ReadCall(inv))
  }

  function GroupCanAdd(reg: Registry, env: Env, data: Payload): Outcome
    requires Registered(reg)
    decreases Rank(GroupModel, Add), 0, 0
  {
    if |data| == 0 || InventoryField !in data then Deny
    else match RefTo(data, InventoryField, env.store.inventories.Keys)
      case None => LookupError
      case Some(inv) => Dispatch(reg, env, InventoryModel, ChangeCall(inv, map[]))
  }

  /** Line 374, with the same lookup of the group's inventory. */
  function GroupCanChange(reg: Registry, env: Env, obj: nat): Outcome
    requires Registered(reg)
    decreases Rank(GroupModel, Change), 2, 0
  {
    if obj !in env.store.groups then Deny
    else
      var inv := env.store.groups[obj].inventory;
      if inv !in env.store.inventories then LookupError
      else Dispatch(reg, env, InventoryModel, ChangeCall(inv, map[]))
  }

  /** Attaching group `child` under group `parent` would close a cycle: the
      parent and its ancestors meet the child and its descendants. */
  predicate CreatesCycle(s: Store, parent: nat, child: nat) {
    exists g | g in AncestorsOf(s, parent) + {parent} :: g in DescendantsOf(s, child) + {child}
  }

  /** Lines 376-391: the base attach rule, then cycle prevention when the
      attached object is itself a group. */
  function GroupCanAttach(reg: Registry, env: Env, obj: nat, sub: ObjRef, skip: bool): Outcome
    requires Registered(reg)
    decreases Rank(GroupModel, Attach), 4, 0
  {
    var base := BaseCanAttach(reg, env, GroupAccess, obj, sub, skip);
    if base != Allow then base
    else if sub.model == GroupModel && CreatesCycle(env.store, obj, sub.id) then Deny
    else Allow
  }

  // ======================================================================
  // CredentialAccess (lines 393-449)
  // ======================================================================

  function CredentialQueryset(s: Store, me: nat): set<nat> {
    set c | c in s.credentials && s.credentials[c].active &&
      (IsSuperuser(s, me) || CredentialListedFor(s, me, s.credentials[c]))
  }

  /** The five Q terms of lines 411-417: three over the `user` key, two
      over the `team` key. */
  predicate CredentialListedFor(s: Store, me: nat, c: Credential) {
    (c.user.Some? &&
      (c.user.value == me || AdminsMemberOrgOf(s, me, c.user.value) ||
       exists o | o in s.organizations :: me in s.organizations[o].admins && c.user.value in s.organizations[o].admins)) ||
    (c.team.Some? && (AdminsTeamOrg(s, me, c.team.value) || OnTeam(s, me, c.team.value)))
  }

  /** The credential's user key names a row that is gone. */
  predicate UserGone(s: Store, c: Credential) {
    c.user.Some? && c.user.value !in s.users
  }

  /** The credential's team key names a row that is gone. */
  predicate TeamGone(s: Store, c: Credential) {
    c.team.Some? && c.team.value !in s.teams
  }

  /** The user tests of lines 435-439 allow: the actor is the credential's
      (stored) user or administers an organization that user belongs to. */
  predicate UserBranchAllows(s: Store, me: nat, c: Credential) {
    c.user.Some? && c.user.value in s.users &&
    (c.user.value == me || AdminsMemberOrgOf(s, me, c.user.value))
  }

  function CredentialCanRead(s: Store, me: nat, obj: nat): Outcome {
    if obj !in s.credentials then Deny else CredentialCanChange(s, me, obj)
  }

  /** Lines 422-430: change access to the user or team the new credential
      is for; a payload naming neither is refused. */
  function CredentialCanAdd(reg: Registry, env: Env, data: Payload): Outcome
    requires Registered(reg)
    decreases Rank(CredentialModel, Add), 0, 0
  {
    var s := env.store;
    if IsSuperuser(s, env.actor) then Allow
    else if UserField in data then
      match RefTo(data, UserField, s.users.Keys)
      case None => LookupError
      case Some(u) => Dispatch(reg, env, UserModel, ChangeCall(u, map[]))
    else if TeamField in data then
      match RefTo(data, TeamField, s.teams.Keys)
      case None => LookupError
      case Some(t) => Dispatch(reg, env, TeamModel, ChangeCall(t, map[]))
    else Deny
  }

  /** Lines 432-443: the user tests, then, independently, the team test;
      either may allow. Following the user (line 435), the team or the
      team's organization (line 441) raises when that row is gone. */
  function CredentialCanChange(s: Store, me: nat, obj: nat): Outcome {
    if IsSuperuser(s, me) then Allow
    else if obj !in s.credentials then Deny
    else
      var c := s.credentials[obj];
      if UserGone(s, c) then LookupError
      else if UserBranchAllows(s, me, c) then Allow
      else if c.team.None? then Deny
      else if c.team.value !in s.teams || s.teams[c.team.value].organization !in s.organizations then LookupError
      else Verdict(AdminsTeamOrg(s, me, c.team.value))
  }

  /** Neither of the credential's keys names a row that is gone. */
  predicate OwnersStored(s: Store, c: nat)
    requires c in s.credentials
  {
    !UserGone(s, s.credentials[c]) && !TeamGone(s, s.credentials[c])
  }

  /** Lines 445-449: a credential with neither a user nor a team may be
      deleted by anyone. The test of line 446 follows the user and, only
      when there is none, the team, so a gone row raises there. */
  function CredentialCanDelete(s: Store, me: nat, obj: nat): Outcome {
    if obj !in s.credentials then CredentialCanChange(s, me, obj)
    else
      var c := s.credentials[obj];
      if UserGone(s, c) then LookupError
      else if c.user.Some? then CredentialCanChange(s, me, obj)
      else if TeamGone(s, c) then LookupError
      else if c.team.None? then Allow
      else CredentialCanChange(s, me, obj)
  }

  // ======================================================================
  // TeamAccess (lines 451-493)
  // ======================================================================

  function TeamQueryset(s: Store, me: nat): set<nat> {
    set t | t in s.teams && s.teams[t].active &&
      (IsSuperuser(s, me) || IsOrgAdmin(s, me, s.teams[t].organization) || me in s.teams[t].members)
  }

  predicate TeamCanAdd(s: Store, me: nat) {
    IsSuperuser(s, me) || AdminsSomeOrg(s, me)
  }

  /** Lines 477-482: a change answer other than a denial decides. */
  function TeamCanRead(s: Store, me: nat, obj: nat): Outcome {
    var c := TeamCanChange(s, me, obj);
    if c != Deny then c else Verdict(OnTeam(s, me, obj))
  }

  /** Lines 484-490; `obj.organization` raises when the team's
      organization is gone. */
  function TeamCanChange(s: Store, me: nat, obj: nat): Outcome {
    if IsSuperuser(s, me) then Allow
    else if obj !in s.teams then Deny
    else if s.teams[obj].organization !in s.organizations then LookupError
    else Verdict(AdminsTeamOrg(s, me, obj))
  }

  // ======================================================================
  // ProjectAccess (lines 495-534)
  // ======================================================================

  function ProjectQueryset(s: Store, me: nat): set<nat> {
    set p | p in s.projects &&
      (IsSuperuser(s, me) ||
       (exists t | t in s.projects[p].teams :: OnTeam(s, me, t)) ||
       (exists o | o in s.projects[p].organizations :: IsOrgAdmin(s, me, o)))
  }

  function ProjectCanRead(s: Store, me: nat, obj: nat): Outcome {
    ProjectCanChange(s, me, obj)
  }

  /** Lines 522-531 with the organization loop doing what it evidently
      intends (the code as written raises there; see
      ProjectProps.ProjectCanChangeAsWritten): a superuser, the project's
      creator, or an admin of one of its organizations. Following
      `created_by` (line 525) raises when that user is gone. */
  function ProjectCanChange(s: Store, me: nat, obj: nat): Outcome {
    if IsSuperuser(s, me) then Allow
    else if obj !in s.projects then Deny
    else if s.projects[obj].createdBy.Some? && s.projects[obj].createdBy.value !in s.users then LookupError
    else Verdict(s.projects[obj].createdBy == Some(me) ||
                 exists o | o in s.projects[obj].organizations :: IsOrgAdmin(s, me, o))
  }

  // ======================================================================
  // PermissionAccess (lines 536-565)
  // ======================================================================

  /** The grant's user or team is a stored row. */
  predicate GranteeStored(s: Store, g: Grantee) {
    match g
    case GrantToUser(u) => u in s.users
    case GrantToTeam(t) => t in s.teams
  }

  /** Lines 543-550: the holder tests come first and follow the grant's
      user or team, which raises when the row is gone. */
  function PermissionCanRead(s: Store, me: nat, obj: nat): Outcome {
    if obj !in s.permissions then PermissionCanChange(s, me, obj)
    else if !GranteeStored(s, s.permissions[obj].grantee) then LookupError
    else if Reaches(s, me, s.permissions[obj].grantee) then Allow
    else PermissionCanChange(s, me, obj)
  }

  /** Lines 552-562. The team branch (line 560) is read as "the actor
      administers the team's organization". Following the grant's user,
      team or team organization raises when the row is gone. */
  function PermissionCanChange(s: Store, me: nat, obj: nat): Outcome {
    if IsSuperuser(s, me) then Allow
    else if obj !in s.permissions then Deny
    else match s.permissions[obj].grantee
      case GrantToUser(u) =>
        if u !in s.users then LookupError
        else Verdict(AdminsMemberOrgOf(s, me, u))
      case GrantToTeam(t) =>
        if t !in s.teams || s.teams[t].organization !in s.organizations then LookupError
        else Verdict(AdminsTeamOrg(s, me, t))
  }

  // ======================================================================
  // JobTemplateAccess (lines 567-661)
  // ======================================================================

  function JobTemplateQueryset(s: Store, me: nat): set<nat> {
    if IsSuperuser(s, me) then s.jobTemplates.Keys
    else
      set j | j in s.jobTemplates && s.jobTemplates[j].active && ProjectReaches(s, me, s.jobTemplates[j].project)
  }

  /** The actor administers one of the project's organizations or is on one
      of its teams (lines 582-583). */
  predicate ProjectReaches(s: Store, me: nat, proj: nat) {
    proj in s.projects &&
    ((exists o | o in s.projects[proj].organizations :: IsOrgAdmin(s, me, o)) ||
     (exists t | t in s.projects[proj].teams :: OnTeam(s, me, t)))
  }

  /** Lines 588-595: readable iff the actor could add the same template.
      Building the payload follows the template's inventory and project
      (lines 590-592), which raises, superusers included, when either is
      gone. */
  function JobTemplateCanRead(s: Store, me: nat, obj: nat): Outcome {
    if obj !in s.jobTemplates then Deny
    else
      var jt := s.jobTemplates[obj];
      if jt.inventory !in s.inventories || jt.project !in s.projects then LookupError
      else JobTemplateCanAdd(s, me, map[InventoryField := Ref(jt.inventory), ProjectField := Ref(jt.project),
                                   JobTypeField := TypeValue(jt.jobType)])
  }

  /** Whether grant `g` lets the actor launch a job of type `jobType`: a
      check job needs any grant, a deploy ('run') job a deploy grant. */
  predicate LaunchAllows(jobType: Value, g: Permission) {
    jobType == TypeValue(InventoryCheck) ||
    (jobType == TypeValue(InventoryDeploy) && g.permissionType == InventoryDeploy)
  }

  /** A grant held by `me`, directly or through a team, on exactly this
      inventory and project. */
  predicate GrantOnPair(s: Store, me: nat, p: nat, inv: nat, proj: nat)
    requires p in s.permissions
  {
    s.permissions[p].inventory == inv && s.permissions[p].project == Some(proj) &&
    Reaches(s, me, s.permissions[p].grantee)
  }

  /** `has_launch_permission` after the two loops of lines 618-634. */
  predicate HasLaunchPermission(s: Store, me: nat, inv: nat, proj: nat, jobType: Value) {
    exists p | p in s.permissions :: GrantOnPair(s, me, p, inv, proj) && LaunchAllows(jobType, s.permissions[p])
  }

  /** `has_credential` after lines 641-646 (when the keys' rows are
      stored): the actor is on the credential's team or is its user. */
  predicate OwnsCredential(s: Store, me: nat, c: nat) {
    c in s.credentials &&
    ((s.credentials[c].team.Some? && OnTeam(s, me, s.credentials[c].team.value)) ||
     s.credentials[c].user == Some(me))
  }

  predicate OnProjectTeam(s: Store, me: nat, proj: nat) {
    proj in s.projects && exists t | t in s.projects[proj].teams :: OnTeam(s, me, t)
  }

  /** Lines 597-656, step for step. */
  function JobTemplateCanAdd(s: Store, me: nat, data: Payload): Outcome {
    if IsSuperuser(s, me) then Allow
    else if |data| == 0 || MethodField in data then Allow
    else match RefTo(data, ProjectField, s.projects.Keys)
      case None => LookupError
      case Some(proj) =>
        match RefTo(data, InventoryField, s.inventories.Keys)
        case None => LookupError
        case Some(inv) =>
          if exists o | o in s.projects[proj].organizations :: IsOrgAdmin(s, me, o) then Allow
          else if JobTypeField !in data then LookupError
          else if !HasLaunchPermission(s, me, inv, proj, data[JobTypeField]) then Deny
          else if CredentialField in data && RefTo(data, CredentialField, s.credentials.Keys).None? then LookupError
          else if CredentialField in data && !OwnersStored(s, data[CredentialField].id) then LookupError
          else if CredentialField in data && !OwnsCredential(s, me, data[CredentialField].id) then Deny
          else if OnProjectTeam(s, me, proj) then Deny
          else Allow
  }

  // ======================================================================
  // JobAccess (lines 663-677)
  // ======================================================================

  predicate JobCanChange(s: Store, me: nat, obj: nat) {
    IsSuperuser(s, me) && obj in s.jobs && s.jobs[obj].status == New
  }
}
