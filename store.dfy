/** The relation store the access rules read: every entity the evaluators
    consult, as finite maps from primary key to record, plus the request
    payloads and the licence information handed to them. Nothing here changes;
    the store is a value. */
module Store {

  datatype Option<+T> = None | Some(value: T)

  /** The five inventory permission types (PERM_INVENTORY_ADMIN, _READ,
      _WRITE, _DEPLOY whose stored value is 'run', and _CHECK). */
  datatype PermissionType =
    | InventoryAdmin
    | InventoryRead
    | InventoryWrite
    | InventoryDeploy
    | InventoryCheck

  datatype User = User(isSuperuser: bool, isActive: bool)

  /** `admins` and `users` are two separate many-to-many relations. */
  datatype Organization = Organization(admins: set<nat>, members: set<nat>)

  datatype Team = Team(organization: nat, members: set<nat>, active: bool)

  datatype Inventory = Inventory(organization: nat, active: bool)

  /** A permission grant names exactly one of a user or a team. */
  datatype Grantee = GrantToUser(user: nat) | GrantToTeam(team: nat)

  datatype Permission = Permission(
    grantee: Grantee,
    inventory: nat,
    project: Option<nat>,
    permissionType: PermissionType)

  datatype Host = Host(inventory: nat, active: bool)

  /** `ancestors` and `descendants` are the stored transitive closures
      (`all_parents`, `all_children`) of the parent/child relation. */
  datatype Group = Group(
    inventory: nat,
    active: bool,
    ancestors: set<nat>,
    descendants: set<nat>)

  /** A credential's `user` and `team` foreign keys are independent: a
      credential may name a user, a team, both or neither. */
  datatype Credential = Credential(user: Option<nat>, team: Option<nat>, active: bool)

  datatype Project = Project(
    createdBy: Option<nat>,
    organizations: set<nat>,
    teams: set<nat>)

  datatype JobTemplate = JobTemplate(
    inventory: nat,
    project: nat,
    jobType: PermissionType,
    active: bool)

  datatype JobStatus = New | Pending | Running | Successful | Failed | Error | Canceled

  datatype Job = Job(status: JobStatus)

  datatype Store = Store(
    users: map<nat, User>,
    organizations: map<nat, Organization>,
    teams: map<nat, Team>,
    inventories: map<nat, Inventory>,
    permissions: map<nat, Permission>,
    hosts: map<nat, Host>,
    groups: map<nat, Group>,
    credentials: map<nat, Credential>,
    projects: map<nat, Project>,
    jobTemplates: map<nat, JobTemplate>,
    jobs: map<nat, Job>,
    jobHostSummaries: set<nat>,
    jobEvents: set<nat>)

  /** What the licence file reports; a key missing from the file reads as 0. */
  datatype Licence = Licence(freeInstances: int, availableInstances: int)

  /** Keys of a request payload that the evaluators look at. */
  datatype Field =
    | OrganizationField
    | InventoryField
    | ProjectField
    | JobTypeField
    | CredentialField
    | UserField
    | TeamField
    | MethodField
    | OtherField(name: string)

  /** A payload value: a primary key, a job type, or any other text. */
  datatype Value = Ref(id: nat) | TypeValue(permissionType: PermissionType) | Text(text: string)

  /** A request payload; an absent payload (None) is the empty map, since
      every test the evaluators make treats the two alike. */
  type Payload = map<Field, Value>

  // ---- relation traversal ----

  predicate IsSuperuser(s: Store, u: nat) {
    u in s.users && s.users[u].isSuperuser
  }

  predicate IsOrgAdmin(s: Store, u: nat, o: nat) {
    o in s.organizations && u in s.organizations[o].admins
  }

  predicate IsOrgMember(s: Store, u: nat, o: nat) {
    o in s.organizations && u in s.organizations[o].members
  }

  /** `user.admin_of_organizations` is not empty. */
  predicate AdminsSomeOrg(s: Store, u: nat) {
    exists o | o in s.organizations :: u in s.organizations[o].admins
  }

  /** `target.organizations.filter(admins__in=[me])` is not empty: `me`
      administers an organization of which `target` is a member. */
  predicate AdminsMemberOrgOf(s: Store, me: nat, target: nat) {
    exists o | o in s.organizations ::
      me in s.organizations[o].admins && target in s.organizations[o].members
  }

  predicate OnTeam(s: Store, u: nat, t: nat) {
    t in s.teams && u in s.teams[t].members
  }

  /** `u` is on at least one team. */
  predicate OnSomeTeam(s: Store, u: nat) {
    exists t | t in s.teams :: u in s.teams[t].members
  }

  /** `u` administers the organization that team `t` belongs to. */
  predicate AdminsTeamOrg(s: Store, u: nat, t: nat) {
    t in s.teams && IsOrgAdmin(s, u, s.teams[t].organization)
  }

  /** The grant is held by `u`, directly or through one of `u`'s teams. */
  predicate Reaches(s: Store, u: nat, g: Grantee) {
    match g
    case GrantToUser(v) => v == u
    case GrantToTeam(t) => OnTeam(s, u, t)
  }

  /** The active superusers (`User.objects.filter(is_active=True, is_superuser=True)`). */
  function ActiveSuperusers(s: Store): set<nat> {
    set u | u in s.users && s.users[u].isActive && s.users[u].isSuperuser
  }

  function AncestorsOf(s: Store, g: nat): set<nat> {
    if g in s.groups then s.groups[g].ancestors else {}
  }

  function DescendantsOf(s: Store, g: nat): set<nat> {
    if g in s.groups then s.groups[g].descendants else {}
  }

  /** `get_object_or_400(table, pk=data.get(f, None))`: the key the payload
      names under `f`, when it names one present in `table`. */
  function RefTo(data: Payload, f: Field, table: set<nat>): Option<nat> {
    if f in data && data[f].Ref? && data[f].id in table then Some(data[f].id) else None
  }
}
