# AWX access rules in Dafny

A model of the authorization engine of AWX (`awx/main/access.py`): the
registry that maps each model class to its access evaluators, the dispatcher
`check_user_access` (the first evaluator that has a `can_<action>` method and
returns a truthy answer decides, so the evaluators combine as a short-circuit
OR), the visibility resolver `get_user_queryset` (the evaluators' querysets
combine as an intersection), and every evaluator class: `BaseAccess` with its
defaults, and the user, organization, inventory, host, group, credential,
team, project, permission, job template, job, job host summary and job event
evaluators.

Layout:

- `store.dfy` (module `Store`): the relation store the rules read, as an
  immutable value of finite maps (users, organizations with their admins and
  members, teams, inventories, permission grants, hosts, groups with their
  stored ancestor and descendant closures, credentials, projects, job
  templates, jobs), request payloads, and the licence record.
- `access.dfy` (module `Access`): the evaluators, dispatch and visibility as
  one mutually recursive group of functions. Evaluators call back into
  dispatch and visibility (`self.user.can_access`, `self.user.get_queryset`).
  The group terminates because each call back goes to a model of lower rank.
  An answer is `Allow`, `Deny` (a falsy return) or one of three exceptions:
  `QuotaExceeded(n)` (line 338), `HostMoveError` (line 343), and
  `LookupError` (a payload key that is missing or names no object, or a
  stored reference to a row that is gone).
  The exceptions leave the dispatcher at once.
- `registry.dfy` (module `Registry`): the `access_registry` dictionary as the
  class `AccessRegistry`. Its method `Register` is a single update of the
  dictionary. Its methods `GetUserQueryset` and `CheckUserAccess` are loops
  proved equal to the functional dispatch and visibility. The constructor `Standard` performs the registrations of
  lines 693-705.
- `dispatch_props.dfy`, `base_props.dfy` and one `*_props.dfy` file per
  evaluator: the properties. `job_template.dfy` holds the step-by-step
  `can_add` of the job template evaluator, including its two grant loops,
  proved against the rule.

Facts about the code that the model keeps as written:

- A superuser does not pass every check. They cannot delete themselves
  (lines 192-194). They may change a job only while it is new (line 671).
  Inactive inventories are hidden from them too (line 251).
- A job template is refused to a user who is on one of the project's teams
  (lines 653-654). The comment at lines 650-652 says that team membership
  is meant to be required.
- Grant levels `run` (deploy) and `check` are in none of the three inventory
  lists of lines 30-43. They give no read, write or admin access.
- Credential, project and job template listing is wider than reading. A
  member of a credential's team sees it listed (lines 416-417) but may not
  read it (lines 419-420). A member of a project's team sees the project
  and its job templates listed but may not read them. Team listing is
  narrower instead: an inactive team is listed for nobody (line 460), yet
  its members may read it (lines 477-482).
- A credential's `user` and `team` keys are tested independently
  (lines 435-442): it may name both, and either test may allow.
- Only a superuser may delete a host or a group. Neither class defines
  `can_delete`, so the `BaseAccess` default applies. The class docstrings
  (lines 300-303 and 349-352) say that whoever may change the inventory may
  delete its hosts and groups.
- A stored reference to a row that is gone raises when the code follows it.
  The model answers `LookupError` at each such line: a host's or group's
  inventory (lines 314, 342, 346, 362, 374), a credential's user or
  team (lines 435-446, 643-645), a team's organization (line 488), a
  project's creator (line 525), a grant's holder (lines 546-560), and a job
  template's project and inventory (lines 591-592, before the superuser test
  of line 606).

## Model

| member | source | states |
|---|---|---|
| Registry.AccessRegistry.Register | awx/main/access.py:52-54 | appends the evaluator to its model's list, creating the list when absent; every other model's list is unchanged; keeps every evaluator registered under its own model |
| Registry.AccessRegistry.Standard | awx/main/access.py:693-705 | after the thirteen registrations each model's list is exactly its own evaluator |
| Registry.AccessRegistry.GetUserQueryset | awx/main/access.py:56-73 | the queryset-gathering loop and the narrowing loop compute the visible set |
| Registry.AccessRegistry.CheckUserAccess | awx/main/access.py:75-90 | the loop with its early return computes the dispatch answer |
| DispatchProps.FirstDecisionAmong | awx/main/access.py:80-90 | over any evaluator list: a denial exactly when every evaluator lacks the method or denies; otherwise the answer of the first evaluator that has the method and does not deny |
| DispatchProps.DispatchIsFirstDecision | awx/main/access.py:75-90 | the same for the registered list of a model, in registration order |
| DispatchProps.UnregisteredDenies | awx/main/access.py:80-90 | a model with no evaluators grants nothing |
| DispatchProps.UnknownActionDenied | awx/main/access.py:82-84 | an action whose name is none of the `can_<action>` method names degrades to a denial, never an error |
| DispatchProps.NarrowIsIntersection | awx/main/access.py:69-72 | the narrowing loop keeps exactly the objects in the start set and in every queryset |
| DispatchProps.VisibleSetCases | awx/main/access.py:56-73 | nothing for an unregistered model; the single queryset unchanged; otherwise exactly the objects of the model in every evaluator's queryset |
| DispatchProps.QuerysetWithinModel | awx/main/access.py:92-100 | every evaluator's queryset holds objects of its own model only |
| DispatchProps.VisibleOnlyThroughEveryLens | awx/main/access.py:56-73 | a visible object exists, its model is registered, and every registered evaluator lists it |
| DispatchProps.StandardRegistryDelegates | awx/main/access.py:693-705 | with the standard registrations, dispatch is the one evaluator's answer (or a denial when it lacks the method) and visibility is its queryset |
| DispatchProps.StandardIsRegistered | awx/main/access.py:693-705 | the standard registrations put each evaluator under its own model |
| BaseProps.WriteAndUnattachAreChange | awx/main/access.py:120-141 | `can_write` is `can_change` with the same payload; `can_unattach` is `can_change` with none; for every evaluator |
| BaseProps.AdminIsChangeByDefault | awx/main/access.py:124-127 | every evaluator but the user and inventory ones answers admin as change |
| BaseProps.DeleteIsChangeWhereOverridden | awx/main/access.py:228-229 | organization, team, project and permission deletes are change checks with no payload (also lines 492-493, 533-534, 564-565) |
| BaseProps.SuperuserOnlyDefaults | awx/main/access.py:111-130 | the inherited delete, add and change defaults allow superusers and nobody else |
| BaseProps.BaseAttachRule | awx/main/access.py:132-138 | outside groups, attach allows iff change on the object allows and, unless skipped, reading the sub-object through its own model allows; a non-allowing change answer is passed on |
| BaseProps.StartAndCancelRefused | awx/main/access.py:673-677 | start and cancel are refused for every model |
| UserProps.UserDeleteRule | awx/main/access.py:191-200 | delete allows iff the target is not the actor, the last-superuser guard does not fire, and the actor is a superuser or an admin of one of the target's organizations |
| UserProps.NoSelfDelete | awx/main/access.py:192-194 | nobody deletes themselves, superusers included |
| UserProps.LastSuperuserKept | awx/main/access.py:195-198 | the only active superuser cannot be deleted |
| UserProps.InactiveSuperuserGuarded | awx/main/access.py:195-198 | the guard also refuses deleting an inactive superuser while one active superuser remains |
| UserProps.TeamMemberReadsEveryUser | awx/main/access.py:168-171 | an actor on any team may read every user |
| UserProps.UserLevelsNest | awx/main/access.py:168-189 | admin implies change, change implies read, and everyone may change their own record |
| UserProps.UserChangeRule | awx/main/access.py:173-189 | change is self, superuser or admin of the target's organization; admin drops self; add needs a superuser or an admin of any organization |
| UserProps.ChangeableUserVisible | awx/main/access.py:158-166 | an active user the actor may change is listed |
| UserProps.VisibleUserGrounds | awx/main/access.py:158-166 | a listed user other than the actor is active and shares a team with the actor or is administered by them |
| OrgTeamProps.OrganizationVisibleIffReadable | awx/main/access.py:214-222 | an organization is listed iff it is readable iff the actor is a superuser, admin or member |
| OrgTeamProps.OrganizationChangeRule | awx/main/access.py:220-229 | change and delete need a superuser or an admin; change implies read |
| OrgTeamProps.TeamVisibleIffReadable | awx/main/access.py:455-488 | an active team is readable iff the actor is a superuser, or its organization is stored and the actor administers it or is a member; with the organization stored, listed iff readable; with it gone, a lookup error for a non-superuser |
| OrgTeamProps.InactiveTeamHidden | awx/main/access.py:455-466 | an inactive team is listed for nobody |
| OrgTeamProps.InactiveTeamReadable | awx/main/access.py:455-482 | a member of an inactive team whose organization is stored may read it, though it is not listed |
| OrgTeamProps.TeamChangeRule | awx/main/access.py:468-493 | add needs a superuser or an admin of any organization; change and delete a superuser or an admin of the team's organization; a lookup error exactly when a non-superuser changes a team whose organization is gone |
| InventoryProps.InventoryLevels | awx/main/access.py:249-266 | for a non-superuser outside the inventory's organization admins: read iff an admin, write or read grant reaches them; write iff admin or write; admin iff admin |
| InventoryProps.InventoryActionsByLevel | awx/main/access.py:265-298 | read and delete, and change, write and admin with any payload that names no organization, are the three level tests |
| InventoryProps.LevelsNest | awx/main/access.py:30-43 | admin-level visibility implies write-level implies read-level |
| InventoryProps.AdminGrantPassesAll | awx/main/access.py:285-298 | an admin grant on an active inventory allows read, change, admin and delete |
| InventoryProps.ReadGrantOnlyReads | awx/main/access.py:268-298 | holding only read grants allows read and refuses change, admin and delete |
| InventoryProps.DeployAndCheckGrantsGiveNothing | awx/main/access.py:30-43 | grants at deploy or check level give neither read, write nor admin |
| InventoryProps.InactiveInventoryHidden | awx/main/access.py:249-263 | an inactive inventory is in no queryset, a superuser's included |
| InventoryProps.InventoryAddRule | awx/main/access.py:271-283 | no payload: superuser or any organization admin; payload: superuser, else the named organization must exist and the actor administer it |
| InventoryProps.OrganizationMoveRechecked | awx/main/access.py:285-295 | a change or admin payload naming an organization the actor does not administer is refused whatever the grants |
| InventoryProps.OrganizationMovePassesRecheck | awx/main/access.py:285-298 | a change or admin payload naming an organization the actor administers, or any by a superuser, leaves change and admin equal to the write and admin level tests |
| HostProps.HostVisibility | awx/main/access.py:308-311 | a host is listed iff it is active and its inventory is listed |
| HostProps.HostFollowsInventory | awx/main/access.py:313-346 | a missing host is refused; one whose inventory is gone is a lookup error; otherwise reading it is reading its inventory and changing it with no payload is changing its inventory |
| HostProps.HostAddLicenceGate | awx/main/access.py:316-338 | no inventory key refuses; a dangling one is a lookup error; without inventory change access refuses; with it, free instances allow and otherwise the quota error carries the available count |
| HostProps.NoHostWithoutFreeInstances | awx/main/access.py:334-338 | with no free instances no host is added |
| HostProps.HostMoveRefused | awx/main/access.py:340-343 | a non-empty payload that does not name the host's inventory raises the host-move error, for change and write; a lookup error instead when that inventory is gone |
| HostProps.HostStayingPut | awx/main/access.py:340-346 | a payload naming the host's own inventory is judged as a change to that inventory, or is a lookup error when it is gone |
| GroupProps.GroupVisibility | awx/main/access.py:356-359 | a group is listed iff it is active and its inventory is listed |
| GroupProps.GroupFollowsInventory | awx/main/access.py:361-374 | a missing group is refused and one whose inventory is gone is a lookup error; otherwise read and change follow the inventory; add refuses without an inventory key, is a lookup error on a dangling one, and otherwise is change on the named inventory |
| GroupProps.CycleCheck | awx/main/access.py:384-388 | the two pk sets overlap iff the parent or an ancestor is the child or a descendant |
| GroupProps.CheckGroupAttach | awx/main/access.py:376-391 | the attach steps compute the rule; an allowed group attach closes no cycle |
| GroupProps.GroupAttachRule | awx/main/access.py:376-391 | attach allows iff the base rule allows and a group sub-object closes no cycle; a non-allowing base answer is passed on |
| GroupProps.SelfAttachRefused | awx/main/access.py:383-389 | a group is never attached under itself |
| GroupProps.ReverseAttachRefused | awx/main/access.py:383-389 | a group is never attached under one of its descendants |
| GroupProps.AttachKeepsHierarchyAcyclic | awx/main/access.py:383-389 | adding an edge the check lets through keeps an acyclic hierarchy acyclic |
| GroupProps.RefusedAttachWouldCycle | awx/main/access.py:383-389 | every edge the check refuses would make some group its own ancestor |
| GroupProps.WithEdgeKeepsAgreement | awx/main/access.py:383-389 | adding an edge keeps the groups, keeps the ancestor and descendant closures mirror images of each other, and makes the parent an ancestor of the child |
| GroupProps.WithEdgeKeepsTransitive | awx/main/access.py:383-389 | adding an edge to stored, agreeing, transitive closures leaves the ancestor closure transitive |
| CredentialProps.CredentialChangeRule | awx/main/access.py:432-443 | for a non-superuser: allowed iff the credential's user is stored and is the actor or a member of an organization the actor administers, or, independently, its user is not gone and its team is stored with an organization the actor administers; nobody for a credential with neither key; a lookup error iff the user is gone, or the user tests fail and the team or its organization is gone; read equals change |
| CredentialProps.TeamTestAfterFailedUserTests | awx/main/access.py:432-449 | a credential with both a stored user and a team whose organization the actor administers may be changed and deleted, whatever the user tests say |
| CredentialProps.UnownedCredentialDeletable | awx/main/access.py:445-449 | anyone deletes a credential with neither a user nor a team, which only a superuser may read |
| CredentialProps.OwnedCredentialDeleteIsChange | awx/main/access.py:445-449 | for a credential with a user or a team: a lookup error when the user is gone, or when there is no user and the team is gone; otherwise delete equals change |
| CredentialProps.ReadableCredentialVisible | awx/main/access.py:406-420 | an active readable credential is listed |
| CredentialProps.ListedButNotReadable | awx/main/access.py:406-420 | a member of the credential's team, or an admin of an organization its user administers, sees it listed, and may not read it when neither the user tests nor the team test allows |
| CredentialProps.CredentialAddRule | awx/main/access.py:422-430 | a user key needs change access to that user, else a team key change access to that team, a dangling key is a lookup error, neither key refuses |
| CredentialProps.OwnCredentialAddable | awx/main/access.py:422-427 | any existing user may add a credential for themselves |
| ProjectProps.ProjectCanChangeAsWritten | awx/main/access.py:522-531 | the code as written raises `NameError` exactly when a non-superuser who did not create the project, whose creator is stored, administers one of its organizations |
| ProjectProps.OrgAdminGetsNameError | awx/main/access.py:527-530 | a concrete store where the code raises and the intended rule allows |
| ProjectProps.CorrectedAgreesWhereWrittenReturns | awx/main/access.py:522-531 | where the code returns, the corrected rule gives the same answer; where it raises, the corrected rule allows |
| ProjectProps.ProjectChangeRule | awx/main/access.py:515-534 | change, delete and read allow iff a superuser, or, with the creator stored, the creator or an admin of one of the project's organizations; a lookup error iff a non-superuser meets a project whose creator is gone |
| ProjectProps.ReadableProjectVisible | awx/main/access.py:499-520 | a readable project is listed unless the actor's only claim is having created it |
| ProjectProps.TeamMemberListedNotReadable | awx/main/access.py:499-520 | a project team member with no other claim sees the project listed but may not read it |
| PermissionProps.PermissionChangeRule | awx/main/access.py:552-565 | for a non-superuser: allowed iff the grantee user is stored and a member of an organization the actor administers, or the grantee team is stored and the actor administers its organization; a lookup error iff the grantee or the team's organization is gone; delete equals change |
| PermissionProps.PermissionReadRule | awx/main/access.py:543-550 | read allows iff the grantee is stored and either the grant reaches the actor or the actor may change it; a gone grantee is a lookup error for everyone |
| PermissionProps.HolderReadsOwnGrant | awx/main/access.py:543-562 | a grant's holder may read it but, without admin standing, not change it |
| PermissionProps.EveryGrantListed | awx/main/access.py:540-541 | every grant is listed for everyone |
| JobTemplate.ComputeLaunchPermission | awx/main/access.py:618-634 | the two grant loops set the flag iff some grant on the pair reaching the actor allows the job type |
| JobTemplate.ComputeHasCredential | awx/main/access.py:640-646 | no answer iff the credential's user or team is gone; otherwise the flag is set iff the actor is its user or on its team |
| JobTemplate.CheckCanAdd | awx/main/access.py:597-656 | the early returns of `can_add`, in order, compute the rule |
| JobTemplate.AllowHasGrounds | awx/main/access.py:597-656 | an allowed add has a ground: superuser, the browsable-API bypass, organization admin of the project, or a launch grant with an owned credential and no project-team membership |
| JobTemplate.CheckJobAnyGrant | awx/main/access.py:618-634 | a check job is allowed iff some grant on the inventory and project reaches the actor |
| JobTemplate.DeployJobNeedsDeployGrant | awx/main/access.py:618-634 | a deploy job is allowed iff some deploy grant on the pair reaches the actor |
| JobTemplate.OtherJobTypeRefused | awx/main/access.py:618-637 | any other job type is refused |
| JobTemplate.ProjectTeamMemberRefused | awx/main/access.py:653-654 | a member of one of the project's teams without organization-admin standing is never allowed |
| JobTemplate.CredentialMustBeOwned | awx/main/access.py:640-648 | a dangling credential key, or a credential whose user or team is gone, is a lookup error; a credential the actor is neither the user of nor on the team of refuses |
| JobTemplate.TemplateReadIsAdd | awx/main/access.py:588-595 | a template whose inventory and project are stored is readable iff the actor could add it with its own inventory, project and job type |
| JobTemplate.DanglingTemplateUnreadable | awx/main/access.py:588-612 | reading a template whose project or inventory is gone is a lookup error for everyone, superusers included |
| JobTemplate.TeamMemberSeesButCannotRead | awx/main/access.py:571-595 | a project team member sees an active template listed but may not read it |
| JobProps.JobChangeRule | awx/main/access.py:670-671 | change allows iff a superuser and the job is new |
| JobProps.JobRecordsAllListed | awx/main/access.py:667-691 | every job, job host summary and job event is listed for everyone |
| JobProps.JobRecordsReadBySuperuser | awx/main/access.py:111-112 | jobs, job host summaries and job events are readable by superusers only |

## Left out

- The Django ORM. Querysets are finite sets of primary keys. Objects are
  records in maps. `Q` filters, `.distinct()` and `.count()` become set
  comprehensions and membership tests.
- The debug logging of lines 86-87. It only has a side effect.
- `LicenseReader().from_file()` (lines 326-327) and the `'test' in sys.argv`
  override (lines 329-332). The licence record is an input of each call. A
  key missing from the licence file reads as 0 there.
- The `relationship` argument of attach and unattach. No evaluator reads it.
- An absent payload (`None`) and an empty payload are both the empty map.
  One difference is lost: `CredentialAccess.can_add` with `None` raises a
  `TypeError` (`'user' in None`), while the model refuses.
- Objects passed to the evaluators are primary keys, where the code has a
  real object in hand. For a key naming no stored object, every test that
  needs a relation of the object fails, so those paths refuse. Tests that
  need no stored object still pass. So a team member reads every user id
  (`TeamMemberReadsEveryUser`), and anyone may change the user id equal to
  their own. A superuser may change or delete a missing id of the
  organization, team, credential, project and permission models, and the
  `BaseAccess` defaults allow it too.
- `KeyError` on a payload key and `DoesNotExist` or a 400 from a lookup are
  one outcome, `LookupError`.
- Evaluator construction (`access_class(user)`) is left out. Each evaluator
  is a tag, and the actor is part of the environment.
- Dispatch and visibility require every evaluator to be registered under its
  own model. The registrations of lines 693-705 meet this. Without it, the
  call backs of the code need not terminate.
- `PermissionAccess.can_change`, team branch (line 560): the query
  `organization.admins.filter(user=...)` is read as "the actor administers
  the team's organization". This is an assumption about an unclear ORM
  expression.
- `ProjectAccess.can_change` is modelled as intended: superuser, creator, or
  admin of one of the project's organizations. The code as written raises
  instead (see Findings).
- The FIXME placeholders are modelled as written: `can_start` and
  `can_cancel` refuse, and the permission, job, job host summary and job
  event querysets return every object.
- `BaseAccess.get_queryset` (lines 105-109) is inherited by no registered
  evaluator, so it is not a separate member.
- Job template and job records carry only the fields the rules read.
  `job_type` is one of the five grant levels, so a template's own job type
  is compared against them as the code does.

## Findings

| source | as written | input that shows it | evidently intended | confidence | as-written member | corrected member |
|---|---|---|---|---|---|---|
| awx/main/access.py:527-530 | the loop body tests `org in project.organizations()`, and `project` is bound nowhere in `can_change`, so the first iteration raises `NameError` | a non-superuser who did not create the project and administers organization 7, which the project belongs to (`OrgAdminGetsNameError`) | an admin of one of the project's organizations may change it (the `get_queryset` comment at lines 500-503 and the queryset of lines 499-513) | high, not executed | ProjectProps.ProjectCanChangeAsWritten | ProjectProps.ProjectChangeRule |
