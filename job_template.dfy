/** JobTemplateAccess.can_add (awx/main/access.py lines 597-656) as the
    steps it takes, proved against the rule the evaluators use, and what
    that rule promises. */
module JobTemplate {
  import opened Store
  import opened Access

  /** The grants on this inventory and project held by the actor directly
      (line 619) or through one of the actor's teams (line 627). */
  function UserGrants(s: Store, me: nat, inv: nat, proj: nat): set<nat> {
    set p | p in s.permissions && GrantOnPair(s, me, p, inv, proj) && s.permissions[p].grantee == GrantToUser(me)
  }

  function TeamGrants(s: Store, me: nat, inv: nat, proj: nat): set<nat> {
    set p | p in s.permissions && GrantOnPair(s, me, p, inv, proj) && s.permissions[p].grantee.GrantToTeam?
  }

  /** Lines 616-634: the flag starts false, and each grant in either query
      sets it when the job type is a check, or when it is a deploy and the
      grant is a deploy grant. */
  method ComputeLaunchPermission(s: Store, me: nat, inv: nat, proj: nat, jobType: Value) returns (has: bool)
    ensures has == HasLaunchPermission(s, me, inv, proj, jobType)
  {
    has := false;
    var userGrants := UserGrants(s, me, inv, proj);
    var rest := userGrants;
    while rest != {}
      invariant rest <= userGrants
      invariant has <==> exists p | p in userGrants - rest :: LaunchAllows(jobType, s.permissions[p])
      decreases |rest|
    {
      var p :| p in rest;
      if jobType == TypeValue(InventoryCheck) {
        has := true;
      } else if jobType == TypeValue(InventoryDeploy) && s.permissions[p].permissionType == InventoryDeploy {
        has := true;
      }
      rest := rest - {p};
    }
    var teamGrants := TeamGrants(s, me, inv, proj);
    rest := teamGrants;
    while rest != {}
      invariant rest <= teamGrants
      invariant has <==> exists p | p in userGrants + (teamGrants - rest) :: LaunchAllows(jobType, s.permissions[p])
      decreases |rest|
    {
      var p :| p in rest;
      if jobType == TypeValue(InventoryCheck) {
        has := true;
      } else if jobType == TypeValue(InventoryDeploy) && s.permissions[p].permissionType == InventoryDeploy {
        has := true;
      }
      rest := rest - {p};
    }
    GrantsSplit(s, me, inv, proj);
  }

  /** Every grant on the pair held by the actor is in one of the two queries. */
  lemma GrantsSplit(s: Store, me: nat, inv: nat, proj: nat)
    ensures forall p | p in s.permissions && GrantOnPair(s, me, p, inv, proj) ::
      p in UserGrants(s, me, inv, proj) + TeamGrants(s, me, inv, proj)
  {
  }

  /** Lines 641-646: the flag starts false, and the team test and then the
      user test may set it. Each test follows the credential's owner, which
      raises when that row is gone; `None` stands for that lookup error. */
  method ComputeHasCredential(s: Store, me: nat, c: nat) returns (has: Option<bool>)
    requires c in s.credentials
    ensures has.None? <==> !OwnersStored(s, c)
    ensures has.Some? ==> (has.value <==> OwnsCredential(s, me, c))
  {
    var found := false;
    var credential := s.credentials[c];
    if credential.team.Some? {
      if credential.team.value !in s.teams {
        return None;
      }
      if OnTeam(s, me, credential.team.value) {
        found := true;
      }
    }
    if credential.user.Some? {
      if credential.user.value !in s.users {
        return None;
      }
      if credential.user.value == me {
        found := true;
      }
    }
    return Some(found);
  }

  /** `can_add` step by step: each early return of lines 597-656 in order,
      an absent or dangling key being the lookup error it raises. */
  method CheckCanAdd(s: Store, me: nat, data: Payload) returns (r: Outcome)
    ensures r == JobTemplateCanAdd(s, me, data)
  {
    if IsSuperuser(s, me) {
      return Allow;
    }
    if |data| == 0 || MethodField in data {
      return Allow;
    }
    var project := RefTo(data, ProjectField, s.projects.Keys);
    if project.None? {
      return LookupError;
    }
    var inventory := RefTo(data, InventoryField, s.inventories.Keys);
    if inventory.None? {
      return LookupError;
    }
    var proj, inv := project.value, inventory.value;
    if exists o | o in s.projects[proj].organizations :: IsOrgAdmin(s, me, o) {
      return Allow;
    }
    if JobTypeField !in data {
      return LookupError;
    }
    var hasLaunchPermission := ComputeLaunchPermission(s, me, inv, proj, data[JobTypeField]);
    if !hasLaunchPermission {
      return Deny;
    }
    if CredentialField in data {
      var credential := RefTo(data, CredentialField, s.credentials.Keys);
      if credential.None? {
        return LookupError;
      }
      var hasCredential := ComputeHasCredential(s, me, credential.value);
      if hasCredential.None? {
        return LookupError;
      }
      if !hasCredential.value {
        return Deny;
      }
    }
    if OnProjectTeam(s, me, proj) {
      return Deny;
    }
    return Allow;
  }

  // ---- what the rule promises ----

  /** An allowed add has one of four grounds: a superuser, the browsable-API
      bypass (no payload, or a `_method` key), an admin of an organization of
      the named project, or a launch grant on exactly the named inventory and
      project (plus, when a credential is named, owning it). */
  lemma AllowHasGrounds(s: Store, me: nat, data: Payload)
    requires JobTemplateCanAdd(s, me, data) == Allow
    ensures IsSuperuser(s, me) || |data| == 0 || MethodField in data ||
      (exists proj, inv ::
        RefTo(data, ProjectField, s.projects.Keys) == Some(proj) &&
        RefTo(data, InventoryField, s.inventories.Keys) == Some(inv) &&
        ((exists o | o in s.projects[proj].organizations :: IsOrgAdmin(s, me, o)) ||
         (JobTypeField in data && HasLaunchPermission(s, me, inv, proj, data[JobTypeField]) &&
          (CredentialField in data ==> OwnsCredential(s, me, data[CredentialField].id)) &&
          !OnProjectTeam(s, me, proj))))
  {
    if !IsSuperuser(s, me) && |data| > 0 && MethodField !in data {
      var proj := RefTo(data, ProjectField, s.projects.Keys).value;
      var inv := RefTo(data, InventoryField, s.inventories.Keys).value;
      assert RefTo(data, ProjectField, s.projects.Keys) == Some(proj);
      assert RefTo(data, InventoryField, s.inventories.Keys) == Some(inv);
    }
  }

  /** The case the rule is about: an actor with no superuser, bypass or
      organization-admin standing, naming an existing inventory and project
      and no credential, and on none of the project's teams. */
  predicate PlainLaunch(s: Store, me: nat, data: Payload, inv: nat, proj: nat) {
    !IsSuperuser(s, me) && |data| > 0 && MethodField !in data &&
    RefTo(data, ProjectField, s.projects.Keys) == Some(proj) &&
    RefTo(data, InventoryField, s.inventories.Keys) == Some(inv) &&
    !(exists o | o in s.projects[proj].organizations :: IsOrgAdmin(s, me, o)) &&
    CredentialField !in data && !OnProjectTeam(s, me, proj)
  }

  /** A check job may be created with any grant on the pair, whatever its
      level (lines 621-623 and 629-631: deploy grants also allow check jobs). */
  lemma CheckJobAnyGrant(s: Store, me: nat, data: Payload, inv: nat, proj: nat)
    requires PlainLaunch(s, me, data, inv, proj)
    requires JobTypeField in data && data[JobTypeField] == TypeValue(InventoryCheck)
    ensures JobTemplateCanAdd(s, me, data) == Allow <==>
      exists p | p in s.permissions :: GrantOnPair(s, me, p, inv, proj)
  {
  }

  /** A deploy job needs a deploy grant on the pair (lines 624-626 and 632-634). */
  lemma DeployJobNeedsDeployGrant(s: Store, me: nat, data: Payload, inv: nat, proj: nat)
    requires PlainLaunch(s, me, data, inv, proj)
    requires JobTypeField in data && data[JobTypeField] == TypeValue(InventoryDeploy)
    ensures JobTemplateCanAdd(s, me, data) == Allow <==>
      exists p | p in s.permissions :: GrantOnPair(s, me, p, inv, proj) &&
        s.permissions[p].permissionType == InventoryDeploy
  {
  }

  /** Any other job type is never launchable from grants alone. */
  lemma OtherJobTypeRefused(s: Store, me: nat, data: Payload, inv: nat, proj: nat)
    requires PlainLaunch(s, me, data, inv, proj)
    requires JobTypeField in data
    requires data[JobTypeField] != TypeValue(InventoryCheck) && data[JobTypeField] != TypeValue(InventoryDeploy)
    ensures JobTemplateCanAdd(s, me, data) == Deny
  {
  }

  /** Lines 653-654: a member of one of the project's teams, who is not an
      admin of one of its organizations, is refused whatever grants they
      hold. */
  lemma ProjectTeamMemberRefused(s: Store, me: nat, data: Payload, inv: nat, proj: nat)
    requires !IsSuperuser(s, me) && |data| > 0 && MethodField !in data
    requires RefTo(data, ProjectField, s.projects.Keys) == Some(proj)
    requires RefTo(data, InventoryField, s.inventories.Keys) == Some(inv)
    requires !(exists o | o in s.projects[proj].organizations :: IsOrgAdmin(s, me, o))
    requires OnProjectTeam(s, me, proj)
    ensures JobTemplateCanAdd(s, me, data) != Allow
  {
  }

  /** Lines 640-648: a named credential the actor neither owns nor reaches
      through a team refuses the add; a credential key naming none, or a
      credential whose owner is no longer stored, is a lookup error. */
  lemma CredentialMustBeOwned(s: Store, me: nat, data: Payload, inv: nat, proj: nat)
    requires !IsSuperuser(s, me) && |data| > 0 && MethodField !in data
    requires RefTo(data, ProjectField, s.projects.Keys) == Some(proj)
    requires RefTo(data, InventoryField, s.inventories.Keys) == Some(inv)
    requires !(exists o | o in s.projects[proj].organizations :: IsOrgAdmin(s, me, o))
    requires JobTypeField in data && HasLaunchPermission(s, me, inv, proj, data[JobTypeField])
    requires CredentialField in data
    ensures RefTo(data, CredentialField, s.credentials.Keys).None? ==> JobTemplateCanAdd(s, me, data) == LookupError
    ensures RefTo(data, CredentialField, s.credentials.Keys).Some? && !OwnersStored(s, data[CredentialField].id) ==>
      JobTemplateCanAdd(s, me, data) == LookupError
    ensures RefTo(data, CredentialField, s.credentials.Keys).Some? ==>
      OwnersStored(s, data[CredentialField].id) && !OwnsCredential(s, me, data[CredentialField].id) ==>
      JobTemplateCanAdd(s, me, data) == Deny
  {
  }

  /** Lines 588-595: a template whose inventory and project are stored is
      readable exactly when the actor could add it again with its own
      inventory, project and job type. */
  lemma TemplateReadIsAdd(s: Store, me: nat, j: nat)
    requires j in s.jobTemplates
    ensures var jt := s.jobTemplates[j];
      jt.inventory in s.inventories && jt.project in s.projects ==>
      JobTemplateCanRead(s, me, j) ==
        JobTemplateCanAdd(s, me, map[InventoryField := Ref(jt.inventory), ProjectField := Ref(jt.project),
                                      JobTypeField := TypeValue(jt.jobType)])
  {
  }

  /** Reading a template whose project or inventory is gone is a lookup
      error for everyone, superusers included: lines 590-592 follow both
      references before `can_add` tests for a superuser. */
  lemma DanglingTemplateUnreadable(s: Store, me: nat, j: nat)
    requires j in s.jobTemplates
    requires s.jobTemplates[j].project !in s.projects || s.jobTemplates[j].inventory !in s.inventories
    ensures JobTemplateCanRead(s, me, j) == LookupError
  {
    var jt := s.jobTemplates[j];
    var data := map[InventoryField := Ref(jt.inventory), ProjectField := Ref(jt.project),
                    JobTypeField := TypeValue(jt.jobType)];
    assert InventoryField in data;
    assert |data| > 0;
  }

  /** A template a plain user sees listed may still be unreadable: the
      queryset (lines 571-586) lets every member of the project's teams see
      it, and such a member is refused at lines 653-654. */
  lemma TeamMemberSeesButCannotRead(s: Store, me: nat, j: nat)
    requires j in s.jobTemplates && s.jobTemplates[j].active && !IsSuperuser(s, me)
    requires s.jobTemplates[j].inventory in s.inventories
    requires OnProjectTeam(s, me, s.jobTemplates[j].project)
    requires !(exists o | o in s.projects[s.jobTemplates[j].project].organizations :: IsOrgAdmin(s, me, o))
    ensures j in JobTemplateQueryset(s, me)
    ensures JobTemplateCanRead(s, me, j) != Allow
  {
    var jt := s.jobTemplates[j];
    var data := map[InventoryField := Ref(jt.inventory), ProjectField := Ref(jt.project),
                    JobTypeField := TypeValue(jt.jobType)];
    assert InventoryField in data;
    assert |data| > 0;
    ProjectTeamMemberRefused(s, me, data, jt.inventory, jt.project);
  }
}
