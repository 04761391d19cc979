/** ProjectAccess (awx/main/access.py lines 495-534), with the defect in its
    organization loop. */
module ProjectProps {
  import opened Store
  import opened Access

  /** What an evaluation of `can_change` as written produces: `Some(r)` for
      an answer (a return, or the lookup error of a gone creator), `None`
      for the NameError raised at line 529, where the loop body reads
      `project`, a name bound nowhere in the method. The loop runs over the
      organizations the actor administers that contain the project, so it
      raises exactly when there is one. */
  function ProjectCanChangeAsWritten(s: Store, me: nat, obj: nat): (r: Option<Outcome>)
    ensures r.None? <==>
      !IsSuperuser(s, me) && obj in s.projects &&
      (s.projects[obj].createdBy.Some? ==> s.projects[obj].createdBy.value in s.users) &&
      s.projects[obj].createdBy != Some(me) &&
      exists o | o in s.projects[obj].organizations :: IsOrgAdmin(s, me, o)
  {
    if IsSuperuser(s, me) then Some(Allow)
    else if obj !in s.projects then Some(Deny)
    else
      var creator := s.projects[obj].createdBy;
      if creator.Some? && creator.value !in s.users then Some(LookupError)
      else if creator == Some(me) then Some(Allow)
      else if exists o | o in s.projects[obj].organizations :: IsOrgAdmin(s, me, o) then None
      else Some(Deny)
  }

  /** As written, an admin of the project's organization who did not create
      it gets an error instead of an answer. */
  lemma OrgAdminGetsNameError()
    ensures var s := Store(
        users := map[1 := User(false, true)],
        organizations := map[7 := Organization({1}, {})],
        teams := map[], inventories := map[], permissions := map[], hosts := map[], groups := map[],
        credentials := map[],
        projects := map[3 := Project(None, {7}, {})],
        jobTemplates := map[], jobs := map[], jobHostSummaries := {}, jobEvents := {});
      ProjectCanChangeAsWritten(s, 1, 3) == None && ProjectCanChange(s, 1, 3) == Allow
  {
    var s := Store(
        users := map[1 := User(false, true)],
        organizations := map[7 := Organization({1}, {})],
        teams := map[], inventories := map[], permissions := map[], hosts := map[], groups := map[],
        credentials := map[],
        projects := map[3 := Project(None, {7}, {})],
        jobTemplates := map[], jobs := map[], jobHostSummaries := {}, jobEvents := {});
    assert IsOrgAdmin(s, 1, 7) && 7 in s.projects[3].organizations;
  }

  /** Wherever the code as written returns, the corrected rule gives the same
      answer; the two differ only where the code raises. */
  lemma CorrectedAgreesWhereWrittenReturns(s: Store, me: nat, obj: nat)
    ensures ProjectCanChangeAsWritten(s, me, obj).Some? ==>
      ProjectCanChange(s, me, obj) == ProjectCanChangeAsWritten(s, me, obj).value
    ensures ProjectCanChangeAsWritten(s, me, obj).None? ==> ProjectCanChange(s, me, obj) == Allow
  {
  }

  /** The corrected rule: a superuser, the project's creator, and an admin of
      any organization the project belongs to may change, delete and read
      the project, and nobody else may; for anyone but a superuser a creator
      that is no longer stored is a lookup error. */
  lemma ProjectChangeRule(reg: Access.Registry, env: Env, obj: nat, data: Payload)
    requires Registered(reg)
    ensures var s, me := env.store, env.actor;
      Evaluate(reg, env, ProjectAccess, ChangeCall(obj, data)) == Allow <==>
        IsSuperuser(s, me) ||
        (obj in s.projects &&
         (s.projects[obj].createdBy.Some? ==> s.projects[obj].createdBy.value in s.users) &&
         (s.projects[obj].createdBy == Some(me) ||
          exists o | o in s.projects[obj].organizations :: o in s.organizations && me in s.organizations[o].admins))
    ensures var s, me := env.store, env.actor;
      Evaluate(reg, env, ProjectAccess, ChangeCall(obj, data)) == LookupError <==>
        !IsSuperuser(s, me) && obj in s.projects &&
        s.projects[obj].createdBy.Some? && s.projects[obj].createdBy.value !in s.users
    ensures Evaluate(reg, env, ProjectAccess, DeleteCall(obj)) == Evaluate(reg, env, ProjectAccess, ChangeCall(obj, data))
    ensures Evaluate(reg, env, ProjectAccess, ReadCall(obj)) == Evaluate(reg, env, ProjectAccess, ChangeCall(obj, data))
  {
  }

  /** A readable project is visible unless the actor's only claim is having
      created it: the queryset (lines 499-513) knows nothing of creators. */
  lemma ReadableProjectVisible(s: Store, me: nat, obj: nat)
    requires obj in s.projects && ProjectCanRead(s, me, obj) == Allow
    ensures obj in ProjectQueryset(s, me) || s.projects[obj].createdBy == Some(me)
  {
  }

  /** And a member of one of the project's teams sees it listed but, as the
      FIXME of line 519 admits, may not read it. */
  lemma TeamMemberListedNotReadable(s: Store, me: nat, obj: nat, t: nat)
    requires obj in s.projects && t in s.projects[obj].teams && OnTeam(s, me, t)
    requires !IsSuperuser(s, me) && s.projects[obj].createdBy != Some(me)
    requires forall o | o in s.projects[obj].organizations :: !IsOrgAdmin(s, me, o)
    ensures obj in ProjectQueryset(s, me)
    ensures ProjectCanRead(s, me, obj) != Allow
  {
  }
}
