/**
 * Templates/WorkflowStepTemplate.cs: a step template whose constructor runs
 * its guard clauses inline and then stores the fields. Nothing changes it
 * afterwards, so it is a value.
 */
module Templates {
  import opened Common

  /** Order is initialised to 0 and has no setter; UserId is a Guid? that the constructor always fills. */
  datatype WorkflowStepTemplate = WorkflowStepTemplate(name: string, order: int, userId: Option<Guid>, roleId: Guid)

  /** Every template the constructor hands out satisfies this. */
  predicate Valid(t: WorkflowStepTemplate) {
    !IsNullOrWhiteSpace(t.name) && t.order == 0 && t.userId.Some? && t.userId.value != NoId && t.roleId != NoId
  }

  /**
   * new WorkflowStepTemplate(name, userId, roleId): a blank name is refused
   * first, then an empty userId, then an empty roleId.
   */
  function New(name: string, userId: Guid, roleId: Guid): (r: Result<WorkflowStepTemplate>)
    ensures r.Success? <==> !IsNullOrWhiteSpace(name) && userId != NoId && roleId != NoId
    ensures IsNullOrWhiteSpace(name) ==> r == Failure(BlankString(NameParam))
    ensures !IsNullOrWhiteSpace(name) && userId == NoId ==> r == Failure(EmptyIdentifier(UserIdParam))
    ensures !IsNullOrWhiteSpace(name) && userId != NoId && roleId == NoId ==> r == Failure(EmptyIdentifier(RoleIdParam))
    ensures r.Success? ==> Valid(r.value)
    ensures r.Success? ==> r.value.name == name && r.value.userId == Some(userId) && r.value.roleId == roleId
  {
    if IsNullOrWhiteSpace(name) then Failure(BlankString(NameParam))
    else if userId == NoId then Failure(EmptyIdentifier(UserIdParam))
    else if roleId == NoId then Failure(EmptyIdentifier(RoleIdParam))
    else Success(WorkflowStepTemplate(name, 0, Some(userId), roleId))
  }

  /** WorkflowStepTemplate.Create is the constructor under another name. */
  function Create(name: string, userId: Guid, roleId: Guid): (r: Result<WorkflowStepTemplate>)
    ensures r.Success? <==> !IsNullOrWhiteSpace(name) && userId != NoId && roleId != NoId
    ensures r.Failure? ==> r.error == New(name, userId, roleId).error
    ensures r.Success? ==> Valid(r.value) && r.value.order == 0
    ensures r.Success? ==> r.value.name == name && r.value.userId == Some(userId) && r.value.roleId == roleId
  {
    New(name, userId, roleId)
  }

  /** The constructor gives back every valid template unchanged from its own fields. */
  lemma NewRoundTrip(t: WorkflowStepTemplate)
    requires Valid(t)
    ensures New(t.name, t.userId.value, t.roleId) == Success(t)
  {
  }

  /** Whitespace-only names are refused before the identifiers are looked at. */
  lemma NameCheckedFirst(name: string)
    requires IsNullOrWhiteSpace(name)
    ensures New(name, NoId, NoId) == Failure(BlankString(NameParam))
    ensures New(" \t", 1, 1) == Failure(BlankString(NameParam))
  {
    assert IsWhiteSpace(" \t"[0]) && IsWhiteSpace(" \t"[1]);
  }
}
