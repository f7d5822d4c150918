/**
 * WorkflowTemplate/WorkflowStepTemplate.cs: the step template a workflow
 * template is built from. The constructor delegates to private setters that
 * nothing else calls, and SetOrder is never called, so it is a value too.
 */
module TemplateSteps {
  import opened Common
  import Templates

  /** Order starts at 0; UserId is a Guid? that the constructor always fills. */
  datatype WorkflowStepTemplate = WorkflowStepTemplate(name: string, order: int, userId: Option<Guid>, roleId: Guid)

  /** Every template the constructor hands out satisfies this. */
  predicate Valid(t: WorkflowStepTemplate) {
    !IsNullOrWhiteSpace(t.name) && t.order == 0 && t.userId.Some? && t.userId.value != NoId && t.roleId != NoId
  }

  /** The private SetName: a null, empty or whitespace name throws. */
  function SetName(name: string): (r: Outcome)
    ensures r.Pass? <==> exists i :: 0 <= i < |name| && !IsWhiteSpace(name[i])
    ensures r.Fail? ==> r.error == BlankString(NameParam)
  {
    RequireNonBlank(name, NameParam)
  }

  /** The private SetUser: Guid.Empty throws. */
  function SetUser(userId: Guid): (r: Outcome)
    ensures r.Pass? <==> userId != NoId
    ensures r.Fail? ==> r.error == EmptyIdentifier(UserIdParam)
  {
    RequireId(userId, UserIdParam)
  }

  /** The private SetRole: Guid.Empty throws. */
  function SetRole(roleId: Guid): (r: Outcome)
    ensures r.Pass? <==> roleId != NoId
    ensures r.Fail? ==> r.error == EmptyIdentifier(RoleIdParam)
  {
    RequireId(roleId, RoleIdParam)
  }

  /**
   * new WorkflowStepTemplate(name, userId, roleId): SetName, SetUser and
   * SetRole in that order, so the first failing setter decides the error.
   */
  function New(name: string, userId: Guid, roleId: Guid): (r: Result<WorkflowStepTemplate>)
    ensures r.Success? <==> !IsNullOrWhiteSpace(name) && userId != NoId && roleId != NoId
    ensures IsNullOrWhiteSpace(name) ==> r == Failure(BlankString(NameParam))
    ensures !IsNullOrWhiteSpace(name) && userId == NoId ==> r == Failure(EmptyIdentifier(UserIdParam))
    ensures !IsNullOrWhiteSpace(name) && userId != NoId && roleId == NoId ==> r == Failure(EmptyIdentifier(RoleIdParam))
    ensures r.Success? ==> Valid(r.value)
    ensures r.Success? ==> r.value.name == name && r.value.userId == Some(userId) && r.value.roleId == roleId
  {
    var check := SetName(name).Then(SetUser(userId)).Then(SetRole(roleId));
    if check.Fail? then Failure(check.error) else Success(WorkflowStepTemplate(name, 0, Some(userId), roleId))
  }

  /** WorkflowStepTemplate.Create is the constructor under another name. */
  function Create(name: string, userId: Guid, roleId: Guid): (r: Result<WorkflowStepTemplate>)
    ensures r.Success? <==> !IsNullOrWhiteSpace(name) && userId != NoId && roleId != NoId
    ensures r.Failure? ==> r.error == New(name, userId, roleId).error
    ensures r.Success? ==> Valid(r.value) && r.value.order == 0
    ensures r.Success? ==> r.value.name == name && r.value.userId == Some(userId) && r.value.roleId == roleId
  {
    New(name, userId, roleId)
  }

  /** The constructor gives back every valid template unchanged from its own fields. */
  lemma NewRoundTrip(t: WorkflowStepTemplate)
    requires Valid(t)
    ensures New(t.name, t.userId.value, t.roleId) == Success(t)
  {
  }

  /**
   * The setter-based constructor and the inline-guard constructor of
   * Templates/WorkflowStepTemplate.cs accept the same arguments, raise the
   * same error on the others and store the same fields.
   */
  lemma {:induction false} AgreesWithTemplates(name: string, userId: Guid, roleId: Guid)
    ensures New(name, userId, roleId).Success? <==> Templates.New(name, userId, roleId).Success?
    ensures New(name, userId, roleId).Failure? ==>
      New(name, userId, roleId).error == Templates.New(name, userId, roleId).error
    ensures New(name, userId, roleId).Success? ==>
      var u, t := New(name, userId, roleId).value, Templates.New(name, userId, roleId).value;
      u.name == t.name && u.order == t.order && u.userId == t.userId && u.roleId == t.roleId
  {
  }
}
