/**
 * WorkflowTemplate/WorkflowTemplate.cs: a named list of step templates that
 * stamps out a fresh Pending workflow, and wraps it in a new request, for
 * each candidate.
 */
module WorkflowTemplates {
  import opened Common
  import opened Users
  import opened Documents
  import opened Events
  import opened Steps
  import opened Workflows
  import opened Requests
  import TemplateSteps

  /** The comment every generated step carries. */
  const AddStepComment: string := "Add step"

  /** The constructor's guards, in the order it runs them: id, the null steps check, then SetName. */
  function WorkflowTemplateCheck(id: Guid, name: string, stepsPresent: bool): (r: Outcome)
    ensures r.Pass? <==> id != NoId && stepsPresent && |name| > 0
    ensures id == NoId ==> r == Fail(EmptyIdentifier(IdParam))
    ensures id != NoId && !stepsPresent ==> r == Fail(NullArgument(StepsParam))
    ensures id != NoId && stepsPresent && name == "" ==> r == Fail(BlankString(NameParam))
  {
    RequireId(id, IdParam)
      .Then(RequirePresent(stepsPresent, StepsParam))
      .Then(RequireNonEmpty(name, NameParam))
  }

  /**
   * The step CreateRequest makes from one template step: Pending, with the
   * template's name and the fixed comment. A template with a UserId gives a
   * step owned by the requesting user (the template's own UserId is not
   * used); one without gives a step owned by the template's role.
   */
  function GeneratedStep(t: TemplateSteps.WorkflowStepTemplate, stepId: Guid, requesterId: Guid): (v: StepView)
    ensures v.id == stepId && v.name == t.name && v.order == 1 && v.status == Pending && v.comment == AddStepComment
    ensures t.userId.Some? ==> v.userId == requesterId && v.roleId == NoId
    ensures t.userId.None? ==> v.userId == NoId && v.roleId == t.roleId
  {
    if t.userId.Some? then StepView(stepId, t.name, 1, Pending, requesterId, NoId, AddStepComment)
    else StepView(stepId, t.name, 1, Pending, NoId, t.roleId, AddStepComment)
  }

  /**
   * A constructed step template always has a UserId, so every step generated
   * from one belongs to the requesting user and to no role.
   */
  lemma {:induction false} ValidTemplateGivesRequesterStep(t: TemplateSteps.WorkflowStepTemplate, stepId: Guid, requesterId: Guid)
    requires TemplateSteps.Valid(t)
    ensures GeneratedStep(t, stepId, requesterId).userId == requesterId
    ensures GeneratedStep(t, stepId, requesterId).roleId == NoId
  {
  }

  /**
   * A step template can only come from its constructor, so every one a
   * template holds has a non-blank name and a UserId.
   */
  predicate AllTemplatesValid(steps: seq<TemplateSteps.WorkflowStepTemplate>) {
    forall i :: 0 <= i < |steps| ==> TemplateSteps.Valid(steps[i])
  }

  class WorkflowTemplate {
    const id: Guid
    var name: string
    const steps: seq<TemplateSteps.WorkflowStepTemplate>

    ghost predicate Valid()
      reads this
    {
      WorkflowTemplateCheck(id, name, true).Pass? && AllTemplatesValid(steps)
    }

    /** Allocation once New's guards have passed. */
    constructor (id: Guid, name: string, steps: seq<TemplateSteps.WorkflowStepTemplate>)
      requires WorkflowTemplateCheck(id, name, true).Pass? && AllTemplatesValid(steps)
      ensures Valid()
      ensures this.id == id && this.name == name && this.steps == steps
    {
      this.id := id;
      this.name := name;
      this.steps := steps;
    }

    /** new WorkflowTemplate(id, name, steps); steps is None for a null list. */
    static method New(id: Guid, name: string, steps: Option<seq<TemplateSteps.WorkflowStepTemplate>>)
      returns (r: Result<WorkflowTemplate>)
      requires steps.Some? ==> AllTemplatesValid(steps.value)
      ensures r.Failure? <==> WorkflowTemplateCheck(id, name, steps.Some?).Fail?
      ensures r.Failure? ==> r.error == WorkflowTemplateCheck(id, name, steps.Some?).error
      ensures r.Success? ==> fresh(r.value) && r.value.Valid() && steps.Some?
      ensures r.Success? ==> r.value.id == id && r.value.name == name && r.value.steps == steps.value
    {
      var check := WorkflowTemplateCheck(id, name, steps.Some?);
      if check.Fail? {
        return Failure(check.error);
      }
      var template := new WorkflowTemplate(id, name, steps.value);
      return Success(template);
    }

    /** WorkflowTemplate.Create(name): a template without steps; freshId stands for Guid.NewGuid(). */
    static method Create(freshId: Guid, name: string) returns (r: Result<WorkflowTemplate>)
      requires freshId != NoId
      ensures r.Failure? <==> name == ""
      ensures r.Failure? ==> r.error == BlankString(NameParam)
      ensures r.Success? ==> fresh(r.value) && r.value.Valid()
      ensures r.Success? ==> r.value.id == freshId && r.value.name == name && r.value.steps == []
    {
      r := New(freshId, name, Some([]));
    }

    /** SetName: a null or empty name throws (whitespace is accepted); otherwise only Name changes. */
    method SetName(name: string) returns (res: Outcome)
      requires Valid()
      modifies this
      ensures Valid()
      ensures res == RequireNonEmpty(name, NameParam)
      ensures this.name == (if res.Pass? then name else old(this.name))
    {
      res := RequireNonEmpty(name, NameParam);
      if res.Pass? {
        this.name := name;
      }
    }

    /**
     * The Select/ToList half of CreateRequest: the step factories run in
     * template order, and the first one that throws ends the mapping.
     */
    method GenerateSteps(user: User?, stepIds: seq<Guid>) returns (r: Result<seq<WorkflowStep>>)
      requires |stepIds| == |steps| && forall i :: 0 <= i < |stepIds| ==> stepIds[i] != NoId
      ensures r.Failure? <==> exists i :: 0 <= i < |steps| && IsNullOrWhiteSpace(steps[i].name)
      ensures r.Failure? ==> r.error == BlankString(NameParam)
      ensures r.Success? ==> |r.value| == |steps| && Distinct(r.value) && AllValid(r.value)
      ensures r.Success? ==> forall i :: 0 <= i < |steps| ==>
        fresh(r.value[i]) && r.value[i].View() == GeneratedStep(steps[i], stepIds[i], OwnerId(user))
    {
      var made: seq<WorkflowStep> := [];
      var i := 0;
      while i < |steps|
        invariant 0 <= i <= |steps| && |made| == i
        invariant forall j :: 0 <= j < i ==> !IsNullOrWhiteSpace(steps[j].name)
        invariant Distinct(made) && AllValid(made)
        invariant forall j :: 0 <= j < i ==> fresh(made[j])
        invariant forall j :: 0 <= j < i ==> made[j].View() == GeneratedStep(steps[j], stepIds[j], OwnerId(user))
      {
        var t := steps[i];
        var step: Result<WorkflowStep>;
        if t.userId.Some? {
          step := WorkflowStep.CreateByUser(stepIds[i], t.name, Pending, user, AddStepComment);
        } else {
          step := WorkflowStep.CreateByRole(stepIds[i], t.name, Pending, t.roleId, AddStepComment);
        }
        if step.Failure? {
          return Failure(step.error);
        }
        made := made + [step.value];
        i := i + 1;
      }
      return Success(made);
    }

    /**
     * CreateRequest(user, document): one Pending step per template step, in
     * the template's order, in a new workflow named after the template, handed
     * to Request.Create. Every step template has a non-blank name, so the step
     * factories do not throw; a null user or document makes Request.Create
     * throw. Every template step has a UserId, so every generated step belongs
     * to the requesting user. The template is not changed. workflowId,
     * stepIds, requestId and eventId stand for the Guid.NewGuid() calls, data
     * for the event text.
     */
    method CreateRequest(user: User?, document: Document?, workflowId: Guid, stepIds: seq<Guid>,
                         requestId: Guid, eventId: Guid, data: string)
      returns (r: Result<Request>)
      requires Valid()
      requires user != null ==> user.Valid()
      requires document != null ==> document.Valid()
      requires workflowId != NoId && requestId != NoId && eventId != NoId && |data| > 0
      requires |stepIds| == |steps| && forall i :: 0 <= i < |stepIds| ==> stepIds[i] != NoId
      ensures r.Failure? <==> user == null || document == null
      ensures user == null ==> r == Failure(NullArgument(UserParam))
      ensures user != null && document == null ==> r == Failure(NullArgument(DocumentParam))
      ensures r.Success? ==> fresh(r.value) && fresh(r.value.workflow) && r.value.Valid()
      ensures r.Success? ==> r.value.id == requestId && r.value.user == user && r.value.document == document
      ensures r.Success? ==> r.value.events == [Event(Created, eventId, data, requestId)]
      ensures r.Success? ==>
        && r.value.workflow.id == workflowId && r.value.workflow.name == name
        && r.value.workflow.workflowTemplateId == id && |r.value.workflow.steps| == |steps|
      ensures r.Success? ==> forall i :: 0 <= i < |steps| ==>
        fresh(r.value.workflow.steps[i]) && r.value.workflow.steps[i].View() == GeneratedStep(steps[i], stepIds[i], user.id)
      ensures r.Success? ==> forall i :: 0 <= i < |steps| ==>
        r.value.workflow.steps[i].userId == user.id && r.value.workflow.steps[i].roleId == NoId
    {
      var made := GenerateSteps(user, stepIds);
      assert made.Success?;
      var workflow := Workflow.New(workflowId, name, id, Some(made.value));
      r := Request.Create(requestId, eventId, data, user, document, workflow.value);
    }
  }
}
