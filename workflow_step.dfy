/** WorkflowStep.cs: one approval stage, owned by a user or a role, with its status. */
module Steps {
  import opened Common
  import opened Users

  /** The Status enum: a step waits, or has been approved or rejected. */
  datatype Status = Pending | Approve | Reject

  /** The observable fields of a step, as one value. */
  datatype StepView = StepView(
    id: Guid, name: string, order: int, status: Status,
    userId: Guid, roleId: Guid, comment: string)

  /** What SetStatus(actor, status) does to a step: status and both owner ids are overwritten. */
  function Stamped(v: StepView, actorId: Guid, actorRoleId: Guid, status: Status): (w: StepView)
    ensures w.status == status && w.userId == actorId && w.roleId == actorRoleId
    ensures w.id == v.id && w.name == v.name && w.order == v.order && w.comment == v.comment
  {
    v.(status := status, userId := actorId, roleId := actorRoleId)
  }

  /** The constructor's guards, in the order it runs them: id, SetName, then SetComment. */
  function StepCheck(id: Guid, name: string, comment: string): (r: Outcome)
    ensures r.Pass? <==> id != NoId && !IsNullOrWhiteSpace(name) && |comment| > 0
    ensures id == NoId ==> r == Fail(EmptyIdentifier(IdParam))
    ensures id != NoId && IsNullOrWhiteSpace(name) ==> r == Fail(BlankString(NameParam))
    ensures id != NoId && !IsNullOrWhiteSpace(name) && comment == "" ==> r == Fail(BlankString(CommentParam))
  {
    RequireId(id, IdParam)
      .Then(RequireNonBlank(name, NameParam))
      .Then(RequireNonEmpty(comment, CommentParam))
  }

  /** UserId after construction: Guid.Empty for a null user. */
  function OwnerId(user: User?): (id: Guid)
    ensures user == null ==> id == NoId
    ensures user != null ==> id == user.id
  {
    if user == null then NoId else user.id
  }

  /** The state a freshly constructed step is in. Order starts at 0 and SetOrder bumps it once. */
  function Initial(id: Guid, name: string, status: Status, userId: Guid, roleId: Option<Guid>, comment: string): (v: StepView)
    ensures v.order == 1 && v.id == id && v.name == name && v.status == status && v.comment == comment
    ensures v.userId == userId
    ensures roleId.None? ==> v.roleId == NoId
    ensures roleId.Some? ==> v.roleId == roleId.value
  {
    StepView(id, name, 0 + 1, status, userId, if roleId.None? then NoId else roleId.value, comment)
  }

  class WorkflowStep {
    const id: Guid
    var name: string
    var order: int
    var status: Status
    var userId: Guid
    var roleId: Guid
    var comment: string

    ghost function View(): StepView
      reads this
    {
      StepView(id, name, order, status, userId, roleId, comment)
    }

    /** What construction and every setter keep. */
    ghost predicate Valid()
      reads this
    {
      StepCheck(id, name, comment).Pass? && order == 1
    }

    /** Allocation once New's guards have passed. */
    constructor (id: Guid, name: string, status: Status, user: User?, roleId: Option<Guid>, comment: string)
      requires StepCheck(id, name, comment).Pass?
      ensures Valid()
      ensures View() == Initial(id, name, status, OwnerId(user), roleId, comment)
    {
      this.id := id;
      this.name := name;
      this.order := 0;
      this.status := status;
      this.userId := OwnerId(user);
      this.roleId := if roleId.None? then NoId else roleId.value;
      this.comment := comment;
      new;
      this.order := this.order + 1;
    }

    /** new WorkflowStep(id, name, status, user, roleId, comment). */
    static method New(id: Guid, name: string, status: Status, user: User?, roleId: Option<Guid>, comment: string)
      returns (r: Result<WorkflowStep>)
      ensures r.Failure? <==> StepCheck(id, name, comment).Fail?
      ensures r.Failure? ==> r.error == StepCheck(id, name, comment).error
      ensures r.Success? ==> fresh(r.value) && r.value.Valid()
      ensures r.Success? ==> r.value.View() == Initial(id, name, status, OwnerId(user), roleId, comment)
    {
      var check := StepCheck(id, name, comment);
      if check.Fail? {
        return Failure(check.error);
      }
      var step := new WorkflowStep(id, name, status, user, roleId, comment);
      return Success(step);
    }

    /** Create(name, status, roleId, comment): a role-owned step, UserId = Guid.Empty. */
    static method CreateByRole(freshId: Guid, name: string, status: Status, roleId: Guid, comment: string)
      returns (r: Result<WorkflowStep>)
      requires freshId != NoId
      ensures r.Failure? <==> IsNullOrWhiteSpace(name) || comment == ""
      ensures r.Failure? ==> r.error == StepCheck(freshId, name, comment).error
      ensures r.Success? ==> fresh(r.value) && r.value.Valid()
      ensures r.Success? ==> r.value.View() == StepView(freshId, name, 1, status, NoId, roleId, comment)
    {
      r := New(freshId, name, status, null, Some(roleId), comment);
    }

    /** Create(name, status, user, comment): a user-owned step, RoleId = Guid.Empty. */
    static method CreateByUser(freshId: Guid, name: string, status: Status, user: User?, comment: string)
      returns (r: Result<WorkflowStep>)
      requires freshId != NoId
      ensures r.Failure? <==> IsNullOrWhiteSpace(name) || comment == ""
      ensures r.Failure? ==> r.error == StepCheck(freshId, name, comment).error
      ensures r.Success? ==> fresh(r.value) && r.value.Valid()
      ensures r.Success? ==> r.value.View() == StepView(freshId, name, 1, status, OwnerId(user), NoId, comment)
    {
      r := New(freshId, name, status, user, None, comment);
    }

    /** SetName: a blank name throws and changes nothing; otherwise only Name changes. */
    method SetName(name: string) returns (res: Outcome)
      requires Valid()
      modifies this
      ensures Valid()
      ensures res == RequireNonBlank(name, NameParam)
      ensures View() == if res.Pass? then old(View()).(name := name) else old(View())
    {
      res := RequireNonBlank(name, NameParam);
      if res.Pass? {
        this.name := name;
      }
    }

    /** SetComment: a null or empty comment throws (whitespace is accepted); otherwise only Comment changes. */
    method SetComment(comment: string) returns (res: Outcome)
      requires Valid()
      modifies this
      ensures Valid()
      ensures res == RequireNonEmpty(comment, CommentParam)
      ensures View() == if res.Pass? then old(View()).(comment := comment) else old(View())
    {
      res := RequireNonEmpty(comment, CommentParam);
      if res.Pass? {
        this.comment := comment;
      }
    }

    /**
     * SetStatus(user, status): a null user is dereferenced before anything is
     * written, so it fails and changes nothing; otherwise the step takes the
     * status and both of the acting user's ids.
     */
    method SetStatus(actor: User?, status: Status) returns (res: Outcome)
      requires Valid()
      modifies this
      ensures Valid()
      ensures res == if actor == null then Fail(MissingActor) else Pass
      ensures actor == null ==> View() == old(View())
      ensures actor != null ==> View() == Stamped(old(View()), actor.id, actor.roleId, status)
    {
      if actor == null {
        return Fail(MissingActor);
      }
      this.userId := actor.id;
      this.roleId := actor.roleId;
      this.status := status;
      return Pass;
    }
  }
}
