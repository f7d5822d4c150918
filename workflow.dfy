/** Workflow.cs: the ordered approval chain of a request. */
module Workflows {
  import opened Common
  import opened Users
  import opened Steps

  /**
   * IsApprove over the step statuses, in the source's own terms: there is a
   * step, the last one is Approve, and no step is Reject or Pending.
   */
  predicate IsApproveOf(ss: seq<Status>) {
    |ss| > 0 && ss[|ss| - 1] == Approve && !(exists i :: 0 <= i < |ss| && (ss[i] == Reject || ss[i] == Pending))
  }

  /** IsReject over the step statuses: some step is Reject and no step is Approve or Pending. */
  predicate IsRejectOf(ss: seq<Status>) {
    (exists i :: 0 <= i < |ss| && ss[i] == Reject)
      && !(exists i :: 0 <= i < |ss| && (ss[i] == Approve || ss[i] == Pending))
  }

  /** IsApprove holds exactly when there are steps and every one of them is Approve. */
  lemma IsApproveMeaning(ss: seq<Status>)
    ensures IsApproveOf(ss) <==> |ss| > 0 && forall i :: 0 <= i < |ss| ==> ss[i] == Approve
  {
  }

  /** IsReject holds exactly when there are steps and every one of them is Reject. */
  lemma IsRejectMeaning(ss: seq<Status>)
    ensures IsRejectOf(ss) <==> |ss| > 0 && forall i :: 0 <= i < |ss| ==> ss[i] == Reject
  {
    if |ss| > 0 && forall i :: 0 <= i < |ss| ==> ss[i] == Reject {
      assert ss[0] == Reject;
    }
  }

  /** The two verdicts exclude each other, and neither holds of an empty workflow. */
  lemma VerdictsExclusive(ss: seq<Status>)
    ensures !(IsApproveOf(ss) && IsRejectOf(ss))
    ensures ss == [] ==> !IsApproveOf(ss) && !IsRejectOf(ss)
  {
  }

  lemma VerdictExamples()
    ensures IsApproveOf([Approve])
    ensures !IsApproveOf([Approve, Reject]) && !IsApproveOf([Pending])
    ensures !IsApproveOf([Reject, Approve]) && !IsRejectOf([Reject, Approve])
    ensures IsRejectOf([Reject, Reject])
  {
    assert [Approve, Reject][1] == Reject;
    assert [Reject, Approve][0] == Reject;
    assert [Reject, Reject][0] == Reject;
  }

  /** ReadSteps.FirstOrDefault(step => step.Status == Pending), as the step's index. */
  function FirstPending(ss: seq<Status>): (k: Option<nat>)
    ensures k.None? <==> forall i :: 0 <= i < |ss| ==> ss[i] != Pending
    ensures k.Some? ==> k.value < |ss| && ss[k.value] == Pending
    ensures k.Some? ==> forall i :: 0 <= i < k.value ==> ss[i] != Pending
  {
    if ss == [] then None
    else if ss[0] == Pending then Some(0)
    else match FirstPending(ss[1..])
      case None => None
      case Some(j) => Some(j + 1)
  }

  /** How many steps are still Pending. */
  function PendingCount(ss: seq<Status>): nat {
    if ss == [] then 0 else (if ss[0] == Pending then 1 else 0) + PendingCount(ss[1..])
  }

  /** Deciding a Pending step removes exactly one Pending step. */
  lemma {:induction false} PendingCountAfterDecide(ss: seq<Status>, k: nat, verdict: Status)
    requires k < |ss| && ss[k] == Pending && verdict != Pending
    ensures PendingCount(ss[k := verdict]) == PendingCount(ss) - 1
  {
    if k == 0 {
      assert ss[k := verdict][1..] == ss[1..];
    } else {
      assert ss[k := verdict][1..] == ss[1..][k - 1 := verdict];
      PendingCountAfterDecide(ss[1..], k - 1, verdict);
    }
  }

  /** There is a first Pending step exactly when some step is counted as Pending. */
  lemma {:induction false} NoPendingIffCountZero(ss: seq<Status>)
    ensures FirstPending(ss).None? <==> PendingCount(ss) == 0
  {
    if ss != [] {
      NoPendingIffCountZero(ss[1..]);
      if FirstPending(ss[1..]).Some? {
        var j := FirstPending(ss[1..]).value;
        assert ss[1..][j] == Pending;
      }
    }
  }

  /** When every step is Pending, all of them are counted. */
  lemma {:induction false} AllPendingCount(ss: seq<Status>)
    requires forall i :: 0 <= i < |ss| ==> ss[i] == Pending
    ensures PendingCount(ss) == |ss|
  {
    if ss != [] {
      AllPendingCount(ss[1..]);
    }
  }

  /**
   * After the first Pending step k is decided, the next call finds the first
   * Pending step after k: steps are decided one at a time, in sequence order.
   */
  lemma {:induction false} NextPendingAfterDecide(ss: seq<Status>, k: nat, verdict: Status)
    requires FirstPending(ss) == Some(k) && verdict != Pending
    ensures FirstPending(ss[k := verdict]) ==
      match FirstPending(ss[k + 1..])
      case None => None
      case Some(j) => Some(k + 1 + j)
  {
    var ts := ss[k := verdict];
    assert forall i :: k + 1 <= i < |ss| ==> ts[i] == ss[k + 1..][i - (k + 1)];
    match FirstPending(ss[k + 1..])
    case None =>
      assert forall i :: 0 <= i < |ts| ==> ts[i] != Pending;
    case Some(j) =>
      assert ts[k + 1 + j] == Pending;
      assert forall i :: 0 <= i < k + 1 + j ==> ts[i] != Pending;
  }

  /** The scenario [Pending, Pending]: the first Approve takes step 0, the second step 1. */
  lemma TwoPendingSteps()
    ensures FirstPending([Pending, Pending]) == Some(0)
    ensures FirstPending([Pending, Pending][0 := Approve]) == Some(1)
    ensures FirstPending([Pending, Pending][0 := Approve][1 := Approve]) == None
  {
    assert [Pending, Pending][0 := Approve] == [Approve, Pending];
    assert [Approve, Pending][1..] == [Pending];
    assert [Approve, Pending][1 := Approve] == [Approve, Approve];
    assert [Approve, Approve][1..] == [Approve];
    assert [Approve][1..] == [];
  }

  /** The constructor's guards, in the order it runs them: id, template id, null steps, then SetName. */
  function WorkflowCheck(id: Guid, name: string, workflowTemplateId: Guid, stepsPresent: bool): (r: Outcome)
    ensures r.Pass? <==> id != NoId && workflowTemplateId != NoId && stepsPresent && |name| > 0
    ensures id == NoId ==> r == Fail(EmptyIdentifier(IdParam))
    ensures id != NoId && workflowTemplateId == NoId ==> r == Fail(EmptyIdentifier(WorkflowTemplateIdParam))
    ensures id != NoId && workflowTemplateId != NoId && !stepsPresent ==> r == Fail(NullArgument(StepsParam))
    ensures id != NoId && workflowTemplateId != NoId && stepsPresent && name == "" ==> r == Fail(BlankString(NameParam))
  {
    RequireId(id, IdParam)
      .Then(RequireId(workflowTemplateId, WorkflowTemplateIdParam))
      .Then(RequirePresent(stepsPresent, StepsParam))
      .Then(RequireNonEmpty(name, NameParam))
  }

  /** The workflow owns its steps: no step object is listed twice. */
  ghost predicate Distinct(steps: seq<WorkflowStep>) {
    forall i, j :: 0 <= i < j < |steps| ==> steps[i] != steps[j]
  }

  ghost predicate AllValid(steps: seq<WorkflowStep>)
    reads steps
  {
    forall i :: 0 <= i < |steps| ==> steps[i].Valid()
  }

  class Workflow {
    const id: Guid
    var name: string
    const workflowTemplateId: Guid
    var steps: seq<WorkflowStep>

    ghost predicate Valid()
      reads this, steps
    {
      WorkflowCheck(id, name, workflowTemplateId, true).Pass? && Distinct(steps) && AllValid(steps)
    }

    /** ReadSteps, as the status of each step in order. */
    function Statuses(): (ss: seq<Status>)
      reads this, steps
      ensures |ss| == |steps|
      ensures forall i :: 0 <= i < |steps| ==> ss[i] == steps[i].status
    {
      seq(|steps|, i requires 0 <= i < |steps| reads this, steps => steps[i].status)
    }

    /** Allocation once New's guards have passed. */
    constructor (id: Guid, name: string, workflowTemplateId: Guid, steps: seq<WorkflowStep>)
      requires WorkflowCheck(id, name, workflowTemplateId, true).Pass?
      requires Distinct(steps) && AllValid(steps)
      ensures Valid()
      ensures this.id == id && this.name == name && this.workflowTemplateId == workflowTemplateId
      ensures this.steps == steps
    {
      this.id := id;
      this.name := name;
      this.workflowTemplateId := workflowTemplateId;
      this.steps := steps;
    }

    /** new Workflow(id, name, workflowTemplateId, steps); steps is None for a null list. */
    static method New(id: Guid, name: string, workflowTemplateId: Guid, steps: Option<seq<WorkflowStep>>)
      returns (r: Result<Workflow>)
      requires steps.Some? ==> Distinct(steps.value) && AllValid(steps.value)
      ensures r.Failure? <==> WorkflowCheck(id, name, workflowTemplateId, steps.Some?).Fail?
      ensures r.Failure? ==> r.error == WorkflowCheck(id, name, workflowTemplateId, steps.Some?).error
      ensures r.Success? ==> fresh(r.value) && r.value.Valid() && steps.Some?
      ensures r.Success? ==> r.value.id == id && r.value.name == name
      ensures r.Success? ==> r.value.workflowTemplateId == workflowTemplateId && r.value.steps == steps.value
    {
      var check := WorkflowCheck(id, name, workflowTemplateId, steps.Some?);
      if check.Fail? {
        return Failure(check.error);
      }
      var workflow := new Workflow(id, name, workflowTemplateId, steps.value);
      return Success(workflow);
    }

    /**
     * Workflow.Create(name, workflowTemplate): an empty workflow for the
     * template; only the template's Id is used, so it is passed directly.
     */
    static method Create(freshId: Guid, name: string, workflowTemplateId: Guid) returns (r: Result<Workflow>)
      requires freshId != NoId
      ensures r.Failure? <==> workflowTemplateId == NoId || name == ""
      ensures r.Failure? ==> r.error == WorkflowCheck(freshId, name, workflowTemplateId, true).error
      ensures r.Success? ==> fresh(r.value) && r.value.Valid() && r.value.id == freshId
      ensures r.Success? ==> r.value.name == name && r.value.workflowTemplateId == workflowTemplateId
      ensures r.Success? ==> r.value.steps == []
    {
      r := New(freshId, name, workflowTemplateId, Some([]));
    }

    /** SetName: a null or empty name throws (whitespace is accepted); otherwise only Name changes. */
    method SetName(name: string) returns (res: Outcome)
      requires Valid()
      modifies this
      ensures Valid()
      ensures res == RequireNonEmpty(name, NameParam)
      ensures this.name == (if res.Pass? then name else old(this.name))
      ensures steps == old(steps)
    {
      res := RequireNonEmpty(name, NameParam);
      if res.Pass? {
        this.name := name;
      }
    }

    /**
     * AddStep(name, status, user, roleId, comment): with no user and a role id,
     * a role-owned step is appended; with a user and no role id, a user-owned
     * step; with both or neither nothing happens. The step factories can throw
     * on a blank name or an empty comment. freshId stands for Guid.NewGuid().
     */
    method AddStep(freshId: Guid, name: string, status: Status, user: User?, roleId: Guid, comment: string)
      returns (res: Outcome)
      requires Valid() && freshId != NoId
      modifies this
      ensures Valid()
      ensures this.name == old(this.name)
      ensures (user == null) == (roleId == NoId) ==> res == Pass && steps == old(steps)
      ensures (user == null) != (roleId == NoId) ==> res == StepCheck(freshId, name, comment)
      ensures (user == null) != (roleId == NoId) && res.Fail? ==> steps == old(steps)
      ensures (user == null) != (roleId == NoId) && res.Pass? ==>
        |steps| == |old(steps)| + 1 && steps[..|old(steps)|] == old(steps) && fresh(steps[|old(steps)|])
      ensures user == null && roleId != NoId && res.Pass? ==>
        steps[|old(steps)|].View() == StepView(freshId, name, 1, status, NoId, roleId, comment)
      ensures user != null && roleId == NoId && res.Pass? ==>
        steps[|old(steps)|].View() == StepView(freshId, name, 1, status, user.id, NoId, comment)
    {
      var made: Result<WorkflowStep>;
      if user == null && roleId != NoId {
        made := WorkflowStep.CreateByRole(freshId, name, status, roleId, comment);
      } else if roleId == NoId && user != null {
        made := WorkflowStep.CreateByUser(freshId, name, status, user, comment);
      } else {
        return Pass;
      }
      if made.Failure? {
        return Fail(made.error);
      }
      steps := steps + [made.value];
      return Pass;
    }

    /** Restart: the step list is replaced by an empty one; calling it again changes nothing more. */
    method Restart()
      requires Valid()
      modifies this
      ensures Valid()
      ensures steps == [] && name == old(name)
    {
      steps := [];
    }

    /** The step Approve and Reject act on, as a frame: the first Pending one, or none. */
    ghost function FirstPendingStep(): (fs: set<WorkflowStep>)
      reads this, steps
      ensures FirstPending(Statuses()).None? ==> fs == {}
      ensures FirstPending(Statuses()).Some? ==> fs == {steps[FirstPending(Statuses()).value]}
    {
      match FirstPending(Statuses())
      case None => {}
      case Some(k) => {steps[k]}
    }

    /**
     * The step half of Approve and Reject: the first Pending step in sequence
     * order is stamped with the verdict and the acting user's ids, and no other
     * step is touched. Without a Pending step the call throws; with a null
     * actor SetStatus throws before it writes anything, so nothing changes.
     */
    method StampFirstPending(actor: User?, verdict: Status) returns (res: Outcome)
      requires Valid() && verdict != Pending
      modifies FirstPendingStep()
      ensures Valid()
      ensures FirstPending(old(Statuses())).None? ==> res == Fail(NoPendingStep)
      ensures FirstPending(old(Statuses())).Some? ==> res == (if actor == null then Fail(MissingActor) else Pass)
      ensures FirstPending(old(Statuses())).Some? ==>
        var k := FirstPending(old(Statuses())).value;
        steps[k].View() == if actor == null then old(steps[k].View()) else Stamped(old(steps[k].View()), actor.id, actor.roleId, verdict)
      ensures res.Pass? ==> PendingCount(Statuses()) == PendingCount(old(Statuses())) - 1
    {
      var statuses := Statuses();
      var pending := FirstPending(statuses);
      if pending.None? {
        return Fail(NoPendingStep);
      }
      var k := pending.value;
      assert forall j :: 0 <= j < |steps| && j != k ==> steps[j] != steps[k];
      res := steps[k].SetStatus(actor, verdict);
      if res.Pass? {
        assert Statuses() == statuses[k := verdict];
        PendingCountAfterDecide(statuses, k, verdict);
      }
    }

    function IsApprove(): (b: bool)
      reads this, steps
      ensures b <==> |steps| > 0 && forall i :: 0 <= i < |steps| ==> steps[i].status == Approve
    {
      IsApproveMeaning(Statuses());
      IsApproveOf(Statuses())
    }

    function IsReject(): (b: bool)
      reads this, steps
      ensures b <==> |steps| > 0 && forall i :: 0 <= i < |steps| ==> steps[i].status == Reject
    {
      IsRejectMeaning(Statuses());
      IsRejectOf(Statuses())
    }
  }
}
