/** Request.cs: the aggregate tying a user and a document to a workflow and its audit log. */
module Requests {
  import opened Common
  import opened Users
  import opened Documents
  import opened Events
  import opened Steps
  import opened Workflows

  /** The constructor's guards, in the order it runs them: id, SetUser, SetDocument, SetWorkflow. */
  function RequestCheck(id: Guid, user: User?, document: Document?, workflow: Workflow?): (r: Outcome)
    ensures r.Pass? <==> id != NoId && user != null && document != null && workflow != null
    ensures id == NoId ==> r == Fail(EmptyIdentifier(IdParam))
    ensures id != NoId && user == null ==> r == Fail(NullArgument(UserParam))
    ensures id != NoId && user != null && document == null ==> r == Fail(NullArgument(DocumentParam))
    ensures id != NoId && user != null && document != null && workflow == null ==> r == Fail(NullArgument(WorkflowParam))
  {
    RequireId(id, IdParam)
      .Then(RequirePresent(user != null, UserParam))
      .Then(RequirePresent(document != null, DocumentParam))
      .Then(RequirePresent(workflow != null, WorkflowParam))
  }

  /** Every event in the log is well formed and belongs to the request it is logged in. */
  predicate LogOf(events: seq<Event>, requestId: Guid) {
    forall i :: 0 <= i < |events| ==> ValidEvent(events[i]) && events[i].requestId == requestId
  }

  class Request {
    const id: Guid
    var user: User
    var document: Document
    var workflow: Workflow
    var events: seq<Event>

    ghost predicate Valid()
      reads this, user, document, workflow, workflow.steps
    {
      id != NoId && user.Valid() && document.Valid() && workflow.Valid() && LogOf(events, id)
    }

    /** Allocation once New's guards have passed. */
    constructor (id: Guid, user: User, document: Document, workflow: Workflow)
      requires id != NoId && user.Valid() && document.Valid() && workflow.Valid()
      ensures Valid()
      ensures this.id == id && this.user == user && this.document == document && this.workflow == workflow
      ensures events == []
    {
      this.id := id;
      this.user := user;
      this.document := document;
      this.workflow := workflow;
      this.events := [];
    }

    /** new Request(id, user, document, workflow): a fresh request has an empty event log. */
    static method New(id: Guid, user: User?, document: Document?, workflow: Workflow?) returns (r: Result<Request>)
      requires user != null ==> user.Valid()
      requires document != null ==> document.Valid()
      requires workflow != null ==> workflow.Valid()
      ensures r.Failure? <==> RequestCheck(id, user, document, workflow).Fail?
      ensures r.Failure? ==> r.error == RequestCheck(id, user, document, workflow).error
      ensures r.Success? ==> fresh(r.value) && r.value.Valid() && r.value.id == id
      ensures r.Success? ==> r.value.user == user && r.value.document == document && r.value.workflow == workflow
      ensures r.Success? ==> r.value.events == []
    {
      var check := RequestCheck(id, user, document, workflow);
      if check.Fail? {
        return Failure(check.error);
      }
      var request := new Request(id, user, document, workflow);
      return Success(request);
    }

    /**
     * Request.Create(user, document, workflow): the new request's log holds
     * exactly one create event, about the request itself. requestId and eventId
     * stand for Guid.NewGuid(), data for the timestamped text.
     */
    static method Create(requestId: Guid, eventId: Guid, data: string, user: User?, document: Document?, workflow: Workflow?)
      returns (r: Result<Request>)
      requires requestId != NoId && eventId != NoId && |data| > 0
      requires user != null ==> user.Valid()
      requires document != null ==> document.Valid()
      requires workflow != null ==> workflow.Valid()
      ensures r.Failure? <==> user == null || document == null || workflow == null
      ensures r.Failure? ==> r.error == RequestCheck(requestId, user, document, workflow).error
      ensures r.Success? ==> fresh(r.value) && r.value.Valid() && r.value.id == requestId
      ensures r.Success? ==> r.value.user == user && r.value.document == document && r.value.workflow == workflow
      ensures r.Success? ==> r.value.events == [Event(Created, eventId, data, r.value.id)]
    {
      r := New(requestId, user, document, workflow);
      if r.Success? {
        var created := NewEvent(Created, eventId, data, requestId);
        r.value.events := r.value.events + [created.value];
      }
    }

    /** SetUser: a null user throws and changes nothing; otherwise only User changes. */
    method SetUser(user: User?) returns (res: Outcome)
      requires Valid() && (user != null ==> user.Valid())
      modifies this
      ensures Valid()
      ensures res == RequirePresent(user != null, UserParam)
      ensures this.user == (if res.Pass? then user else old(this.user))
      ensures document == old(document) && workflow == old(workflow) && events == old(events)
    {
      res := RequirePresent(user != null, UserParam);
      if res.Pass? {
        this.user := user;
      }
    }

    /** SetWorkflow: a null workflow throws and changes nothing; otherwise only Workflow changes. */
    method SetWorkflow(workflow: Workflow?) returns (res: Outcome)
      requires Valid() && (workflow != null ==> workflow.Valid())
      modifies this
      ensures Valid()
      ensures res == RequirePresent(workflow != null, WorkflowParam)
      ensures this.workflow == (if res.Pass? then workflow else old(this.workflow))
      ensures user == old(user) && document == old(document) && events == old(events)
    {
      res := RequirePresent(workflow != null, WorkflowParam);
      if res.Pass? {
        this.workflow := workflow;
      }
    }

    /** SetDocument: a null document throws and changes nothing; otherwise only Document changes. */
    method SetDocument(document: Document?) returns (res: Outcome)
      requires Valid() && (document != null ==> document.Valid())
      modifies this
      ensures Valid()
      ensures res == RequirePresent(document != null, DocumentParam)
      ensures this.document == (if res.Pass? then document else old(this.document))
      ensures user == old(user) && workflow == old(workflow) && events == old(events)
    {
      res := RequirePresent(document != null, DocumentParam);
      if res.Pass? {
        this.document := document;
      }
    }

    /**
     * Approve and Reject: the first Pending step is stamped, and one event of
     * the matching kind is logged. When the step half throws, nothing changes.
     */
    method Decide(actor: User?, verdict: Status, kind: EventKind, eventId: Guid, data: string) returns (res: Outcome)
      requires Valid() && verdict != Pending && eventId != NoId && |data| > 0
      modifies this, workflow.FirstPendingStep()
      ensures Valid()
      ensures user == old(user) && document == old(document) && workflow == old(workflow)
      ensures FirstPending(old(workflow.Statuses())).None? ==> res == Fail(NoPendingStep)
      ensures FirstPending(old(workflow.Statuses())).Some? ==> res == (if actor == null then Fail(MissingActor) else Pass)
      ensures FirstPending(old(workflow.Statuses())).Some? ==>
        var k := FirstPending(old(workflow.Statuses())).value;
        workflow.steps[k].View() == if actor == null then old(workflow.steps[k].View())
          else Stamped(old(workflow.steps[k].View()), actor.id, actor.roleId, verdict)
      ensures events == if res.Pass? then old(events) + [Event(kind, eventId, data, id)] else old(events)
      ensures res.Pass? ==> PendingCount(workflow.Statuses()) == PendingCount(old(workflow.Statuses())) - 1
    {
      res := workflow.StampFirstPending(actor, verdict);
      if res.Fail? {
        return;
      }
      var logged := NewEvent(kind, eventId, data, id);
      Log(logged.value);
    }

    /** _events.Add(e): the event joins the end of the log; nothing else changes. */
    method Log(e: Event)
      requires Valid() && ValidEvent(e) && e.requestId == id
      modifies this
      ensures Valid()
      ensures events == old(events) + [e]
      ensures user == old(user) && document == old(document) && workflow == old(workflow)
      ensures workflow.Statuses() == old(workflow.Statuses())
    {
      events := events + [e];
    }

    /** Approve(user): Decide with the Approve verdict and an approve event. */
    method Approve(actor: User?, eventId: Guid, data: string) returns (res: Outcome)
      requires Valid() && eventId != NoId && |data| > 0
      modifies this, workflow.FirstPendingStep()
      ensures Valid()
      ensures user == old(user) && document == old(document) && workflow == old(workflow)
      ensures FirstPending(old(workflow.Statuses())).None? ==> res == Fail(NoPendingStep)
      ensures FirstPending(old(workflow.Statuses())).Some? ==> res == (if actor == null then Fail(MissingActor) else Pass)
      ensures FirstPending(old(workflow.Statuses())).Some? ==>
        var k := FirstPending(old(workflow.Statuses())).value;
        workflow.steps[k].View() == if actor == null then old(workflow.steps[k].View())
          else Stamped(old(workflow.steps[k].View()), actor.id, actor.roleId, Status.Approve)
      ensures events == if res.Pass? then old(events) + [Event(Approved, eventId, data, id)] else old(events)
      ensures res.Pass? ==> PendingCount(workflow.Statuses()) == PendingCount(old(workflow.Statuses())) - 1
    {
      res := Decide(actor, Status.Approve, Approved, eventId, data);
    }

    /** Reject(user): Decide with the Reject verdict and a reject event. */
    method Reject(actor: User?, eventId: Guid, data: string) returns (res: Outcome)
      requires Valid() && eventId != NoId && |data| > 0
      modifies this, workflow.FirstPendingStep()
      ensures Valid()
      ensures user == old(user) && document == old(document) && workflow == old(workflow)
      ensures FirstPending(old(workflow.Statuses())).None? ==> res == Fail(NoPendingStep)
      ensures FirstPending(old(workflow.Statuses())).Some? ==> res == (if actor == null then Fail(MissingActor) else Pass)
      ensures FirstPending(old(workflow.Statuses())).Some? ==>
        var k := FirstPending(old(workflow.Statuses())).value;
        workflow.steps[k].View() == if actor == null then old(workflow.steps[k].View())
          else Stamped(old(workflow.steps[k].View()), actor.id, actor.roleId, Status.Reject)
      ensures events == if res.Pass? then old(events) + [Event(Rejected, eventId, data, id)] else old(events)
      ensures res.Pass? ==> PendingCount(workflow.Statuses()) == PendingCount(old(workflow.Statuses())) - 1
    {
      res := Decide(actor, Status.Reject, Rejected, eventId, data);
    }

    /**
     * Restart: every step goes back to Pending and is restamped with the
     * request's own user's ids, whoever decided it; the number and order
     * of the steps and the event log stay as they were.
     */
    method Restart()
      requires Valid()
      modifies workflow.steps
      ensures Valid()
      ensures forall i :: 0 <= i < |workflow.steps| ==>
        workflow.steps[i].View() == Stamped(old(workflow.steps[i].View()), user.id, user.roleId, Pending)
      ensures events == old(events)
      ensures PendingCount(workflow.Statuses()) == |workflow.steps|
    {
      var steps := workflow.steps;
      var i := 0;
      while i < |steps|
        invariant 0 <= i <= |steps|
        invariant Valid()
        invariant forall j :: 0 <= j < i ==> steps[j].View() == Stamped(old(steps[j].View()), user.id, user.roleId, Pending)
        invariant forall j :: i <= j < |steps| ==> steps[j].View() == old(steps[j].View())
      {
        assert forall j :: 0 <= j < |steps| && j != i ==> steps[j] != steps[i];
        var _ := steps[i].SetStatus(user, Pending);
        i := i + 1;
      }
      AllPendingCount(workflow.Statuses());
    }
  }
}
