# InterviewTracker domain core in Dafny

This project models the domain layer of InterviewTracker, an interview-approval tracker.

A candidate's `Request` ties together:
- a `User`, the requester;
- a `Document`, the candidate's submission;
- a `Workflow`, an ordered chain of `WorkflowStep`s, each Pending, Approve or Reject and owned by a user id or a role id;
- an audit log of events.

`Approve` and `Reject` stamp the first Pending step with the acting user and log one event. `Restart` puts every step back to Pending. A `WorkflowTemplate` turns its step templates into a fresh Pending workflow and wraps it in a new request. The remaining types are validated values and entities:
- `Email`, `Role` and `User`;
- the two `WorkflowStepTemplate` variants;
- the create, approve and reject events.

Each of them is a constructor or setter that checks its arguments and fails fast.

How the C# becomes Dafny:
- **Identifiers.** A `Guid` is a `nat`, and `NoId` (0) stands for `Guid.Empty`.
- **Time.** A `DateTime` is an `int` tick count.
- **Nondeterministic inputs.** `Guid.NewGuid()`, `DateTime.Now` and the timestamped event text are parameters of the operations that use them.
- **Exceptions.** An operation that can throw returns:
  - `Outcome` (`Pass` or `Fail(error)`) from a setter or command;
  - `Result<T>` (`Success(value)` or `Failure(error)`) from a constructor.
  - The error names the exception's kind and the argument it was raised for.
  - Guards run in the source's order, so the first failing guard decides the error (`Outcome.Then`).
- **Mutable entities are classes.** `User`, `Role`, `Document`, `WorkflowStep`, `Workflow`, `Request` and `WorkflowTemplate` have fields that their setters reassign.
  - Each class's `constructor` only allocates once the guards have passed.
  - `New` is the source constructor with its guards.
  - `Create` is the static factory.
- **Immutable records are datatypes.** `Email`, the events and both step-template variants.
  - `Email` is a subset type of its datatype, constrained by the constructor's guard. A User or Document therefore never holds an address the guard would refuse.
  - A `WorkflowTemplate` holds only step templates that satisfy their constructor's guards, since the source can build them no other way.
- **Workflow's two halves.** Its step list is a `seq<WorkflowStep>` of distinct, valid step objects. `IsApprove` and `IsReject` are predicates over the step statuses.

Workflow properties are stated over the status sequence, `Workflows.FirstPending` and `Workflows.PendingCount`:
- Approve and Reject decide the first Pending step in sequence order and touch no other step.
- Restart leaves every step Pending.
- `IsApprove` holds exactly when there is a step and every step is Approve; `IsReject` likewise for Reject.

## Model

| member | source | states |
|---|---|---|
| Common.NonEmptyWeakerThanNonBlank | InterviewTracker/Domain/Entities/Requests/WorkflowStep.cs:42-84 | The IsNullOrWhiteSpace guard (step names) is stricter than the IsNullOrEmpty guard (comments), and they disagree exactly on non-empty all-whitespace strings |
| Common.WhiteSpaceOnlyExample | InterviewTracker/Domain/Entities/Requests/Workflow.cs:43-51 | " " passes the IsNullOrEmpty guard but fails the IsNullOrWhiteSpace guard; "\t\n" fails the latter |
| Emails.NewEmail | InterviewTracker/Domain/Entities/Email.cs:7-17 | Accepts exactly the values satisfying the three-part guard, with the '@' search read ordinally; the stored Value is the input; otherwise the error is InvalidEmail |
| Emails.EmailRoundTrip | InterviewTracker/Domain/Entities/Email.cs:7-17 | Every Email is given back unchanged by the constructor applied to its own Value |
| Emails.EmailAcceptedIffSplits | InterviewTracker/Domain/Entities/Email.cs:9-11 | Independent reading: accepted iff some '@' sits strictly inside the value and neither the first nor the last character is '@' |
| Emails.AcceptedEmailLength | InterviewTracker/Domain/Entities/Email.cs:9-11 | Every accepted value has at least three characters |
| Emails.EmailEdgeCases | InterviewTracker/Domain/Entities/Email.cs:9-11 | "" is refused by the Contains test before any indexing; "@", "a@" and "@a" are refused; "a@b" is accepted unchanged |
| Roles.RoleCheck | InterviewTracker/Domain/Entities/Role.cs:10-19 | Passes iff the id is non-empty and the name not blank; an empty id is reported before a blank name |
| Roles.Role.constructor | InterviewTracker/Domain/Entities/Role.cs:10-19 | Stores id and name as given |
| Roles.Role.New | InterviewTracker/Domain/Entities/Role.cs:10-19 | Fails exactly when RoleCheck fails, with its error; otherwise a fresh valid role holding the arguments |
| Roles.Role.Create | InterviewTracker/Domain/Entities/Role.cs:21-24 | Fails iff the name is blank (BlankString on name); otherwise a fresh role with the fresh, non-empty id |
| Roles.Role.SetName | InterviewTracker/Domain/Entities/Role.cs:27-35 | A blank name fails and changes nothing; otherwise only Name changes; the role stays valid |
| Users.UserCheck | InterviewTracker/Domain/Entities/User.cs:12-23 | Guards in the order id, name, email, role id; the empty id is reported against the parameter "name", as the code does |
| Users.User.constructor | InterviewTracker/Domain/Entities/User.cs:12-23 | Stores every argument |
| Users.User.New | InterviewTracker/Domain/Entities/User.cs:12-23 | Fails exactly when UserCheck fails, with its error; otherwise a fresh valid user holding every argument |
| Users.User.Create | InterviewTracker/Domain/Entities/User.cs:25-28 | Fails iff the name is blank, the email null or the role id empty, with the constructor's error; otherwise a fresh user whose id is non-empty |
| Users.User.SetName | InterviewTracker/Domain/Entities/User.cs:31-39 | A blank name fails and changes nothing; otherwise only Name changes |
| Users.User.SetEmail | InterviewTracker/Domain/Entities/User.cs:42-47 | A null email fails (NullArgument) and changes nothing; otherwise only Email changes |
| Users.User.Role | InterviewTracker/Domain/Entities/User.cs:50-58 | An empty role id fails and changes nothing; otherwise only RoleId changes |
| Documents.AgeCheck | InterviewTracker/Domain/Entities/Requests/Document.cs:44-52 | Refuses exactly the dates strictly before now (PastDate); now itself is accepted |
| Documents.ExperienceCheck | InterviewTracker/Domain/Entities/Requests/Document.cs:54-63 | Refuses exactly the negative values; 0 is accepted |
| Documents.DocumentCheck | InterviewTracker/Domain/Entities/Requests/Document.cs:12-18 | Passes iff name not blank, email present, date not past and experience not negative; errors in that order |
| Documents.Document.constructor | InterviewTracker/Domain/Entities/Requests/Document.cs:12-18 | Stores all four fields unchanged |
| Documents.Document.New | InterviewTracker/Domain/Entities/Requests/Document.cs:12-18 | Fails exactly when DocumentCheck fails, with its error; otherwise a fresh valid document holding the arguments |
| Documents.Document.Create | InterviewTracker/Domain/Entities/Requests/Document.cs:20-23 | Same outcome, error and stored fields as the constructor |
| Documents.Document.SetName | InterviewTracker/Domain/Entities/Requests/Document.cs:26-34 | A blank name fails and changes nothing; otherwise only Name changes |
| Documents.Document.SetEmail | InterviewTracker/Domain/Entities/Requests/Document.cs:37-42 | A null email fails and changes nothing; otherwise only Email changes |
| Documents.Document.SetAge | InterviewTracker/Domain/Entities/Requests/Document.cs:44-52 | A date before now fails and changes nothing; otherwise only Age changes |
| Documents.Document.SetExperience | InterviewTracker/Domain/Entities/Requests/Document.cs:54-63 | A negative value fails and changes nothing; otherwise only Experience changes |
| Events.NewEvent | InterviewTracker/Domain/Entities/Requests/Events/RequestCreateEvent.cs:9-32 | Succeeds iff id and requestId are non-empty and data non-empty, storing exactly the arguments; errors in the order id, requestId, data |
| Events.CreateEvent | InterviewTracker/Domain/Entities/Requests/Events/RequestApproveEvent.cs:34-37 | Succeeds iff requestId non-empty and data non-empty; the event has a non-empty id, the given kind, data and requestId |
| Events.NewEventRoundTrip | InterviewTracker/Domain/Entities/Requests/Events/RequestApproveEvent.cs:9-32 | The constructor returns every well-formed event unchanged and refuses every other one |
| Events.WhiteSpaceDataAccepted | InterviewTracker/Domain/Entities/Requests/Events/RequestApproveEvent.cs:24-27 | Whitespace-only data is accepted (the check is IsNullOrEmpty) |
| Steps.Stamped | InterviewTracker/Domain/Entities/Requests/WorkflowStep.cs:86-91 | Status and both owner ids take the new values; Id, Name, Order and Comment are kept |
| Steps.StepCheck | InterviewTracker/Domain/Entities/Requests/WorkflowStep.cs:15-29 | Passes iff id non-empty, name not blank and comment non-empty; errors in that order |
| Steps.OwnerId | InterviewTracker/Domain/Entities/Requests/WorkflowStep.cs:26 | A null user gives Guid.Empty, otherwise the user's id |
| Steps.Initial | InterviewTracker/Domain/Entities/Requests/WorkflowStep.cs:22-28 | A fresh step has Order 1, the given id, name, status, comment and user id, and Guid.Empty for a null role id |
| Steps.WorkflowStep.constructor | InterviewTracker/Domain/Entities/Requests/WorkflowStep.cs:15-29 | The new step's fields are Initial(...), so Order is 1 |
| Steps.WorkflowStep.New | InterviewTracker/Domain/Entities/Requests/WorkflowStep.cs:15-29 | Fails exactly when StepCheck fails, with its error; otherwise a fresh valid step in its Initial state |
| Steps.WorkflowStep.CreateByRole | InterviewTracker/Domain/Entities/Requests/WorkflowStep.cs:31-34 | Fails iff name blank or comment empty; otherwise UserId is Guid.Empty and RoleId is the role id, Order 1 |
| Steps.WorkflowStep.CreateByUser | InterviewTracker/Domain/Entities/Requests/WorkflowStep.cs:36-39 | Fails iff name blank or comment empty; otherwise UserId is the user's id (Empty for null) and RoleId is Guid.Empty |
| Steps.WorkflowStep.SetName | InterviewTracker/Domain/Entities/Requests/WorkflowStep.cs:42-50 | A blank name fails and changes nothing; otherwise only Name changes |
| Steps.WorkflowStep.SetComment | InterviewTracker/Domain/Entities/Requests/WorkflowStep.cs:76-84 | An empty comment fails, whitespace is accepted; otherwise only Comment changes |
| Steps.WorkflowStep.SetStatus | InterviewTracker/Domain/Entities/Requests/WorkflowStep.cs:86-91 | A null user fails (MissingActor) before any write; otherwise the step becomes Stamped with the user's id and role id |
| Workflows.IsApproveMeaning | InterviewTracker/Domain/Entities/Requests/Workflow.cs:70-74 | The IsApprove expression holds iff there is a step and every step is Approve |
| Workflows.IsRejectMeaning | InterviewTracker/Domain/Entities/Requests/Workflow.cs:76-80 | The IsReject expression holds iff there is a step and every step is Reject |
| Workflows.VerdictsExclusive | InterviewTracker/Domain/Entities/Requests/Workflow.cs:70-80 | IsApprove and IsReject never both hold, and neither holds on an empty workflow |
| Workflows.VerdictExamples | InterviewTracker/Domain/Entities/Requests/Workflow.cs:70-80 | Concrete step lists: a trailing Approve after a Reject is not an approval, all-Reject is a rejection |
| Workflows.FirstPending | InterviewTracker/Domain/Entities/Requests/Request.cs:68 | None iff no step is Pending; otherwise the index of a Pending step with no Pending step before it |
| Workflows.PendingCountAfterDecide | InterviewTracker/Domain/Entities/Requests/Request.cs:68-75 | Deciding a Pending step lowers the Pending count by exactly one |
| Workflows.NoPendingIffCountZero | InterviewTracker/Domain/Entities/Requests/Request.cs:68-73 | There is no Pending step to find exactly when the Pending count is zero |
| Workflows.AllPendingCount | InterviewTracker/Domain/Entities/Requests/Request.cs:95-104 | When every step is Pending, the Pending count is the number of steps |
| Workflows.NextPendingAfterDecide | InterviewTracker/Domain/Entities/Requests/Request.cs:68-75 | After the first Pending step k is decided, the next lookup finds the first Pending step after k |
| Workflows.TwoPendingSteps | InterviewTracker/Domain/Entities/Requests/Request.cs:66-78 | With two Pending steps, successive decisions take step 0, then step 1, then find none |
| Workflows.WorkflowCheck | InterviewTracker/Domain/Entities/Requests/Workflow.cs:16-35 | Passes iff id and template id non-empty, steps present and name non-empty; errors in that order |
| Workflows.Workflow.Statuses | InterviewTracker/Domain/Entities/Requests/Workflow.cs:14 | One status per step, in step order |
| Workflows.Workflow.constructor | InterviewTracker/Domain/Entities/Requests/Workflow.cs:16-35 | Stores id, name, template id and the given steps |
| Workflows.Workflow.New | InterviewTracker/Domain/Entities/Requests/Workflow.cs:16-35 | Fails exactly when WorkflowCheck fails, with its error; otherwise a fresh valid workflow holding the arguments |
| Workflows.Workflow.Create | InterviewTracker/Domain/Entities/Requests/Workflow.cs:37-40 | Fails iff the template id or the name is empty, with the constructor's error; otherwise a fresh workflow with no steps |
| Workflows.Workflow.SetName | InterviewTracker/Domain/Entities/Requests/Workflow.cs:43-51 | An empty name fails, a whitespace name is accepted; otherwise only Name changes |
| Workflows.Workflow.AddStep | InterviewTracker/Domain/Entities/Requests/Workflow.cs:53-63 | Both or neither owner: nothing changes. One owner: the step factory's outcome; on success exactly one fresh step is appended, owned by that role or user only |
| Workflows.Workflow.Restart | InterviewTracker/Domain/Entities/Requests/Workflow.cs:65-68 | The step list becomes empty and the name is kept, so a second call changes nothing more |
| Workflows.Workflow.FirstPendingStep | InterviewTracker/Domain/Entities/Requests/Request.cs:68 | The one step Approve and Reject may change: the first Pending one, or none |
| Workflows.Workflow.StampFirstPending | InterviewTracker/Domain/Entities/Requests/Request.cs:68-75 | No Pending step: fails. Otherwise stamps only the first Pending step (or nothing, for a null user), and the Pending count drops by one |
| Workflows.Workflow.IsApprove | InterviewTracker/Domain/Entities/Requests/Workflow.cs:70-74 | True iff there is a step and every step is Approve |
| Workflows.Workflow.IsReject | InterviewTracker/Domain/Entities/Requests/Workflow.cs:76-80 | True iff there is a step and every step is Reject |
| Requests.RequestCheck | InterviewTracker/Domain/Entities/Requests/Request.cs:16-27 | Passes iff id non-empty and user, document and workflow present; errors in the order id, user, document, workflow |
| Requests.Request.constructor | InterviewTracker/Domain/Entities/Requests/Request.cs:16-27 | Stores the arguments; the event log starts empty |
| Requests.Request.New | InterviewTracker/Domain/Entities/Requests/Request.cs:16-27 | Fails exactly when RequestCheck fails, with its error; otherwise a fresh valid request with an empty log |
| Requests.Request.Create | InterviewTracker/Domain/Entities/Requests/Request.cs:29-39 | Fails iff user, document or workflow is null; otherwise the log is exactly one create event about the request itself |
| Requests.Request.SetUser | InterviewTracker/Domain/Entities/Requests/Request.cs:42-47 | A null user fails and changes nothing; otherwise only User changes |
| Requests.Request.SetWorkflow | InterviewTracker/Domain/Entities/Requests/Request.cs:50-55 | A null workflow fails and changes nothing; otherwise only Workflow changes |
| Requests.Request.SetDocument | InterviewTracker/Domain/Entities/Requests/Request.cs:58-63 | A null document fails and changes nothing; otherwise only Document changes |
| Requests.Request.Decide | InterviewTracker/Domain/Entities/Requests/Request.cs:66-93 | The shared half of Approve and Reject, with the same contract for a given verdict and event kind |
| Requests.Request.Log | InterviewTracker/Domain/Entities/Requests/Request.cs:77 | The event is appended to the end of the log, earlier events kept; user, document, workflow and the step statuses are unchanged |
| Requests.Request.Approve | InterviewTracker/Domain/Entities/Requests/Request.cs:66-78 | No Pending step: fails, nothing changes. Otherwise only the first Pending step becomes Approve with the actor's ids, one approve event about this request is appended, and the Pending count drops by one. A null actor fails before any change |
| Requests.Request.Reject | InterviewTracker/Domain/Entities/Requests/Request.cs:81-93 | As Approve, with the Reject status and a reject event |
| Requests.Request.Restart | InterviewTracker/Domain/Entities/Requests/Request.cs:95-104 | Every step becomes Pending, restamped with the request's own user's ids; step count, order and log are kept; the Pending count equals the number of steps |
| Templates.New | InterviewTracker/Domain/Entities/Templates/WorkflowStepTemplate.cs:10-30 | Succeeds iff name not blank, user id and role id non-empty; errors in the order name, user id, role id; stores the arguments with Order 0 |
| Templates.Create | InterviewTracker/Domain/Entities/Templates/WorkflowStepTemplate.cs:32-35 | Same outcome, error and fields as the constructor |
| Templates.NewRoundTrip | InterviewTracker/Domain/Entities/Templates/WorkflowStepTemplate.cs:10-30 | Every valid template is rebuilt unchanged from its own fields |
| Templates.NameCheckedFirst | InterviewTracker/Domain/Entities/Templates/WorkflowStepTemplate.cs:12-25 | A blank name is reported even when both ids are empty |
| TemplateSteps.SetName | InterviewTracker/Domain/Entities/WorkflowTemplate/WorkflowStepTemplate.cs:25-33 | Passes iff the name has a non-whitespace character |
| TemplateSteps.SetUser | InterviewTracker/Domain/Entities/WorkflowTemplate/WorkflowStepTemplate.cs:41-49 | Passes iff the user id is non-empty |
| TemplateSteps.SetRole | InterviewTracker/Domain/Entities/WorkflowTemplate/WorkflowStepTemplate.cs:52-60 | Passes iff the role id is non-empty |
| TemplateSteps.New | InterviewTracker/Domain/Entities/WorkflowTemplate/WorkflowStepTemplate.cs:12-17 | Succeeds iff all three setters pass; the first failing setter decides the error; stores the arguments with Order 0 |
| TemplateSteps.Create | InterviewTracker/Domain/Entities/WorkflowTemplate/WorkflowStepTemplate.cs:19-22 | Same outcome, error and fields as the constructor |
| TemplateSteps.NewRoundTrip | InterviewTracker/Domain/Entities/WorkflowTemplate/WorkflowStepTemplate.cs:12-17 | Every valid template is rebuilt unchanged from its own fields |
| TemplateSteps.AgreesWithTemplates | InterviewTracker/Domain/Entities/WorkflowTemplate/WorkflowStepTemplate.cs:12-60 | The setter-based constructor and the inline-guard one accept the same arguments, raise the same error and store the same fields |
| WorkflowTemplates.WorkflowTemplateCheck | InterviewTracker/Domain/Entities/WorkflowTemplate/WorkflowTemplate.cs:14-26 | Passes iff id non-empty, steps present and name non-empty; errors in that order |
| WorkflowTemplates.GeneratedStep | InterviewTracker/Domain/Entities/WorkflowTemplate/WorkflowTemplate.cs:52-64 | A generated step is Pending with the template's name, Order 1 and comment "Add step"; a template with a UserId gives a step owned by the requester and no role, one without gives a step owned by the template's role and no user |
| WorkflowTemplates.ValidTemplateGivesRequesterStep | InterviewTracker/Domain/Entities/WorkflowTemplate/WorkflowTemplate.cs:53 | Every constructed template has a UserId, so its step belongs to the requesting user and to no role |
| WorkflowTemplates.WorkflowTemplate.constructor | InterviewTracker/Domain/Entities/WorkflowTemplate/WorkflowTemplate.cs:14-26 | Stores id, name and steps |
| WorkflowTemplates.WorkflowTemplate.New | InterviewTracker/Domain/Entities/WorkflowTemplate/WorkflowTemplate.cs:14-26 | Fails exactly when WorkflowTemplateCheck fails, with its error; otherwise a fresh valid template holding the arguments, every step template valid |
| WorkflowTemplates.WorkflowTemplate.Create | InterviewTracker/Domain/Entities/WorkflowTemplate/WorkflowTemplate.cs:28-31 | Fails iff the name is empty; otherwise a fresh template with no steps |
| WorkflowTemplates.WorkflowTemplate.SetName | InterviewTracker/Domain/Entities/WorkflowTemplate/WorkflowTemplate.cs:34-42 | An empty name fails and changes nothing; otherwise only Name changes |
| WorkflowTemplates.WorkflowTemplate.GenerateSteps | InterviewTracker/Domain/Entities/WorkflowTemplate/WorkflowTemplate.cs:52-64 | Fails iff some template step name is blank; otherwise one fresh, distinct, valid step per template step, in order, each its GeneratedStep |
| WorkflowTemplates.WorkflowTemplate.CreateRequest | InterviewTracker/Domain/Entities/WorkflowTemplate/WorkflowTemplate.cs:44-65 | Fails iff the user is null or the document is null, in that order, with Request.Create's error. Otherwise a fresh request with the given user and document and one create event. Its workflow has the template's name and id and one generated step per template step, each owned by the requester |

## Left out

- `Guid.NewGuid()`, `DateTime.Now` and `DateTime.UtcNow` are parameters. Fresh ids are any non-empty value. "Now" is an explicit argument of the Document operations. The timestamped event text is any non-empty string.
- Exception message text is not modelled. Only the exception's kind and the argument it names are kept.
- Null strings are modelled as "". Every string guard in the core treats null and "" alike.
- `Emails.NewEmail`: the culture-sensitive `Contains('@', StringComparison.InvariantCultureIgnoreCase)` is modelled as ordinal membership `'@' in s`. The two agree on ASCII values. They can differ where an '@' is followed by a combining mark or joiner, or on width and compatibility variants of '@'.
- `Emails.NewEmail`: `new Email(null)` throws a NullReferenceException from `value.Contains`. Here a null value is "" and is refused with InvalidEmail.
- `Workflows.Workflow.Create`: the template type it takes is not part of this model, so the template's Id is passed directly.
- The `Status` enum and `RequestRejectEvent` are not part of this model. Status is assumed to be exactly Pending, Approve and Reject. The reject event is assumed to have the approve event's shape.
- The `IEvent` interface is folded into one `Event` datatype with a kind (Created, Approved, Rejected).
- Reference aliasing is not modelled:
  - A Workflow is taken to own its step objects. `Workflows.Workflow.New` requires the steps to be distinct, valid objects.
  - The Request and WorkflowTemplate operations require their user, document and workflow arguments to be valid when present.
  - `WorkflowTemplates.WorkflowTemplate.New` requires every step template to satisfy its constructor's guards. A step template built any other way cannot exist in the source.
  - The C# Workflow keeps the caller's list by reference, and the read-only collections expose mutable step objects. Neither is modelled.
- WorkflowStep's private `SetUser` and `SetRole` are never called and are not modelled.
- WorkflowStep's `SetOrder` runs only inside the constructor, so it is folded into `Steps.WorkflowStep.constructor`. Order starts at 0 and is bumped once.
- The `Workflow?.` null test in Approve, Reject and Restart cannot fail here, because a Request always holds a workflow.
- `[MemberNotNull]` attributes have no behaviour and are left out.
- Some of the repository's tests disagree with the code, and the model follows the code:
  - `RequestTests.cs` builds Documents dated 1980 or 2000, which `SetAge` refuses because the date is before now.
  - `DocumentTests.cs` expects the experience error for a document dated 1980. The age guard runs first and fails first.
  - In each test that builds such a Document before acting (for instance lines 142-146, 168-172 and 193-197), building the Document throws, at the latest when its date is refused. `AddStep`, `Approve`, `Reject` and `Restart` are never reached.
  - `Restart_ShouldSetAllStepsToPendingStatus` (lines 137-160) expects no exception, so the refused Document makes it fail.
  - Every `AddStep` call in `RequestTests.cs` (lines 85, 109, 151-152, 177-178, 203 and 228) passes both a user and a role id. Even with an accepted Document, none of them would add a step.
  - So even with an accepted Document, the three Approve cases (expectations at lines 115, 184 and 209) would fail on a workflow with no Pending step, and the Restart test's workflow would stay empty.
  - The three Approve cases expect the message "No stand by statuses found". Approve's message is "No standby statuses found"; the former is Reject's.
