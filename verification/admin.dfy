/** The admin-service protobuf messages the authorization layer looks into.
    A message field that holds another message is an `Option`: `None` is a nil
    message, on which every generated getter returns the zero value. */
module Admin {
  import opened Wrappers

  /** The project-carrying part of core.Identifier, admin.NamedEntityIdentifier and
      core.WorkflowExecutionIdentifier (they differ only in fields not read here). */
  datatype Identifier = Identifier(project: string, domain: string, name: string)

  /** core.NodeExecutionIdentifier. */
  datatype NodeExecutionIdentifier = NodeExecutionIdentifier(nodeId: string, executionId: Option<Identifier>)

  /** core.TaskExecutionIdentifier. */
  datatype TaskExecutionIdentifier = TaskExecutionIdentifier(
    taskId: Option<Identifier>, nodeExecutionId: Option<NodeExecutionIdentifier>, retryAttempt: nat)

  /** The project-carrying part of admin.ProjectDomainAttributes, admin.ProjectAttributes
      and admin.WorkflowAttributes. */
  datatype Attributes = Attributes(project: string, domain: string)

  /** admin.Project. */
  datatype Project = Project(id: string, name: string)

  /** admin.Sort.Direction; DESCENDING is the enum's zero value. */
  datatype SortDirection = Descending | Ascending

  /** admin.Sort: the field a listing is ordered by, and in which direction. */
  datatype Sort = Sort(key: string, direction: SortDirection)

  /** admin.ProjectListRequest; `None` in `sortBy` is an unset message field. */
  datatype ProjectListRequest =
    ProjectListRequest(limit: nat, token: string, filters: string, sortBy: Option<Sort>)

  /** The ProjectListRequest with every field at its default. */
  const DefaultProjectListRequest := ProjectListRequest(0, "", "", None)

  /** Getters on a possibly nil message: nil yields the zero value. */
  function GetProject(id: Option<Identifier>): (p: string)
    ensures id.None? ==> p == ""
    ensures id.Some? ==> p == id.value.project
  {
    if id.Some? then id.value.project else ""
  }

  function GetExecutionId(id: Option<NodeExecutionIdentifier>): (e: Option<Identifier>)
    ensures id.None? ==> e.None?
  {
    if id.Some? then id.value.executionId else None
  }

  function GetTaskId(id: Option<TaskExecutionIdentifier>): (t: Option<Identifier>)
    ensures id.None? ==> t.None?
  {
    if id.Some? then id.value.taskId else None
  }

  function GetAttributesProject(a: Option<Attributes>): (p: string)
    ensures a.None? ==> p == ""
  {
    if a.Some? then a.value.project else ""
  }

  function GetProjectId(p: Option<Project>): (id: string)
    ensures p.None? ==> id == ""
  {
    if p.Some? then p.value.id else ""
  }

  /** A decoded admin-service request, one constructor per message type. Fields the
      authorization layer never reads are left out. */
  datatype Request =
    | TaskCreateRequest(id: Option<Identifier>)
    | ObjectGetRequest(id: Option<Identifier>)
    | NamedEntityIdentifierListRequest(project: string, domain: string)
    | ResourceListRequest(id: Option<Identifier>)
    | WorkflowCreateRequest(id: Option<Identifier>)
    | LaunchPlanCreateRequest(id: Option<Identifier>)
    | ActiveLaunchPlanRequest(id: Option<Identifier>)
    | ActiveLaunchPlanListRequest(project: string, domain: string)
    | LaunchPlanUpdateRequest(id: Option<Identifier>)
    | ExecutionCreateRequest(project: string, domain: string, name: string)
    | ExecutionRelaunchRequest(id: Option<Identifier>)
    | ExecutionRecoverRequest(id: Option<Identifier>)
    | WorkflowExecutionGetRequest(id: Option<Identifier>)
    | ExecutionUpdateRequest(id: Option<Identifier>)
    | WorkflowExecutionGetDataRequest(id: Option<Identifier>)
    | ExecutionTerminateRequest(id: Option<Identifier>)
    | NodeExecutionGetRequest(nodeExecutionId: Option<NodeExecutionIdentifier>)
    | GetDynamicNodeWorkflowRequest(nodeExecutionId: Option<NodeExecutionIdentifier>)
    | NodeExecutionListRequest(workflowExecutionId: Option<Identifier>)
    | NodeExecutionForTaskListRequest(taskExecutionId: Option<TaskExecutionIdentifier>)
    | NodeExecutionGetDataRequest(nodeExecutionId: Option<NodeExecutionIdentifier>)
    | ProjectRegisterRequest(registered: Option<Project>)
    | ProjectMessage(projectValue: Project)
    | ProjectListMessage(listRequest: ProjectListRequest)
    | WorkflowExecutionEventRequest(requestId: string)
    | NodeExecutionEventRequest(requestId: string)
    | TaskExecutionEventRequest(requestId: string)
    | TaskExecutionGetRequest(taskExecutionId: Option<TaskExecutionIdentifier>)
    | TaskExecutionListRequest(nodeExecutionId: Option<NodeExecutionIdentifier>)
    | TaskExecutionGetDataRequest(taskExecutionId: Option<TaskExecutionIdentifier>)
    | ProjectDomainAttributesUpdateRequest(attributes: Option<Attributes>)
    | ProjectDomainAttributesGetRequest(project: string, domain: string)
    | ProjectDomainAttributesDeleteRequest(project: string, domain: string)
    | ProjectAttributesUpdateRequest(attributes: Option<Attributes>)
    | ProjectAttributesGetRequest(project: string)
    | ProjectAttributesDeleteRequest(project: string)
    | WorkflowAttributesUpdateRequest(attributes: Option<Attributes>)
    | WorkflowAttributesGetRequest(project: string, domain: string)
    | WorkflowAttributesDeleteRequest(project: string, domain: string)
    | ListMatchableAttributesRequest(project: string)
    | NamedEntityListRequest(project: string, domain: string)
    | NamedEntityGetRequest(id: Option<Identifier>)
    | NamedEntityUpdateRequest(id: Option<Identifier>)
    | GetVersionRequest
    | DescriptionEntityListRequest(id: Option<Identifier>)
    | WorkflowExecutionGetMetricsRequest(id: Option<Identifier>)
    | UnknownRequest

  /** admin.Projects, the response of ListProjects; its project list is replaced in place. */
  class Projects {
    var projects: seq<Project>

    constructor (ps: seq<Project>)
      ensures projects == ps
    {
      projects := ps;
    }
  }
}
