/** The table from admin-service RPC name to the function that reads the target
    project out of that RPC's request. RPCs absent from the table are not scoped
    to a project. */
module ProjectId {
  import opened Wrappers
  import opened Admin

  /** The admin-service RPCs that have an entry in the method table. */
  datatype AdminRpc =
      CreateTask | GetTask | ListTaskIds | ListTasks | CreateWorkflow | GetWorkflow
    | ListWorkflowIds | ListWorkflows | CreateLaunchPlan | GetLaunchPlan | GetActiveLaunchPlan
    | ListActiveLaunchPlans | ListLaunchPlanIds | ListLaunchPlans | UpdateLaunchPlan
    | CreateExecution | RelaunchExecution | RecoverExecution | GetExecution | UpdateExecution
    | GetExecutionData | ListExecutions | TerminateExecution | GetNodeExecution
    | GetDynamicNodeWorkflow | ListNodeExecutions | ListNodeExecutionsForTask
    | GetNodeExecutionData | RegisterProject | UpdateProject | ListProjects
    | CreateWorkflowEvent | CreateNodeEvent | CreateTaskEvent | GetTaskExecution
    | ListTaskExecutions | GetTaskExecutionData | UpdateProjectDomainAttributes
    | GetProjectDomainAttributes | DeleteProjectDomainAttributes | UpdateProjectAttributes
    | GetProjectAttributes | DeleteProjectAttributes | UpdateWorkflowAttributes
    | GetWorkflowAttributes | DeleteWorkflowAttributes | ListNamedEntities | GetNamedEntity
    | UpdateNamedEntity | GetDescriptionEntity | ListDescriptionEntities | GetExecutionMetrics

  /** The gRPC service prefix of every admin-service method name. */
  const ServicePrefix := "/flyteidl.service.AdminService/"

  /** The method name of an RPC within the admin service. */
  function RpcName(rpc: AdminRpc): string
  {
    match rpc
    case CreateTask => "CreateTask"
    case GetTask => "GetTask"
    case ListTaskIds => "ListTaskIds"
    case ListTasks => "ListTasks"
    case CreateWorkflow => "CreateWorkflow"
    case GetWorkflow => "GetWorkflow"
    case ListWorkflowIds => "ListWorkflowIds"
    case ListWorkflows => "ListWorkflows"
    case CreateLaunchPlan => "CreateLaunchPlan"
    case GetLaunchPlan => "GetLaunchPlan"
    case GetActiveLaunchPlan => "GetActiveLaunchPlan"
    case ListActiveLaunchPlans => "ListActiveLaunchPlans"
    case ListLaunchPlanIds => "ListLaunchPlanIds"
    case ListLaunchPlans => "ListLaunchPlans"
    case UpdateLaunchPlan => "UpdateLaunchPlan"
    case CreateExecution => "CreateExecution"
    case RelaunchExecution => "RelaunchExecution"
    case RecoverExecution => "RecoverExecution"
    case GetExecution => "GetExecution"
    case UpdateExecution => "UpdateExecution"
    case GetExecutionData => "GetExecutionData"
    case ListExecutions => "ListExecutions"
    case TerminateExecution => "TerminateExecution"
    case GetNodeExecution => "GetNodeExecution"
    case GetDynamicNodeWorkflow => "GetDynamicNodeWorkflow"
    case ListNodeExecutions => "ListNodeExecutions"
    case ListNodeExecutionsForTask => "ListNodeExecutionsForTask"
    case GetNodeExecutionData => "GetNodeExecutionData"
    case RegisterProject => "RegisterProject"
    case UpdateProject => "UpdateProject"
    case ListProjects => "ListProjects"
    case CreateWorkflowEvent => "CreateWorkflowEvent"
    case CreateNodeEvent => "CreateNodeEvent"
    case CreateTaskEvent => "CreateTaskEvent"
    case GetTaskExecution => "GetTaskExecution"
    case ListTaskExecutions => "ListTaskExecutions"
    case GetTaskExecutionData => "GetTaskExecutionData"
    case UpdateProjectDomainAttributes => "UpdateProjectDomainAttributes"
    case GetProjectDomainAttributes => "GetProjectDomainAttributes"
    case DeleteProjectDomainAttributes => "DeleteProjectDomainAttributes"
    case UpdateProjectAttributes => "UpdateProjectAttributes"
    case GetProjectAttributes => "GetProjectAttributes"
    case DeleteProjectAttributes => "DeleteProjectAttributes"
    case UpdateWorkflowAttributes => "UpdateWorkflowAttributes"
    case GetWorkflowAttributes => "GetWorkflowAttributes"
    case DeleteWorkflowAttributes => "DeleteWorkflowAttributes"
    case ListNamedEntities => "ListNamedEntities"
    case GetNamedEntity => "GetNamedEntity"
    case UpdateNamedEntity => "UpdateNamedEntity"
    case GetDescriptionEntity => "GetDescriptionEntity"
    case ListDescriptionEntities => "ListDescriptionEntities"
    case GetExecutionMetrics => "GetExecutionMetrics"
  }

  /** The full gRPC method name of an RPC. */
  function FullMethodName(rpc: AdminRpc): string
  {
    ServicePrefix + RpcName(rpc)
  }

  // Two admin-service RPCs that are deliberately left out of the method table.
  const ListMatchableAttributesMethod := "/flyteidl.service.AdminService/ListMatchableAttributes"
  const GetVersionMethod := "/flyteidl.service.AdminService/GetVersion"

  /** The registered RPC with the given method name, or None for a name without an
      entry. Names are told apart by length first, then by their text. */
  function RpcByName(name: string): (r: Option<AdminRpc>)
  {
    match |name|
    case 7 =>
      (match name
      case "GetTask" => Some(GetTask)
      case _ => None)
    case 9 =>
      (match name
      case "ListTasks" => Some(ListTasks)
      case _ => None)
    case 10 =>
      (match name
      case "CreateTask" => Some(CreateTask)
      case _ => None)
    case 11 =>
      (match name
      case "ListTaskIds" => Some(ListTaskIds)
      case "GetWorkflow" => Some(GetWorkflow)
      case _ => None)
    case 12 =>
      (match name
      case "GetExecution" => Some(GetExecution)
      case "ListProjects" => Some(ListProjects)
      case _ => None)
    case 13 =>
      (match name
      case "ListWorkflows" => Some(ListWorkflows)
      case "GetLaunchPlan" => Some(GetLaunchPlan)
      case "UpdateProject" => Some(UpdateProject)
      case _ => None)
    case 14 =>
      (match name
      case "CreateWorkflow" => Some(CreateWorkflow)
      case "ListExecutions" => Some(ListExecutions)
      case "GetNamedEntity" => Some(GetNamedEntity)
      case _ => None)
    case 15 =>
      (match name
      case "ListWorkflowIds" => Some(ListWorkflowIds)
      case "ListLaunchPlans" => Some(ListLaunchPlans)
      case "CreateExecution" => Some(CreateExecution)
      case "UpdateExecution" => Some(UpdateExecution)
      case "RegisterProject" => Some(RegisterProject)
      case "CreateNodeEvent" => Some(CreateNodeEvent)
      case "CreateTaskEvent" => Some(CreateTaskEvent)
      case _ => None)
    case 16 =>
      (match name
      case "CreateLaunchPlan" => Some(CreateLaunchPlan)
      case "UpdateLaunchPlan" => Some(UpdateLaunchPlan)
      case "RecoverExecution" => Some(RecoverExecution)
      case "GetExecutionData" => Some(GetExecutionData)
      case "GetNodeExecution" => Some(GetNodeExecution)
      case "GetTaskExecution" => Some(GetTaskExecution)
      case _ => None)
    case 17 =>
      (match name
      case "ListLaunchPlanIds" => Some(ListLaunchPlanIds)
      case "RelaunchExecution" => Some(RelaunchExecution)
      case "ListNamedEntities" => Some(ListNamedEntities)
      case "UpdateNamedEntity" => Some(UpdateNamedEntity)
      case _ => None)
    case 18 =>
      (match name
      case "TerminateExecution" => Some(TerminateExecution)
      case "ListNodeExecutions" => Some(ListNodeExecutions)
      case "ListTaskExecutions" => Some(ListTaskExecutions)
      case _ => None)
    case 19 =>
      (match name
      case "GetActiveLaunchPlan" => Some(GetActiveLaunchPlan)
      case "CreateWorkflowEvent" => Some(CreateWorkflowEvent)
      case "GetExecutionMetrics" => Some(GetExecutionMetrics)
      case _ => None)
    case 20 =>
      (match name
      case "GetNodeExecutionData" => Some(GetNodeExecutionData)
      case "GetTaskExecutionData" => Some(GetTaskExecutionData)
      case "GetProjectAttributes" => Some(GetProjectAttributes)
      case "GetDescriptionEntity" => Some(GetDescriptionEntity)
      case _ => None)
    case 21 =>
      (match name
      case "ListActiveLaunchPlans" => Some(ListActiveLaunchPlans)
      case "GetWorkflowAttributes" => Some(GetWorkflowAttributes)
      case _ => None)
    case 22 =>
      (match name
      case "GetDynamicNodeWorkflow" => Some(GetDynamicNodeWorkflow)
      case _ => None)
    case 23 =>
      (match name
      case "UpdateProjectAttributes" => Some(UpdateProjectAttributes)
      case "DeleteProjectAttributes" => Some(DeleteProjectAttributes)
      case "ListDescriptionEntities" => Some(ListDescriptionEntities)
      case _ => None)
    case 24 =>
      (match name
      case "UpdateWorkflowAttributes" => Some(UpdateWorkflowAttributes)
      case "DeleteWorkflowAttributes" => Some(DeleteWorkflowAttributes)
      case _ => None)
    case 25 =>
      (match name
      case "ListNodeExecutionsForTask" => Some(ListNodeExecutionsForTask)
      case _ => None)
    case 26 =>
      (match name
      case "GetProjectDomainAttributes" => Some(GetProjectDomainAttributes)
      case _ => None)
    case 29 =>
      (match name
      case "UpdateProjectDomainAttributes" => Some(UpdateProjectDomainAttributes)
      case "DeleteProjectDomainAttributes" => Some(DeleteProjectDomainAttributes)
      case _ => None)
    case _ => None
  }

  /** The method table's keys: the registered RPC a full method name denotes, or
      None for a name without an entry. Only the full method names of RPCs are keys. */
  function Methods(fullMethod: string): (r: Option<AdminRpc>)
    ensures r.Some? ==> ServicePrefix <= fullMethod
  {
    if ServicePrefix <= fullMethod then RpcByName(fullMethod[|ServicePrefix|..]) else None
  }

  /** Every registered RPC is found again under its own full method name. */
  lemma MethodsFindsEveryRpc(rpc: AdminRpc)
    ensures Methods(FullMethodName(rpc)) == Some(rpc)
  {
    var full := FullMethodName(rpc);
    assert ServicePrefix <= full && full[|ServicePrefix|..] == RpcName(rpc);
    NameFindsRpc(rpc);
  }

  /** The RPCs whose names have at most 16 characters. It splits the proof that
      the lookup finds every RPC in two. */
  predicate HasShortName(rpc: AdminRpc)
  {
    match rpc
    case CreateTask | GetTask | ListTaskIds | ListTasks | CreateWorkflow |
      GetWorkflow | ListWorkflowIds | ListWorkflows | CreateLaunchPlan |
      GetLaunchPlan | ListLaunchPlans | UpdateLaunchPlan | CreateExecution |
      RecoverExecution | GetExecution | UpdateExecution | GetExecutionData |
      ListExecutions | GetNodeExecution | RegisterProject | UpdateProject |
      ListProjects | CreateNodeEvent | CreateTaskEvent | GetTaskExecution |
      GetNamedEntity => true
    case _ => false
  }

  /** The lookup by name finds every registered RPC under its own name. */
  lemma NameFindsRpc(rpc: AdminRpc)
    ensures RpcByName(RpcName(rpc)) == Some(rpc)
  {
    if HasShortName(rpc) {
      ShortNameFindsRpc(rpc);
    } else {
      LongNameFindsRpc(rpc);
    }
  }

  lemma ShortNameFindsRpc(rpc: AdminRpc)
    requires HasShortName(rpc)
    ensures RpcByName(RpcName(rpc)) == Some(rpc)
  {
    NamesUpTo14Found();
    Names15To16Found();
    match rpc
    case CreateTask =>
    case GetTask =>
    case ListTaskIds =>
    case ListTasks =>
    case CreateWorkflow =>
    case GetWorkflow =>
    case ListWorkflowIds =>
    case ListWorkflows =>
    case CreateLaunchPlan =>
    case GetLaunchPlan =>
    case ListLaunchPlans =>
    case UpdateLaunchPlan =>
    case CreateExecution =>
    case RecoverExecution =>
    case GetExecution =>
    case UpdateExecution =>
    case GetExecutionData =>
    case ListExecutions =>
    case GetNodeExecution =>
    case RegisterProject =>
    case UpdateProject =>
    case ListProjects =>
    case CreateNodeEvent =>
    case CreateTaskEvent =>
    case GetTaskExecution =>
    case GetNamedEntity =>
  }

  lemma LongNameFindsRpc(rpc: AdminRpc)
    requires !HasShortName(rpc)
    ensures RpcByName(RpcName(rpc)) == Some(rpc)
  {
    Names17To20Found();
    Names21To23Found();
    Names24To29Found();
    match rpc
    case GetActiveLaunchPlan =>
    case ListActiveLaunchPlans =>
    case ListLaunchPlanIds =>
    case RelaunchExecution =>
    case TerminateExecution =>
    case GetDynamicNodeWorkflow =>
    case ListNodeExecutions =>
    case ListNodeExecutionsForTask =>
    case GetNodeExecutionData =>
    case CreateWorkflowEvent =>
    case ListTaskExecutions =>
    case GetTaskExecutionData =>
    case UpdateProjectDomainAttributes =>
    case GetProjectDomainAttributes =>
    case DeleteProjectDomainAttributes =>
    case UpdateProjectAttributes =>
    case GetProjectAttributes =>
    case DeleteProjectAttributes =>
    case UpdateWorkflowAttributes =>
    case GetWorkflowAttributes =>
    case DeleteWorkflowAttributes =>
    case ListNamedEntities =>
    case UpdateNamedEntity =>
    case GetDescriptionEntity =>
    case ListDescriptionEntities =>
    case GetExecutionMetrics =>
  }

  /** The lookup finds each registered name of 7 to 14 characters. */
  lemma NamesUpTo14Found()
    ensures RpcByName("GetTask") == Some(GetTask)
    ensures RpcByName("ListTasks") == Some(ListTasks)
    ensures RpcByName("CreateTask") == Some(CreateTask)
    ensures RpcByName("ListTaskIds") == Some(ListTaskIds)
    ensures RpcByName("GetWorkflow") == Some(GetWorkflow)
    ensures RpcByName("GetExecution") == Some(GetExecution)
    ensures RpcByName("ListProjects") == Some(ListProjects)
    ensures RpcByName("ListWorkflows") == Some(ListWorkflows)
    ensures RpcByName("GetLaunchPlan") == Some(GetLaunchPlan)
    ensures RpcByName("UpdateProject") == Some(UpdateProject)
    ensures RpcByName("CreateWorkflow") == Some(CreateWorkflow)
    ensures RpcByName("ListExecutions") == Some(ListExecutions)
    ensures RpcByName("GetNamedEntity") == Some(GetNamedEntity)
  {
  }

  /** The lookup finds each registered name of 15 or 16 characters. */
  lemma Names15To16Found()
    ensures RpcByName("ListWorkflowIds") == Some(ListWorkflowIds)
    ensures RpcByName("ListLaunchPlans") == Some(ListLaunchPlans)
    ensures RpcByName("CreateExecution") == Some(CreateExecution)
    ensures RpcByName("UpdateExecution") == Some(UpdateExecution)
    ensures RpcByName("RegisterProject") == Some(RegisterProject)
    ensures RpcByName("CreateNodeEvent") == Some(CreateNodeEvent)
    ensures RpcByName("CreateTaskEvent") == Some(CreateTaskEvent)
    ensures RpcByName("CreateLaunchPlan") == Some(CreateLaunchPlan)
    ensures RpcByName("UpdateLaunchPlan") == Some(UpdateLaunchPlan)
    ensures RpcByName("RecoverExecution") == Some(RecoverExecution)
    ensures RpcByName("GetExecutionData") == Some(GetExecutionData)
    ensures RpcByName("GetNodeExecution") == Some(GetNodeExecution)
    ensures RpcByName("GetTaskExecution") == Some(GetTaskExecution)
  {
  }

  /** The lookup finds each registered name of 17 to 20 characters. */
  lemma Names17To20Found()
    ensures RpcByName("ListLaunchPlanIds") == Some(ListLaunchPlanIds)
    ensures RpcByName("RelaunchExecution") == Some(RelaunchExecution)
    ensures RpcByName("ListNamedEntities") == Some(ListNamedEntities)
    ensures RpcByName("UpdateNamedEntity") == Some(UpdateNamedEntity)
    ensures RpcByName("TerminateExecution") == Some(TerminateExecution)
    ensures RpcByName("ListNodeExecutions") == Some(ListNodeExecutions)
    ensures RpcByName("ListTaskExecutions") == Some(ListTaskExecutions)
    ensures RpcByName("GetActiveLaunchPlan") == Some(GetActiveLaunchPlan)
    ensures RpcByName("CreateWorkflowEvent") == Some(CreateWorkflowEvent)
    ensures RpcByName("GetExecutionMetrics") == Some(GetExecutionMetrics)
    ensures RpcByName("GetNodeExecutionData") == Some(GetNodeExecutionData)
    ensures RpcByName("GetTaskExecutionData") == Some(GetTaskExecutionData)
    ensures RpcByName("GetProjectAttributes") == Some(GetProjectAttributes)
    ensures RpcByName("GetDescriptionEntity") == Some(GetDescriptionEntity)
  {
  }

  /** The lookup finds each registered name of 21 to 23 characters. */
  lemma Names21To23Found()
    ensures RpcByName("ListActiveLaunchPlans") == Some(ListActiveLaunchPlans)
    ensures RpcByName("GetWorkflowAttributes") == Some(GetWorkflowAttributes)
    ensures RpcByName("GetDynamicNodeWorkflow") == Some(GetDynamicNodeWorkflow)
    ensures RpcByName("UpdateProjectAttributes") == Some(UpdateProjectAttributes)
    ensures RpcByName("DeleteProjectAttributes") == Some(DeleteProjectAttributes)
    ensures RpcByName("ListDescriptionEntities") == Some(ListDescriptionEntities)
  {
  }

  /** The lookup finds each registered name of 24 to 29 characters. */
  lemma Names24To29Found()
    ensures RpcByName("UpdateWorkflowAttributes") == Some(UpdateWorkflowAttributes)
    ensures RpcByName("DeleteWorkflowAttributes") == Some(DeleteWorkflowAttributes)
    ensures RpcByName("ListNodeExecutionsForTask") == Some(ListNodeExecutionsForTask)
    ensures RpcByName("GetProjectDomainAttributes") == Some(GetProjectDomainAttributes)
    ensures RpcByName("UpdateProjectDomainAttributes") == Some(UpdateProjectDomainAttributes)
    ensures RpcByName("DeleteProjectDomainAttributes") == Some(DeleteProjectDomainAttributes)
  {
  }

  /** The RPC a full method name belongs to, if any, is the one the table finds. */
  lemma RpcNamedByMethod(fullMethod: string)
    ensures forall rpc :: fullMethod == FullMethodName(rpc) ==> Methods(fullMethod) == Some(rpc)
  {
    forall rpc | fullMethod == FullMethodName(rpc)
      ensures Methods(fullMethod) == Some(rpc)
    {
      MethodsFindsEveryRpc(rpc);
    }
  }

  /** Decimal digits of a natural number. */
  function NatToString(n: nat): (s: string)
    ensures s != []
    decreases n
  {
    var d := ['0' + (n % 10) as char];
    if n < 10 then d else NatToString(n / 10) + d
  }

  /** The compact text rendering of a ProjectListRequest: one `name:value` entry per
      field that differs from its default, separated by spaces; a set message field
      renders as `name:{…}` around its own entries, even when they are all default;
      a nil message renders as "<nil>". */
  function ProjectListText(r: Option<ProjectListRequest>): (s: string)
    ensures r.None? ==> s == "<nil>"
    ensures r.Some? ==> (s == "" <==> r.value == DefaultProjectListRequest)
  {
    match r
    case None => "<nil>"
    case Some(req) =>
      var parts :=
        (if req.limit != 0 then ["limit:" + NatToString(req.limit)] else []) +
        (if req.token != "" then ["token:\"" + req.token + "\""] else []) +
        (if req.filters != "" then ["filters:\"" + req.filters + "\""] else []) +
        (if req.sortBy.Some? then ["sort_by:{" + SortText(req.sortBy.value) + "}"] else []);
      Join(parts)
  }

  /** The entries of a Sort message: the key when set, and the direction when it is
      not the zero value. */
  function SortText(sort: Sort): (s: string)
    ensures s == "" <==> sort == Sort("", Descending)
  {
    var parts :=
      (if sort.key != "" then ["key:\"" + sort.key + "\""] else []) +
      (if sort.direction == Ascending then ["direction:ASCENDING"] else []);
    Join(parts)
  }

  function Join(parts: seq<string>): (s: string)
    requires forall i :: 0 <= i < |parts| ==> parts[i] != ""
    ensures s == "" <==> parts == []
  {
    if parts == [] then "" else if |parts| == 1 then parts[0] else parts[0] + " " + Join(parts[1..])
  }

  /** The method table's extractors. Each asserts the request to the message type its
      RPC takes (`Takes`); a request of another type reads as a nil message of that
      type, whose getters return "" and whose text rendering is "<nil>". So a request
      of the wrong type is no fault: it yields "", except for ListProjects. */
  function Extract(rpc: AdminRpc, r: Request): (s: string)
    ensures !Takes(rpc, r) && rpc != ListProjects ==> s == ""
    ensures !Takes(rpc, r) && rpc == ListProjects ==> s == "<nil>"
  {
    if Takes(rpc, r) then Read(rpc, r)
    else if rpc == ListProjects then ProjectListText(None)
    else ""
  }

  /** The getter chain each extractor applies to a request of the type it takes. */
  function Read(rpc: AdminRpc, r: Request): string
    requires Takes(rpc, r)
  {
    match rpc
    case CreateTask => GetProject(r.id)
    case GetTask => GetProject(r.id)
    case ListTaskIds => r.project
    case ListTasks => GetProject(r.id)
    case CreateWorkflow => GetProject(r.id)
    case GetWorkflow => GetProject(r.id)
    case ListWorkflowIds => r.project
    case ListWorkflows => GetProject(r.id)
    case CreateLaunchPlan => GetProject(r.id)
    case GetLaunchPlan => GetProject(r.id)
    case GetActiveLaunchPlan => GetProject(r.id)
    case ListActiveLaunchPlans => r.project
    case ListLaunchPlanIds => r.project
    case ListLaunchPlans => GetProject(r.id)
    case UpdateLaunchPlan => GetProject(r.id)
    case CreateExecution => r.project
    case RelaunchExecution => GetProject(r.id)
    case RecoverExecution => GetProject(r.id)
    case GetExecution => GetProject(r.id)
    case UpdateExecution => GetProject(r.id)
    case GetExecutionData => GetProject(r.id)
    case ListExecutions => GetProject(r.id)
    case TerminateExecution => GetProject(r.id)
    case GetNodeExecution => GetProject(GetExecutionId(r.nodeExecutionId))
    case GetDynamicNodeWorkflow => GetProject(GetExecutionId(r.nodeExecutionId))
    case ListNodeExecutions => GetProject(r.workflowExecutionId)
    case ListNodeExecutionsForTask => GetProject(GetTaskId(r.taskExecutionId))
    case GetNodeExecutionData => GetProject(GetExecutionId(r.nodeExecutionId))
    case RegisterProject => GetProjectId(r.registered)
    case UpdateProject => r.projectValue.id
    case ListProjects => ProjectListText(Some(r.listRequest))
    case CreateWorkflowEvent => r.requestId
    case CreateNodeEvent => r.requestId
    case CreateTaskEvent => r.requestId
    case GetTaskExecution => GetProject(GetTaskId(r.taskExecutionId))
    case ListTaskExecutions => GetProject(GetExecutionId(r.nodeExecutionId))
    case GetTaskExecutionData => GetProject(GetTaskId(r.taskExecutionId))
    case UpdateProjectDomainAttributes => GetAttributesProject(r.attributes)
    case GetProjectDomainAttributes => r.project
    case DeleteProjectDomainAttributes => r.project
    case UpdateProjectAttributes => GetAttributesProject(r.attributes)
    case GetProjectAttributes => r.project
    case DeleteProjectAttributes => r.project
    case UpdateWorkflowAttributes => GetAttributesProject(r.attributes)
    case GetWorkflowAttributes => r.project
    case DeleteWorkflowAttributes => r.project
    case ListNamedEntities => r.project
    case GetNamedEntity => GetProject(r.id)
    case UpdateNamedEntity => GetProject(r.id)
    case GetDescriptionEntity => GetProject(r.id)
    case ListDescriptionEntities => GetProject(r.id)
    case GetExecutionMetrics => GetProject(r.id)
  }

  /** inferProjectIDFromAdminRequest: the registered extractor applied to the request,
      or "" for an RPC that is not registered. */
  function InferProjectID(fullMethod: string, req: Request): (pid: string)
    ensures Methods(fullMethod).None? ==> pid == ""
    ensures Methods(fullMethod).Some? ==> pid == Extract(Methods(fullMethod).value, req)
    ensures forall rpc :: fullMethod == FullMethodName(rpc) ==> pid == Extract(rpc, req)
  {
    RpcNamedByMethod(fullMethod);
    match Methods(fullMethod)
    case None => ""
    case Some(rpc) => Extract(rpc, req)
  }

  /** The message type each registered RPC takes (the request type of its gRPC
      handler): what the extractor's type assertion tests for. */
  predicate Takes(rpc: AdminRpc, r: Request)
  {
    match rpc
    case CreateTask => r.TaskCreateRequest?
    case GetTask | GetWorkflow | GetLaunchPlan | GetDescriptionEntity => r.ObjectGetRequest?
    case ListTaskIds | ListWorkflowIds | ListLaunchPlanIds => r.NamedEntityIdentifierListRequest?
    case ListTasks | ListWorkflows | ListLaunchPlans | ListExecutions => r.ResourceListRequest?
    case CreateWorkflow => r.WorkflowCreateRequest?
    case CreateLaunchPlan => r.LaunchPlanCreateRequest?
    case GetActiveLaunchPlan => r.ActiveLaunchPlanRequest?
    case ListActiveLaunchPlans => r.ActiveLaunchPlanListRequest?
    case UpdateLaunchPlan => r.LaunchPlanUpdateRequest?
    case CreateExecution => r.ExecutionCreateRequest?
    case RelaunchExecution => r.ExecutionRelaunchRequest?
    case RecoverExecution => r.ExecutionRecoverRequest?
    case GetExecution => r.WorkflowExecutionGetRequest?
    case UpdateExecution => r.ExecutionUpdateRequest?
    case GetExecutionData => r.WorkflowExecutionGetDataRequest?
    case TerminateExecution => r.ExecutionTerminateRequest?
    case GetNodeExecution => r.NodeExecutionGetRequest?
    case GetDynamicNodeWorkflow => r.GetDynamicNodeWorkflowRequest?
    case ListNodeExecutions => r.NodeExecutionListRequest?
    case ListNodeExecutionsForTask => r.NodeExecutionForTaskListRequest?
    case GetNodeExecutionData => r.NodeExecutionGetDataRequest?
    case RegisterProject => r.ProjectRegisterRequest?
    case UpdateProject => r.ProjectMessage?
    case ListProjects => r.ProjectListMessage?
    case CreateWorkflowEvent => r.WorkflowExecutionEventRequest?
    case CreateNodeEvent => r.NodeExecutionEventRequest?
    case CreateTaskEvent => r.TaskExecutionEventRequest?
    case GetTaskExecution => r.TaskExecutionGetRequest?
    case ListTaskExecutions => r.TaskExecutionListRequest?
    case GetTaskExecutionData => r.TaskExecutionGetDataRequest?
    case UpdateProjectDomainAttributes => r.ProjectDomainAttributesUpdateRequest?
    case GetProjectDomainAttributes => r.ProjectDomainAttributesGetRequest?
    case DeleteProjectDomainAttributes => r.ProjectDomainAttributesDeleteRequest?
    case UpdateProjectAttributes => r.ProjectAttributesUpdateRequest?
    case GetProjectAttributes => r.ProjectAttributesGetRequest?
    case DeleteProjectAttributes => r.ProjectAttributesDeleteRequest?
    case UpdateWorkflowAttributes => r.WorkflowAttributesUpdateRequest?
    case GetWorkflowAttributes => r.WorkflowAttributesGetRequest?
    case DeleteWorkflowAttributes => r.WorkflowAttributesDeleteRequest?
    case ListNamedEntities => r.NamedEntityListRequest?
    case GetNamedEntity => r.NamedEntityGetRequest?
    case UpdateNamedEntity => r.NamedEntityUpdateRequest?
    case ListDescriptionEntities => r.DescriptionEntityListRequest?
    case GetExecutionMetrics => r.WorkflowExecutionGetMetricsRequest?
  }

  /** ListMatchableAttributes and GetVersion have no entry: they are never project-gated. */
  lemma ListMatchableAttributesPassesThrough(req: Request)
    ensures Methods(ListMatchableAttributesMethod).None?
    ensures InferProjectID(ListMatchableAttributesMethod, req) == ""
  {
  }

  lemma GetVersionPassesThrough(req: Request)
    ensures Methods(GetVersionMethod).None?
    ensures InferProjectID(GetVersionMethod, req) == ""
  {
  }

  /** CreateExecution reads the request's own project field; an empty field yields "". */
  lemma CreateExecutionReadsProject(project: string, domain: string, name: string)
    ensures InferProjectID(FullMethodName(CreateExecution), ExecutionCreateRequest(project, domain, name)) == project
  {
    MethodsFindsEveryRpc(CreateExecution);
  }

  /** Node-execution RPCs read the project of the nested workflow-execution id;
      a nil id at either level yields "". */
  lemma NodeExecutionReadsExecutionId(id: Option<NodeExecutionIdentifier>)
    ensures var p := if id.Some? && id.value.executionId.Some? then id.value.executionId.value.project else "";
      && Extract(GetNodeExecution, NodeExecutionGetRequest(id)) == p
      && Extract(GetDynamicNodeWorkflow, GetDynamicNodeWorkflowRequest(id)) == p
  {
  }

  /** The node-execution data and task-execution listing RPCs read the same nested id. */
  lemma NodeExecutionDataReadsExecutionId(id: Option<NodeExecutionIdentifier>)
    ensures var p := if id.Some? && id.value.executionId.Some? then id.value.executionId.value.project else "";
      && Extract(GetNodeExecutionData, NodeExecutionGetDataRequest(id)) == p
      && Extract(ListTaskExecutions, TaskExecutionListRequest(id)) == p
  {
  }

  /** Task-execution RPCs read the project of the nested task id. */
  lemma TaskExecutionReadsTaskId(id: Option<TaskExecutionIdentifier>)
    ensures var p := if id.Some? && id.value.taskId.Some? then id.value.taskId.value.project else "";
      && Extract(GetTaskExecution, TaskExecutionGetRequest(id)) == p
      && Extract(GetTaskExecutionData, TaskExecutionGetDataRequest(id)) == p
      && Extract(ListNodeExecutionsForTask, NodeExecutionForTaskListRequest(id)) == p
  {
  }

  /** ListProjects yields the request's text rendering: "" (pass-through) exactly for
      a request with every field at its default. */
  lemma ListProjectsUsesTextRendering(lr: ProjectListRequest)
    ensures Extract(ListProjects, ProjectListMessage(lr)) == ProjectListText(Some(lr))
    ensures Extract(ListProjects, ProjectListMessage(lr)) == "" <==>
      lr == DefaultProjectListRequest
  {
  }

  /** A listing sorted by name renders its sort field, so it is gated as a project
      named `sort_by:{key:"name"}`. */
  lemma SortedListingRendersSortBy()
    ensures Extract(ListProjects, ProjectListMessage(ProjectListRequest(0, "", "", Some(Sort("name", Descending)))))
      == "sort_by:{key:\"name\"}"
  {
  }

  /** The three event-creation RPCs yield the request id, not a project. */
  lemma EventMethodsYieldRequestId(requestId: string)
    ensures Extract(CreateWorkflowEvent, WorkflowExecutionEventRequest(requestId)) == requestId
    ensures Extract(CreateNodeEvent, NodeExecutionEventRequest(requestId)) == requestId
    ensures Extract(CreateTaskEvent, TaskExecutionEventRequest(requestId)) == requestId
  {
  }
}
