/**
 * The envelope every task configuration carries (`CommonConfig`), the document
 * fields it is decoded from, and the heartbeat decision made on it.
 */
module Envelope {
  import opened Wrappers

  /** A 128-bit unique identifier (`Uuid`); only its value matters here. */
  type Uuid = x: nat | x < 0x1_0000_0000_0000_0000_0000_0000_0000_0000

  /** An unsigned 64-bit integer (`u64`). */
  type U64 = x: int | 0 <= x < 0x1_0000_0000_0000_0000

  /** A transport address (`Url`) and a filesystem path (`PathBuf`), both opaque text. */
  type Url = string
  type Path = string

  /** A delay, in milliseconds (`Duration`). */
  type Duration = nat

  datatype InstanceTelemetryKey = InstanceTelemetryKey(key: Uuid)
  datatype MicrosoftTelemetryKey = MicrosoftTelemetryKey(key: Uuid)

  /** The host the task runs on; the scaleset name is absent on machines outside a scaleset. */
  datatype MachineIdentity = MachineIdentity(machineId: Uuid, machineName: string, scalesetName: Option<string>)

  /**
   * Errors the core can report. The first five come from loading the document;
   * `External` stands for an error produced by a collaborator outside the core
   * (the heartbeat client, a task runner), carried through verbatim.
   */
  datatype Error =
    | IoError
    | JsonSyntax
    | MissingTag
    | UnknownVariant(tag: string)
    | MissingField(field: string)
    | External(detail: string)

  /** The memory threshold used when the document does not give one. */
  const DefaultMinAvailableMemoryMb: U64 := 100

  datatype CommonConfig = CommonConfig(
    jobId: Uuid,
    taskId: Uuid,
    instanceId: Uuid,
    heartbeatQueue: Option<Url>,
    instanceTelemetryKey: Option<InstanceTelemetryKey>,
    microsoftTelemetryKey: Option<MicrosoftTelemetryKey>,
    logs: Option<Url>,
    setupDir: Path,
    /** Lower bound on available memory; 0 disables the check. */
    minAvailableMemoryMb: U64,
    machineIdentity: MachineIdentity,
    fromAgentToTaskEndpoint: Option<string>,
    fromTaskToAgentEndpoint: Option<string>)

  /**
   * The common fields as they stand in an already-parsed document: `None`
   * means the field is absent (for the optional fields, absent or null).
   */
  datatype CommonFields = CommonFields(
    jobId: Option<Uuid>,
    taskId: Option<Uuid>,
    instanceId: Option<Uuid>,
    heartbeatQueue: Option<Url>,
    instanceTelemetryKey: Option<InstanceTelemetryKey>,
    microsoftTelemetryKey: Option<MicrosoftTelemetryKey>,
    logs: Option<Url>,
    setupDir: Option<Path>,
    minAvailableMemoryMb: Option<U64>,
    machineIdentity: Option<MachineIdentity>,
    fromAgentToTaskEndpoint: Option<string>,
    fromTaskToAgentEndpoint: Option<string>)

  /** The fields without a default: a document lacking any of them does not decode. */
  predicate HasRequired(f: CommonFields) {
    f.jobId.Some? && f.taskId.Some? && f.instanceId.Some? && f.machineIdentity.Some?
  }

  /** `name` is the document name of a required field that `f` lacks. */
  predicate Lacks(f: CommonFields, name: string) {
    || (name == "job_id" && f.jobId.None?)
    || (name == "task_id" && f.taskId.None?)
    || (name == "instance_id" && f.instanceId.None?)
    || (name == "machine_identity" && f.machineIdentity.None?)
  }

  /**
   * Decoding of the common envelope: absent required fields are an error,
   * `setup_dir` defaults to the empty path and `min_available_memory_mb`
   * to 100; every other field is taken as the document gives it.
   */
  function DecodeCommon(f: CommonFields): (r: Result<CommonConfig, Error>)
    ensures r.Ok? <==> HasRequired(f)
    ensures r.Err? ==> r.error.MissingField? && Lacks(f, r.error.field)
    ensures r.Ok? ==>
      && r.value.jobId == f.jobId.value
      && r.value.taskId == f.taskId.value
      && r.value.instanceId == f.instanceId.value
      && r.value.machineIdentity == f.machineIdentity.value
      && r.value.heartbeatQueue == f.heartbeatQueue
      && r.value.instanceTelemetryKey == f.instanceTelemetryKey
      && r.value.microsoftTelemetryKey == f.microsoftTelemetryKey
      && r.value.logs == f.logs
      && r.value.fromAgentToTaskEndpoint == f.fromAgentToTaskEndpoint
      && r.value.fromTaskToAgentEndpoint == f.fromTaskToAgentEndpoint
    ensures r.Ok? ==> r.value.setupDir == (if f.setupDir.Some? then f.setupDir.value else "")
    ensures r.Ok? ==> f.minAvailableMemoryMb.None? ==> r.value.minAvailableMemoryMb == 100
    ensures r.Ok? ==> f.minAvailableMemoryMb.Some? ==> r.value.minAvailableMemoryMb == f.minAvailableMemoryMb.value
  {
    if f.jobId.None? then Err(MissingField("job_id"))
    else if f.taskId.None? then Err(MissingField("task_id"))
    else if f.instanceId.None? then Err(MissingField("instance_id"))
    else if f.machineIdentity.None? then Err(MissingField("machine_identity"))
    else
      Ok(CommonConfig(
        f.jobId.value, f.taskId.value, f.instanceId.value,
        f.heartbeatQueue, f.instanceTelemetryKey, f.microsoftTelemetryKey, f.logs,
        match f.setupDir case Some(d) => d case None => "",
        match f.minAvailableMemoryMb case Some(m) => m case None => DefaultMinAvailableMemoryMb,
        f.machineIdentity.value,
        f.fromAgentToTaskEndpoint, f.fromTaskToAgentEndpoint))
  }

  /** What the heartbeat client is built from, in the order the source passes it. */
  datatype HeartbeatRequest = HeartbeatRequest(
    queue: Url, taskId: Uuid, jobId: Uuid, initialDelay: Option<Duration>,
    machineId: Uuid, machineName: string)

  /** An opaque handle to a running heartbeat client. */
  datatype HeartbeatClient = HeartbeatClient(handle: nat)

  /**
   * `init_heartbeat`: no client exactly when there is no heartbeat queue;
   * otherwise the client constructor (`start`, networked and opaque here) is
   * called once with the queue and identifiers, and its error, if any, is
   * passed on.
   */
  function InitHeartbeat(common: CommonConfig, initialDelay: Option<Duration>,
                         start: HeartbeatRequest -> Result<HeartbeatClient, Error>)
    : (r: Result<Option<HeartbeatClient>, Error>)
    ensures r == Ok(None) <==> common.heartbeatQueue.None?
    ensures common.heartbeatQueue.Some? ==>
      var request := HeartbeatRequest(
        common.heartbeatQueue.value, common.taskId, common.jobId, initialDelay,
        common.machineIdentity.machineId, common.machineIdentity.machineName);
      && (r.Ok? <==> start(request).Ok?)
      && (r.Ok? ==> r.value == Some(start(request).value))
      && (r.Err? ==> r.error == start(request).error)
  {
    match common.heartbeatQueue
    case Some(url) =>
      var started := start(HeartbeatRequest(
        url, common.taskId, common.jobId, initialDelay,
        common.machineIdentity.machineId, common.machineIdentity.machineName));
      if started.Err? then Err(started.error) else Ok(Some(started.value))
    case None => Ok(None)
  }
}
