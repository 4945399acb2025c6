/** The telemetry vocabulary the core writes: process-wide properties and the task start event. */
module Telemetry {
  import opened Envelope

  /** The process role; the core only ever sets `Agent`. */
  datatype Role = Agent

  /** A typed telemetry value, used both as a process-wide property and as event metadata. */
  datatype EventData =
    | JobId(jobId: Uuid)
    | TaskId(taskId: Uuid)
    | MachineId(machineId: Uuid)
    | Version(version: string)
    | InstanceId(instanceId: Uuid)
    | RoleIs(role: Role)
    | ScalesetId(scalesetId: string)
    | Type(eventType: string)
    | ToolName(toolName: string)

  datatype EventName = TaskStart

  /** One emitted event: its name and its metadata, in the order given. */
  datatype Event = Event(name: EventName, data: seq<EventData>)
}
