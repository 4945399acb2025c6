/**
 * The startup sequence of `run`, as the ordered trace of effects it
 * performs: process-wide telemetry properties, the optional handshakes with
 * the parent agent, the start event, and the one runner the variant selects.
 * The transports are abstract: whether a channel creation, a connect or a
 * handle transmission succeeds is given by an oracle, and a failed one
 * aborts startup (the source unwraps each of them).
 */
module Dispatch {
  import opened Wrappers
  import opened Envelope
  import opened Telemetry
  import opened TaskConfig
  import Tags

  /** The build version compiled into the agent; its value is not modelled. */
  const OnefuzzVersion: string

  /** The one message sent on a fresh task-to-agent channel. */
  const Placeholder: string := "hiiiii"

  datatype Direction = AgentToTask | TaskToAgent

  /** Which end of a freshly created channel is handed to the agent. */
  datatype Handle = SenderEnd | ReceiverEnd

  /**
   * How a runner is entered: constructed then run, constructed fallibly then
   * run, constructed then run under its own error reporting, spawned on the
   * configuration or on a shared reference to it, or called directly.
   */
  datatype Entry = NewRun | TryNewRun | NewManagedRun | Spawn | SpawnShared | Call

  /**
   * The runner invocation for one task: its kind, how it is entered, and the
   * configuration whose payload the runner consumes.
   */
  datatype RunnerCall = RunnerCall(task: Tags.Kind, entry: Entry, config: Config)

  /** One effect of the startup sequence. */
  datatype Action =
    | SetProperty(property: EventData)
    | CreateChannel(direction: Direction)
    | Connect(direction: Direction, endpoint: string)
    | SendHandle(direction: Direction, handle: Handle)
    | SendMessage(direction: Direction, message: string)
    | Emit(event: Event)
    | Invoke(call: RunnerCall)

  /** How `run` ends: with the runner's own result, or aborted by the step that failed. */
  datatype Outcome = Finished(result: Result<(), Error>) | Aborted(failed: Action)

  /** The steps whose failure aborts startup; the placeholder send is not one of them. */
  predicate Fallible(a: Action) {
    a.CreateChannel? || a.Connect? || a.SendHandle?
  }

  /** Every fallible step of `steps` succeeds. */
  predicate AllSucceed(steps: seq<Action>, succeeds: Action -> bool) {
    forall i | 0 <= i < |steps| :: Fallible(steps[i]) ==> succeeds(steps[i])
  }

  /** The handshake direction a step belongs to, if any. */
  function DirectionOf(a: Action): Option<Direction> {
    match a
    case CreateChannel(d) => Some(d)
    case Connect(d, _) => Some(d)
    case SendHandle(d, _) => Some(d)
    case SendMessage(d, _) => Some(d)
    case _ => None
  }

  /** The end handed over: the sender to the agent that will write, the receiver to the agent that will read. */
  function HandedOver(d: Direction): Handle {
    match d
    case AgentToTask => SenderEnd
    case TaskToAgent => ReceiverEnd
  }

  /** The rendezvous endpoint configured for a direction. */
  function EndpointOf(common: CommonConfig, d: Direction): Option<string> {
    match d
    case AgentToTask => common.fromAgentToTaskEndpoint
    case TaskToAgent => common.fromTaskToAgentEndpoint
  }

  /**
   * The process-wide properties `run` sets first: job, task, machine,
   * version, instance and role, in that order, then the scaleset name
   * exactly when the machine has one.
   */
  function StartupProperties(common: CommonConfig): (ps: seq<EventData>)
    ensures |ps| == if common.machineIdentity.scalesetName.Some? then 7 else 6
    ensures ps[..6] == [
      JobId(common.jobId), TaskId(common.taskId), MachineId(common.machineIdentity.machineId),
      Version(OnefuzzVersion), InstanceId(common.instanceId), RoleIs(Agent)]
    ensures forall i | 0 <= i < |ps| :: ps[i].ScalesetId? <==> i == 6
    ensures |ps| == 7 ==> ps[6] == ScalesetId(common.machineIdentity.scalesetName.value)
  {
    [ JobId(common.jobId),
      TaskId(common.taskId),
      MachineId(common.machineIdentity.machineId),
      Version(OnefuzzVersion),
      InstanceId(common.instanceId),
      RoleIs(Agent) ]
    + match common.machineIdentity.scalesetName
      case Some(name) => [ScalesetId(name)]
      case None => []
  }

  /** Setting each property in turn. */
  function SetAll(ps: seq<EventData>): seq<Action> {
    seq(|ps|, i requires 0 <= i < |ps| => SetProperty(ps[i]))
  }

  /**
   * The handshake for one direction, when its endpoint is configured: create
   * a channel, connect to the endpoint, send the end the agent needs; the
   * task-to-agent direction then sends the placeholder message.
   */
  function Handshake(d: Direction, endpoint: Option<string>): (steps: seq<Action>)
    ensures endpoint.None? <==> steps == []
    ensures forall i | 0 <= i < |steps| :: DirectionOf(steps[i]) == Some(d)
    ensures endpoint.Some? ==> |steps| == if d == TaskToAgent then 4 else 3
    ensures endpoint.Some? ==>
      steps[..3] == [CreateChannel(d), Connect(d, endpoint.value), SendHandle(d, HandedOver(d))]
  {
    match endpoint
    case None => []
    case Some(e) =>
      [CreateChannel(d), Connect(d, e), SendHandle(d, HandedOver(d))]
      + (if d == TaskToAgent then [SendMessage(TaskToAgent, Placeholder)] else [])
  }

  /** The runner the variant selects, and how it is entered. */
  function RunnerFor(c: Config): (call: RunnerCall)
    ensures call.task == KindOf(c) && call.config == c
    ensures call.entry == TryNewRun <==> c.LibFuzzerFuzz? || c.LibFuzzerDotnetFuzz?
    ensures call.entry == NewManagedRun <==> c.LibFuzzerReport? || c.GenericReport?
  {
    match c
    case Coverage(_) => RunnerCall(Tags.Coverage, NewRun, c)
    case DotnetCoverage(_) => RunnerCall(Tags.DotnetCoverage, NewRun, c)
    case DotnetCrashReport(_) => RunnerCall(Tags.DotnetCrashReport, NewRun, c)
    case LibFuzzerDotnetFuzz(_) => RunnerCall(Tags.LibFuzzerDotnetFuzz, TryNewRun, c)
    case LibFuzzerFuzz(_) => RunnerCall(Tags.LibFuzzerFuzz, TryNewRun, c)
    case LibFuzzerReport(_) => RunnerCall(Tags.LibFuzzerReport, NewManagedRun, c)
    case LibFuzzerMerge(_) => RunnerCall(Tags.LibFuzzerMerge, SpawnShared, c)
    case GenericAnalysis(_) => RunnerCall(Tags.GenericAnalysis, Call, c)
    case GenericGenerator(_) => RunnerCall(Tags.GenericGenerator, NewRun, c)
    case GenericSupervisor(_) => RunnerCall(Tags.GenericSupervisor, Spawn, c)
    case GenericMerge(_) => RunnerCall(Tags.GenericMerge, SpawnShared, c)
    case GenericReport(_) => RunnerCall(Tags.GenericReport, NewManagedRun, c)
    case GenericRegression(_) => RunnerCall(Tags.GenericRegression, NewRun, c)
    case LibFuzzerRegression(_) => RunnerCall(Tags.LibFuzzerRegression, NewRun, c)
  }

  /** The bootstrap part of the startup trace when every fallible step succeeds: properties, then handshakes. */
  function Prelude(common: CommonConfig): seq<Action> {
    SetAll(StartupProperties(common))
    + Handshake(AgentToTask, common.fromAgentToTaskEndpoint)
    + Handshake(TaskToAgent, common.fromTaskToAgentEndpoint)
  }

  /** The whole startup trace when every fallible step succeeds. */
  function Planned(c: Config): seq<Action> {
    Prelude(CommonOf(c)) + [Emit(ReportEvent(c)), Invoke(RunnerFor(c))]
  }

  /** Where each step of the plan comes from, by position. */
  lemma PlannedAt(c: Config, i: int)
    requires 0 <= i < |Planned(c)|
    ensures
      var common := CommonOf(c);
      var props := StartupProperties(common);
      var toAgent := Handshake(AgentToTask, common.fromAgentToTaskEndpoint);
      var toTask := Handshake(TaskToAgent, common.fromTaskToAgentEndpoint);
      var p := Planned(c);
      && |p| == |props| + |toAgent| + |toTask| + 2
      && (i < |props| ==> p[i] == SetProperty(props[i]))
      && (|props| <= i < |props| + |toAgent| ==> p[i] == toAgent[i - |props|])
      && (|props| + |toAgent| <= i < |p| - 2 ==> p[i] == toTask[i - |props| - |toAgent|])
      && (i == |p| - 2 ==> p[i] == Emit(ReportEvent(c)))
      && (i == |p| - 1 ==> p[i] == Invoke(RunnerFor(c)))
  {
    var common := CommonOf(c);
    var toAgent := Handshake(AgentToTask, common.fromAgentToTaskEndpoint);
    var toTask := Handshake(TaskToAgent, common.fromTaskToAgentEndpoint);
    var head := SetAll(StartupProperties(common));
    assert Planned(c) == head + toAgent + toTask + [Emit(ReportEvent(c)), Invoke(RunnerFor(c))];
  }

  /**
   * The shape of a successful startup: the telemetry properties come first
   * and are the only properties set; the start event is the second-to-last
   * step and the runner invocation the last, each occurring exactly once.
   */
  lemma {:induction false} PlannedShape(c: Config)
    ensures
      var props := StartupProperties(CommonOf(c));
      var p := Planned(c);
      && |p| >= |props| + 2
      && p[..|props|] == SetAll(props)
      && (forall i | 0 <= i < |p| :: p[i].SetProperty? <==> i < |props|)
      && (forall i | 0 <= i < |p| :: p[i].Emit? <==> i == |p| - 2)
      && (forall i | 0 <= i < |p| :: p[i].Invoke? <==> i == |p| - 1)
      && p[|p| - 2] == Emit(ReportEvent(c))
      && p[|p| - 1] == Invoke(RunnerFor(c))
  {
    var common := CommonOf(c);
    var props := StartupProperties(common);
    var p := Planned(c);
    PlannedAt(c, 0);
    forall i | 0 <= i < |p|
      ensures p[i].SetProperty? <==> i < |props|
      ensures p[i].Emit? <==> i == |p| - 2
      ensures p[i].Invoke? <==> i == |p| - 1
    {
      PlannedAt(c, i);
    }
    assert p[..|props|] == SetAll(props) by {
      forall i | 0 <= i < |props| ensures p[i] == SetAll(props)[i] {
        PlannedAt(c, i);
      }
    }
    PlannedAt(c, |p| - 2);
    PlannedAt(c, |p| - 1);
  }

  /**
   * The handshakes run in order: every agent-to-task step precedes every
   * task-to-agent step; each connect goes to that direction's endpoint and
   * each handle sent is the end the agent needs.
   */
  lemma {:induction false} HandshakeOrder(c: Config)
    ensures
      var p := Planned(c);
      forall i, j | 0 <= i < |p| && 0 <= j < |p| ::
        DirectionOf(p[i]) == Some(AgentToTask) && DirectionOf(p[j]) == Some(TaskToAgent) ==> i < j
    ensures
      var p := Planned(c);
      forall i | 0 <= i < |p| ::
        && (p[i].Connect? ==> EndpointOf(CommonOf(c), p[i].direction) == Some(p[i].endpoint))
        && (p[i].SendHandle? ==> p[i].handle == HandedOver(p[i].direction))
  {
    var common := CommonOf(c);
    var props := StartupProperties(common);
    var toAgent := Handshake(AgentToTask, common.fromAgentToTaskEndpoint);
    var p := Planned(c);
    forall i | 0 <= i < |p|
      ensures DirectionOf(p[i]) == Some(AgentToTask) ==> i < |props| + |toAgent|
      ensures DirectionOf(p[i]) == Some(TaskToAgent) ==> |props| + |toAgent| <= i
      ensures p[i].Connect? ==> EndpointOf(common, p[i].direction) == Some(p[i].endpoint)
      ensures p[i].SendHandle? ==> p[i].handle == HandedOver(p[i].direction)
    {
      PlannedAt(c, i);
    }
  }

  /**
   * A direction has handshake steps exactly when its endpoint is configured,
   * and a configured direction creates its channel, connects to its endpoint
   * and hands over the end the agent needs, in that order and back to back.
   */
  lemma {:induction false} HandshakePerformed(c: Config)
    ensures
      var p := Planned(c);
      forall d: Direction ::
        (exists i | 0 <= i < |p| :: DirectionOf(p[i]) == Some(d)) <==> EndpointOf(CommonOf(c), d).Some?
    ensures
      var p := Planned(c);
      forall d: Direction | EndpointOf(CommonOf(c), d).Some? ::
        exists i | 0 <= i && i + 2 < |p| ::
          && p[i] == CreateChannel(d)
          && p[i + 1] == Connect(d, EndpointOf(CommonOf(c), d).value)
          && p[i + 2] == SendHandle(d, HandedOver(d))
  {
    var common := CommonOf(c);
    var props := StartupProperties(common);
    var toAgent := Handshake(AgentToTask, common.fromAgentToTaskEndpoint);
    var p := Planned(c);
    forall d: Direction
      ensures (exists i | 0 <= i < |p| :: DirectionOf(p[i]) == Some(d)) <==> EndpointOf(common, d).Some?
    {
      if EndpointOf(common, d).Some? {
        var i := if d == AgentToTask then |props| else |props| + |toAgent|;
        PlannedAt(c, i);
        assert DirectionOf(p[i]) == Some(d);
      } else {
        forall i | 0 <= i < |p| ensures DirectionOf(p[i]) != Some(d) {
          PlannedAt(c, i);
        }
      }
    }
    forall d: Direction | EndpointOf(common, d).Some?
      ensures exists i | 0 <= i && i + 2 < |p| ::
        && p[i] == CreateChannel(d)
        && p[i + 1] == Connect(d, EndpointOf(common, d).value)
        && p[i + 2] == SendHandle(d, HandedOver(d))
    {
      var steps := Handshake(d, EndpointOf(common, d));
      var i := if d == AgentToTask then |props| else |props| + |toAgent|;
      assert steps[..3][0] == steps[0] && steps[..3][1] == steps[1] && steps[..3][2] == steps[2];
      PlannedAt(c, i);
      PlannedAt(c, i + 1);
      PlannedAt(c, i + 2);
    }
  }

  /**
   * The placeholder message: it is sent exactly when the task-to-agent
   * endpoint is configured, at most once, on the task-to-agent channel, and
   * right after the receiver end was handed over.
   */
  lemma {:induction false} SinglePlaceholder(c: Config)
    ensures
      var p := Planned(c);
      (exists i | 0 <= i < |p| :: p[i].SendMessage?) <==> CommonOf(c).fromTaskToAgentEndpoint.Some?
    ensures
      var p := Planned(c);
      forall i | 0 <= i < |p| && p[i].SendMessage? ::
        p[i] == SendMessage(TaskToAgent, Placeholder) && 0 < i && p[i - 1] == SendHandle(TaskToAgent, ReceiverEnd)
    ensures
      var p := Planned(c);
      forall i, j | 0 <= i < |p| && 0 <= j < |p| && p[i].SendMessage? && p[j].SendMessage? :: i == j
  {
    var common := CommonOf(c);
    var props := StartupProperties(common);
    var toAgent := Handshake(AgentToTask, common.fromAgentToTaskEndpoint);
    var toTask := Handshake(TaskToAgent, common.fromTaskToAgentEndpoint);
    var p := Planned(c);
    var at := |props| + |toAgent| + 3;
    forall i | 0 <= i < |p|
      ensures p[i].SendMessage? <==> common.fromTaskToAgentEndpoint.Some? && i == at
      ensures i == at && p[i].SendMessage? ==> p[i] == SendMessage(TaskToAgent, Placeholder)
    {
      PlannedAt(c, i);
    }
    PlannedAt(c, 0);
    if common.fromTaskToAgentEndpoint.Some? {
      PlannedAt(c, at);
      PlannedAt(c, at - 1);
    }
  }

  /** Without endpoints there is no handshake: the properties are followed directly by the dispatch. */
  lemma NoEndpointsNoHandshake(c: Config)
    requires CommonOf(c).fromAgentToTaskEndpoint.None? && CommonOf(c).fromTaskToAgentEndpoint.None?
    ensures Planned(c) == SetAll(StartupProperties(CommonOf(c))) + [Emit(ReportEvent(c)), Invoke(RunnerFor(c))]
  {
  }

  /**
   * A run that stops at a failed step has emitted no start event and invoked
   * no runner: every fallible step of the plan comes before the dispatch.
   */
  lemma AbortPrecedesDispatch(c: Config, t: seq<Action>)
    requires t <= Planned(c) && |t| > 0 && Fallible(t[|t| - 1])
    ensures forall i | 0 <= i < |t| :: !t[i].Emit? && !t[i].Invoke?
  {
    var p := Planned(c);
    PlannedShape(c);
    assert p[|t| - 1] == t[|t| - 1];
    assert |t| - 1 < |p| - 2;
    forall i | 0 <= i < |t| ensures !t[i].Emit? && !t[i].Invoke? {
      assert t[i] == p[i];
    }
  }

  /**
   * End to end for an analysis document: tag `generic_analysis` and tool
   * `tool.exe` yield the analysis variant, whose start event has type
   * `generic_analysis` and tool name `tool.exe`, and whose runner is the
   * analysis runner, called directly on that configuration.
   */
  lemma GenericAnalysisExample(fields: CommonFields)
    requires HasRequired(fields)
    ensures
      var r := Decode(Document(Some("generic_analysis"), fields, Some("tool.exe"), None));
      && r.Ok? && r.value.GenericAnalysis?
      && ReportEvent(r.value) == Event(TaskStart, [Type("generic_analysis"), ToolName("tool.exe")])
      && RunnerFor(r.value) == RunnerCall(Tags.GenericAnalysis, Call, r.value)
  {
    var doc := Document(Some("generic_analysis"), fields, Some("tool.exe"), None);
    DecodeSelectsNamedVariant(doc, Tags.GenericAnalysis);
  }

  /** Each fallible step of a concatenation succeeds exactly when each one of both parts does. */
  lemma AllSucceedConcat(a: seq<Action>, b: seq<Action>, succeeds: Action -> bool)
    ensures AllSucceed(a + b, succeeds) <==> AllSucceed(a, succeeds) && AllSucceed(b, succeeds)
  {
    if AllSucceed(a, succeeds) && AllSucceed(b, succeeds) {
      forall i | 0 <= i < |a + b| && Fallible((a + b)[i])
        ensures succeeds((a + b)[i])
      {
        if i >= |a| {
          assert (a + b)[i] == b[i - |a|];
        }
      }
    }
    if AllSucceed(a + b, succeeds) {
      forall i | 0 <= i < |a| && Fallible(a[i])
        ensures succeeds(a[i])
      {
        assert (a + b)[i] == a[i];
      }
      forall i | 0 <= i < |b| && Fallible(b[i])
        ensures succeeds(b[i])
      {
        assert (a + b)[|a| + i] == b[i];
      }
    }
  }

  /** A prefix that ends in a failed fallible step shows that the whole sequence does not succeed. */
  lemma FailureInPrefix(t: seq<Action>, p: seq<Action>, succeeds: Action -> bool)
    requires t <= p && |t| > 0
    requires Fallible(t[|t| - 1]) && !succeeds(t[|t| - 1])
    ensures !AllSucceed(p, succeeds)
  {
    assert p[|t| - 1] == t[|t| - 1];
  }

  /**
   * A step sequence `steps` run after a fully successful `head`, following
   * the plan `part` and stopping at a failure, leaves a prefix of the whole
   * plan that ends in that failure and shows the plan cannot succeed.
   */
  lemma AbortWithin(head: seq<Action>, steps: seq<Action>, part: seq<Action>, rest: seq<Action>,
                    succeeds: Action -> bool)
    requires AllSucceed(head, succeeds) && steps <= part && |steps| > 0
    requires Fallible(steps[|steps| - 1]) && !succeeds(steps[|steps| - 1])
    requires AllSucceed(steps[..|steps| - 1], succeeds)
    ensures head + steps <= head + part + rest
    ensures !AllSucceed(head + part + rest, succeeds)
    ensures (head + steps)[|head + steps| - 1] == steps[|steps| - 1]
    ensures AllSucceed((head + steps)[..|head + steps| - 1], succeeds)
  {
    assert (head + part + rest)[..|head + steps|] == head + steps;
    AllSucceedConcat(head, steps[..|steps| - 1], succeeds);
    assert (head + steps)[..|head + steps| - 1] == head + steps[..|steps| - 1];
    FailureInPrefix(head + steps, head + part + rest, succeeds);
  }

  /** Setting the startup properties, one `set_property` call after the other. */
  method SetStartupProperties(common: CommonConfig) returns (steps: seq<Action>)
    ensures steps == SetAll(StartupProperties(common))
  {
    steps := [];
    steps := steps + [SetProperty(JobId(common.jobId))];
    steps := steps + [SetProperty(TaskId(common.taskId))];
    steps := steps + [SetProperty(MachineId(common.machineIdentity.machineId))];
    steps := steps + [SetProperty(Version(OnefuzzVersion))];
    steps := steps + [SetProperty(InstanceId(common.instanceId))];
    steps := steps + [SetProperty(RoleIs(Agent))];
    if common.machineIdentity.scalesetName.Some? {
      steps := steps + [SetProperty(ScalesetId(common.machineIdentity.scalesetName.value))];
    }
  }

  /**
   * One handshake with the agent, stopping at the first fallible step that
   * fails; `failed` names that step. The result of the placeholder send is
   * discarded.
   */
  method Establish(d: Direction, endpoint: string, succeeds: Action -> bool)
    returns (failed: Option<Action>, steps: seq<Action>)
    ensures steps <= Handshake(d, Some(endpoint))
    ensures failed.None? <==> AllSucceed(Handshake(d, Some(endpoint)), succeeds)
    ensures failed.None? ==> steps == Handshake(d, Some(endpoint))
    ensures failed.Some? ==>
      && |steps| > 0 && steps[|steps| - 1] == failed.value
      && Fallible(failed.value) && !succeeds(failed.value)
      && AllSucceed(steps[..|steps| - 1], succeeds)
  {
    ghost var plan := Handshake(d, Some(endpoint));
    steps := [CreateChannel(d)];
    if !succeeds(CreateChannel(d)) {
      FailureInPrefix(steps, plan, succeeds);
      return Some(CreateChannel(d)), steps;
    }
    steps := steps + [Connect(d, endpoint)];
    if !succeeds(Connect(d, endpoint)) {
      FailureInPrefix(steps, plan, succeeds);
      return Some(Connect(d, endpoint)), steps;
    }
    steps := steps + [SendHandle(d, HandedOver(d))];
    if !succeeds(SendHandle(d, HandedOver(d))) {
      FailureInPrefix(steps, plan, succeeds);
      return Some(SendHandle(d, HandedOver(d))), steps;
    }
    if d == TaskToAgent {
      steps := steps + [SendMessage(TaskToAgent, Placeholder)];
    }
    failed := None;
  }

  /**
   * The bootstrap steps of `run` before dispatch: set the properties, then
   * run each configured handshake, agent-to-task first, stopping at the
   * first fallible step that fails; `failed` names that step.
   */
  method Bootstrap(common: CommonConfig, succeeds: Action -> bool)
    returns (failed: Option<Action>, trace: seq<Action>)
    ensures trace <= Prelude(common)
    ensures failed.None? <==> AllSucceed(Prelude(common), succeeds)
    ensures failed.None? ==> trace == Prelude(common)
    ensures failed.Some? ==>
      && |trace| > 0 && trace[|trace| - 1] == failed.value
      && Fallible(failed.value) && !succeeds(failed.value)
      && AllSucceed(trace[..|trace| - 1], succeeds)
  {
    ghost var toAgent := Handshake(AgentToTask, common.fromAgentToTaskEndpoint);
    ghost var toTask := Handshake(TaskToAgent, common.fromTaskToAgentEndpoint);

    trace := SetStartupProperties(common);
    ghost var head := trace;
    assert AllSucceed(head, succeeds);

    if common.fromAgentToTaskEndpoint.Some? {
      var steps;
      failed, steps := Establish(AgentToTask, common.fromAgentToTaskEndpoint.value, succeeds);
      if failed.Some? {
        AbortWithin(head, steps, toAgent, toTask, succeeds);
        return failed, trace + steps;
      }
      AllSucceedConcat(head, steps, succeeds);
      trace := trace + steps;
    }
    head := trace;
    assert head == SetAll(StartupProperties(common)) + toAgent;

    if common.fromTaskToAgentEndpoint.Some? {
      var steps;
      failed, steps := Establish(TaskToAgent, common.fromTaskToAgentEndpoint.value, succeeds);
      if failed.Some? {
        AbortWithin(head, steps, toTask, [], succeeds);
        assert head + toTask + [] == Prelude(common);
        return failed, trace + steps;
      }
      AllSucceedConcat(head, steps, succeeds);
      trace := trace + steps;
    }
    failed := None;
  }

  /**
   * `run`: perform the startup steps in order, stopping at the first
   * fallible step that fails. The trace is always a prefix of the plan; it is
   * the whole plan exactly when every fallible step succeeds, and then the
   * runner's result is returned unchanged. An aborted trace ends with the
   * step that failed, after which nothing else happens.
   */
  method Run(c: Config, succeeds: Action -> bool, runTask: RunnerCall -> Result<(), Error>)
    returns (outcome: Outcome, trace: seq<Action>)
    ensures trace <= Planned(c)
    ensures outcome.Finished? <==> AllSucceed(Planned(c), succeeds)
    ensures outcome.Finished? ==> trace == Planned(c) && outcome.result == runTask(RunnerFor(c))
    ensures outcome.Aborted? ==>
      && |trace| > 0
      && trace[|trace| - 1] == outcome.failed
      && Fallible(outcome.failed) && !succeeds(outcome.failed)
      && AllSucceed(trace[..|trace| - 1], succeeds)
    ensures outcome.Aborted? ==> forall i | 0 <= i < |trace| :: !trace[i].Emit? && !trace[i].Invoke?
  {
    var failed;
    failed, trace := Bootstrap(CommonOf(c), succeeds);
    ghost var dispatch := [Emit(ReportEvent(c)), Invoke(RunnerFor(c))];
    assert AllSucceed(dispatch, succeeds);
    AllSucceedConcat(Prelude(CommonOf(c)), dispatch, succeeds);
    if failed.Some? {
      assert Planned(c)[..|trace|] == trace;
      AbortPrecedesDispatch(c, trace);
      return Aborted(failed.value), trace;
    }

    trace := trace + [Emit(ReportEvent(c))];
    var call := RunnerFor(c);
    trace := trace + [Invoke(call)];
    outcome := Finished(runTask(call));
  }
}
