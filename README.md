# OneFuzz task configuration: bootstrap and dispatch

This project models the configuration type of the OneFuzz task agent
(`src/agent/onefuzz-task/src/tasks/config.rs`) and proves properties of
that model in Dafny. The agent reads one configuration document that says
which kind of task to run. It decodes the document into a closed union of
fourteen task kinds, each of which carries a shared `CommonConfig`
envelope. It replaces the document's `setup_dir` with the caller's value.
Then `run` sets process-wide telemetry properties, performs the optional
handshakes with the parent agent, emits a `task_start` event and hands the
configuration to the one runner its kind selects.

The model covers the Linux/Windows build, where all fourteen kinds exist.

## Layout

- `wrappers.dfy`: module `Wrappers`, with `Option` and `Result`.
- `common.dfy`: module `Envelope`. Holds `CommonConfig`, the document fields it is decoded from with their defaults (`DecodeCommon`), the error type, and `InitHeartbeat`.
- `tags.dfy`: module `Tags`. Holds the fourteen kinds, their variant names and aliases, tag decoding (`DecodeTag`) and `ContainerType`.
- `telemetry.dfy`: module `Telemetry`. Holds the telemetry values (`EventData`) and events the core writes.
- `config.dfy`: module `TaskConfig`. Holds the `Config` union, `CommonOf`/`WithCommon` (the source's `common`/`common_mut`), `Decode`, the loader `FromFile`, `EventType` and `ReportEvent`.
- `dispatch.dfy`: module `Dispatch`. Holds the effect trace of `run`, its plan (`Planned`), the methods `Bootstrap`, `Establish` and `Run`, and the ordering lemmas.

## How the transports are represented

- The outcome of reading and parsing the file is an input, `FileRead`. It is either `Unreadable`, `NotJson`, or a parsed `Document` whose fields are optional values.
- An oracle `succeeds: Action -> bool` says whether each IPC step succeeds. There are three such steps: creating a channel, connecting to a rendezvous endpoint, and sending a handle. The source unwraps each of them, so a failure aborts startup; the model records this as `Aborted(step)`. The source discards the result of the placeholder send, so the oracle is never asked about it.
- The heartbeat client constructor is a function parameter of `InitHeartbeat`.
- The task runners are a function parameter `runTask` of `Run`. `Run` returns that function's result for the selected runner, unchanged.
- Telemetry `set_property` calls and the `event!` emission are entries in the trace.
- The build version `ONEFUZZ_VERSION` is a constant whose value is left unspecified.

## Notes on the code

- Each variant of `Config` declares exactly one serde alias (config.rs:95-138). The model accepts exactly the variant name and that alias, matched case-sensitively.
- Every handshake step in `run` is unwrapped (config.rs:244-259), so a failed channel creation, connect or handle send panics rather than returning an error. The model writes that panic as the `Aborted` outcome.
- `run` never calls `init_heartbeat` (config.rs:228-318), and neither does the model's `Run`. `init_heartbeat` is modelled on its own.
- Where the envelope sits inside the JSON object is decided by the per-kind structs, which are not part of this model. `Document` therefore holds the envelope's fields as one record.
- `report_event` gives `LibFuzzerDotnetFuzz` the event type `"libfuzzer_fuzz"` (config.rs:202), which is the alias of `LibFuzzerFuzz`, not its own alias. `EventTypeIsAlias` and `EventTypeDecodes` state this exception.

## Model

| member | source | states |
|---|---|---|
| `Envelope.DecodeCommon` | src/agent/onefuzz-task/src/tasks/config.rs:36-67 | Decoding succeeds exactly when `job_id`, `task_id`, `instance_id` and `machine_identity` are present. An error names one required field that is missing. The optional fields are taken verbatim. An absent `setup_dir` becomes the empty path. `min_available_memory_mb` is 100 when absent and kept verbatim when present, 0 included. |
| `Envelope.InitHeartbeat` | src/agent/onefuzz-task/src/tasks/config.rs:70-89 | The result is `Ok(None)` exactly when `heartbeat_queue` is absent. With a queue, the constructor is called on the queue, task id, job id, delay, machine id and machine name. Its client is returned as `Some` and its error is passed on, so the result is never `Ok(None)`. |
| `Tags.VariantName` | src/agent/onefuzz-task/src/tasks/config.rs:94-138 | The Rust name of each of the fourteen variants, the first accepted spelling of its tag. `DecodeTagExactly` proves that it decodes to its kind. |
| `Tags.Alias` | src/agent/onefuzz-task/src/tasks/config.rs:95-138 | The one `#[serde(alias)]` of each variant, letter for letter, the second accepted spelling. `DecodeTagExactly` proves that it decodes to its kind, and `EventTypeIsAlias` relates it to the event types. |
| `Tags.DecodeTag` | src/agent/onefuzz-task/src/tasks/config.rs:92-139 | A tag yields only a kind it spells, by variant name or alias. A string that spells no kind yields nothing. |
| `Tags.SpellingsDecode` | src/agent/onefuzz-task/src/tasks/config.rs:92-139 | Both the variant name and the alias of every kind decode to that kind. |
| `Tags.DecodeTagExactly` | src/agent/onefuzz-task/src/tasks/config.rs:92-139 | A tag decodes to kind `k` if and only if it is `k`'s variant name or alias. |
| `Tags.SpellingsUnambiguous` | src/agent/onefuzz-task/src/tasks/config.rs:92-139 | No string spells two kinds. |
| `Tags.CaseSensitive` | src/agent/onefuzz-task/src/tasks/config.rs:122-123 | `"GenericAnalysis"` and `"generic_analysis"` both decode to `GenericAnalysis`. `"GENERIC_ANALYSIS"` and `"genericanalysis"` are rejected. |
| `Tags.DecodeContainerType` | src/agent/onefuzz-task/src/tasks/config.rs:30-34 | A container type decodes to `Inputs` exactly for `"Inputs"` or `"inputs"`, and nothing else decodes. |
| `TaskConfig.CommonOf` | src/agent/onefuzz-task/src/tasks/config.rs:174-193 | `common`: the envelope of whichever variant the configuration is. `WithCommon`, `WithOwnCommon` and `ConfigDetermined` tie it to `common_mut`. |
| `TaskConfig.WithCommon` | src/agent/onefuzz-task/src/tasks/config.rs:153-172 | Writing an envelope through `common_mut` makes `common` return exactly that envelope. The variant and the tool field are unchanged. |
| `TaskConfig.WithOwnCommon` | src/agent/onefuzz-task/src/tasks/config.rs:153-193 | `common_mut` and `common` reach the same envelope: writing back what `common` read leaves the configuration unchanged. |
| `TaskConfig.WithCommonTwice` | src/agent/onefuzz-task/src/tasks/config.rs:153-172 | Of two writes through `common_mut`, the later one wins. |
| `TaskConfig.Decode` | src/agent/onefuzz-task/src/tasks/config.rs:92-139 | A missing tag and an unknown tag are errors. Decoding succeeds exactly for a known tag, the required envelope fields, and `analyzer_exe` or `generator_exe` where its kind needs one. The result's kind is the one its tag spells. Its envelope is the decoded one and its tool is the document's. |
| `TaskConfig.DecodeSelectsNamedVariant` | src/agent/onefuzz-task/src/tasks/config.rs:92-139 | A decodable document tagged with either spelling of a kind loads as that kind. |
| `TaskConfig.FromFile` | src/agent/onefuzz-task/src/tasks/config.rs:142-151 | An unreadable file gives `IoError` and unparsable text gives a JSON error. Otherwise loading succeeds exactly when decoding does, and a decoding error is returned as it is. A loaded configuration has the caller's `setup_dir`, whatever the document held or lacked. Its kind, tool and all other envelope fields are the decoded ones. |
| `TaskConfig.EventType` | src/agent/onefuzz-task/src/tasks/config.rs:196-213 | The event type string of each variant, as the match in `report_event` lists it. `EventTypeIsAlias` and `EventTypeDecodes` state what it is. |
| `TaskConfig.EventTypeIsAlias` | src/agent/onefuzz-task/src/tasks/config.rs:196-213 | Each variant's event type is its own alias, except `LibFuzzerDotnetFuzz`, which reports the alias of `LibFuzzerFuzz`. |
| `TaskConfig.EventTypeDecodes` | src/agent/onefuzz-task/src/tasks/config.rs:196-213 | Read back as a tag, the event type decodes to the reporting variant's kind for every variant except `LibFuzzerDotnetFuzz`, and that one reads back as `LibFuzzerFuzz`. |
| `TaskConfig.ReportEvent` | src/agent/onefuzz-task/src/tasks/config.rs:195-226 | There is one `task_start` event whose first datum is the variant's event type. `GenericGenerator` adds `ToolName(generator_exe)` and `GenericAnalysis` adds `ToolName(analyzer_exe)`. No other variant adds anything. |
| `Dispatch.StartupProperties` | src/agent/onefuzz-task/src/tasks/config.rs:229-240 | `JobId`, `TaskId`, `MachineId`, `Version`, `InstanceId` and `Role=Agent` come first, in that order. A seventh property, `ScalesetId`, follows if and only if the machine has a scaleset name. |
| `Dispatch.SetStartupProperties` | src/agent/onefuzz-task/src/tasks/config.rs:229-240 | The sequence of `set_property` calls is exactly the startup properties, in order. |
| `Dispatch.Handshake` | src/agent/onefuzz-task/src/tasks/config.rs:242-262 | A direction has handshake steps exactly when its endpoint is configured, and all of them belong to that direction. A configured direction creates its channel, connects to its endpoint and sends the end the agent needs, in that order. The task-to-agent direction has one more step, the fourth. |
| `Dispatch.Establish` | src/agent/onefuzz-task/src/tasks/config.rs:242-262 | One handshake either completes its whole plan, exactly when every channel creation, connect and handle send succeeds, or stops at the first of them that fails. A failed placeholder send does not stop it. |
| `Dispatch.Bootstrap` | src/agent/onefuzz-task/src/tasks/config.rs:228-262 | Properties, then the agent-to-task handshake, then the task-to-agent one. The trace is a prefix of that plan. It is the whole plan exactly when no fallible step fails, and otherwise it ends at the first failing step. |
| `Dispatch.RunnerFor` | src/agent/onefuzz-task/src/tasks/config.rs:267-317 | The runner invoked is the variant's own, and the call carries the configuration whose payload the runner consumes. Construction can fail only for the two libFuzzer fuzzing variants. Only the two report variants use `managed_run`. |
| `Dispatch.Planned` | src/agent/onefuzz-task/src/tasks/config.rs:228-318 | The whole trace of `run` when nothing fails: the startup properties, the configured handshakes, the start event and the runner invocation. `Run` is proved against it, and `PlannedShape`, `HandshakeOrder`, `HandshakePerformed` and `SinglePlaceholder` state its shape. |
| `Dispatch.Run` | src/agent/onefuzz-task/src/tasks/config.rs:228-318 | The trace is a prefix of the plan. It is the whole plan exactly when every fallible step succeeds, and then the runner's result is returned unchanged. An abort ends with the failed step, and an aborted trace has no start event and no runner invocation. |
| `Dispatch.PlannedShape` | src/agent/onefuzz-task/src/tasks/config.rs:228-318 | The properties come first and are the only properties set. The start event comes exactly once, second to last, and the runner invocation exactly once, last. |
| `Dispatch.HandshakeOrder` | src/agent/onefuzz-task/src/tasks/config.rs:242-262 | Every agent-to-task step precedes every task-to-agent step. Every connect goes to its direction's endpoint. Every handle sent is the end the agent needs: the sender end agent-to-task, the receiver end task-to-agent. |
| `Dispatch.HandshakePerformed` | src/agent/onefuzz-task/src/tasks/config.rs:242-262 | A direction has steps in the plan if and only if its endpoint is present. A configured direction creates its channel, connects to its endpoint and sends its handle, back to back in that order. |
| `Dispatch.SinglePlaceholder` | src/agent/onefuzz-task/src/tasks/config.rs:252-262 | `"hiiiii"` is sent if and only if the task-to-agent endpoint is present. It is sent at most once, on the task-to-agent channel, right after the receiver end was handed over. |
| `Dispatch.NoEndpointsNoHandshake` | src/agent/onefuzz-task/src/tasks/config.rs:242-266 | With neither endpoint configured, the properties are followed directly by the start event and the runner invocation. |
| `Dispatch.AbortPrecedesDispatch` | src/agent/onefuzz-task/src/tasks/config.rs:242-266 | A trace stopped at a failed fallible step contains no start event and no runner invocation. |
| `Dispatch.GenericAnalysisExample` | src/agent/onefuzz-task/src/tasks/config.rs:219-220 | A `generic_analysis` document with tool `tool.exe` loads as `GenericAnalysis`. Its start event is `[Type("generic_analysis"), ToolName("tool.exe")]`, and it is handed to the analysis runner. |

## Left out

- Reading the file and JSON parsing (`std::fs::read_to_string`, `serde_json`) are abstracted. Their outcome is the input `FileRead`, and a document whose fields have the wrong JSON type cannot be written as a `Document`.
- The per-kind configuration structs are not part of this model. The model keeps only their envelope and the `analyzer_exe` and `generator_exe` fields that `report_event` reads. Where the envelope sits in the JSON object, and every other kind-specific field, are left out.
- `Envelope.DecodeCommon`: when several required fields are missing, the contract says only that the reported field is one of them, because serde's choice among them is not stated by this code. The function itself reports the first in declaration order.
- `TaskConfig.Decode`: when both a required envelope field and the tool field are missing, the model reports the envelope field. The real precedence depends on the per-kind structs.
- Builds for operating systems other than Linux and Windows, where the `cfg` attributes remove some variants, are not modelled.
- The IPC channels are abstracted to the `succeeds` oracle. The model does not capture the channel ends that the task keeps, or their drop at the end of each handshake block. Panics become the `Aborted` outcome.
- The `info!` log lines are not modelled.
- The telemetry transport and its global property store are abstracted. Properties and events appear only as trace entries.
- The construction, timing and periodic emission of the heartbeat client (`init_task_heartbeat`) are abstracted to the constructor parameter of `InitHeartbeat`. The model's `Duration` is a millisecond count.
- The task runners (coverage, fuzzing, merge, report, regression, analysis, supervisor) are not modelled. They are async and long-running. The model records only which runner is invoked, how it is entered, and that its result is returned unchanged.
- `Uuid`, `Url`, `PathBuf`, `MachineIdentity` and the telemetry key types are reduced to plain values. A `Uuid` is a number below 2^128.
