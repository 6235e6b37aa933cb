# rocprofiler-sdk API callback-tracing client, modelled in Dafny

The modelled system is a client (tool) of AMD's rocprofiler-sdk. The host
calls `rocprofiler_configure` once. That call names the client "ExampleTool",
decodes and checks the SDK version, and hands back a `tool_init`/`tool_fini`
pair together with a vector of `source_location` records. `tool_init` records
the host's callback-tracing name tables in that vector. It then creates the
primary context, and configures it so that seven tracing kinds (four HSA
kinds, HIP runtime, marker core, marker name) go to `tool_tracing_callback`.
It also creates a separate control context that takes only marker-control
(ROCTx pause/resume) records. Last, it checks that the primary context is
valid and starts it. Each traced API call then reaches `tool_tracing_callback`:

- it times ENTER against EXIT through the per-call user-data word;
- for five HIP runtime operations, it pulls typed values out of the argument
  stream;
- it renders one description line and appends it to the vector.

The control callback stops the primary context on the ENTER of
`roctxProfilerPause` and starts it again on the EXIT of `roctxProfilerResume`.
`tool_fini` adds a last record and writes the numbered report. The status
macros of `common/defines.hpp` turn a failing host call into an exception.
The report renderer is `common/call_stack.hpp`. A separate PyTorch hook
(`torch/amd_rocm_torch.cpp`) routes memory reports for CUDA/HIP devices to a
malloc line or a free line, and it is installed once per process.

Modules, leaves first:

- `Util`: decimal rendering, `std::setw` padding, `std::quoted`, path file names.
- `Defines` (`defines.dfy`): `ROCPROFILER_CALL`, `ROCPROFILER_CHECK`, `ROCPROFILER_WARN` as functions to an `Outcome`; `HIP_HOST_*_FUNC`.
- `CallStack` (`call_stack.dfy`): `source_location`, the vector as a class, `print_call_stack`.
- `RocprofilerHost` (`host.dfy`): the SDK as an abstract object. It holds contexts (kind → registered callback, plus an active flag) and answers each call with a status. Which calls fail is fixed when it is built. A failing call changes nothing. It walks a record's argument descriptors at depth 1 or 2.
- `ArgExtraction` (`arguments.dfy`): operation dispatch and the name-to-slot visitors, as a fold over the argument stream.
- `Tracing` (`tracing.dfy`): the phase correlator, the description line and `tool_tracing_callback`.
- `ControlGate` (`control.dfy`): the pause/resume gate and `tool_control_init`.
- `ClientSession` (`session.dfy`): `tool_init`, `tool_fini`, `start`, `stop`, `shutdown`, `rocprofiler_configure`. The globals `client_id`, `client_fini_func` and `client_ctx`, and the static configuration result, are the fields of one `Session` object.
- `TorchMemory` (`torch.dfy`): the PyTorch memory-report hook.

A host call that fails is modelled as the `Fail` branch of an `Outcome`. It
carries the message the macro would throw, so every error path is a value.
The host numbers the client's calls, and the set of refused call numbers is
fixed when the host is built. So any call can be the one refused: the third
configure of `tool_init`, its final start, or the description walk after an
accepted typed walk. Every multi-call operation states how far it got: it
stops at the first refusal (`StopsAtFirstRefusal`), and it leaves the state
as the accepted calls made it.

## Model

| member | source | states |
|---|---|---|
| Defines.Call | common/defines.hpp:33-48 | Raises exactly when the status is not success. The message opens with `[<expression>][<file>:` and ends with `] <msg> failure (<status string>)`. |
| Defines.Check | common/defines.hpp:18-31 | Raises exactly when the status is not success. The message opens with `[<file>:` and ends with the numeric code and the status string. |
| Defines.Warn | common/defines.hpp:5-16 | Never raises. The warning line is empty exactly on success, and otherwise ends with the status string and "This is just a warning!". |
| Defines.HostMemoryFunctions | common/defines.hpp:50-56 | Both sides of the HIP 6.3 version test name `hipHostMalloc` as the allocator and `hipHostFree` as the deallocator. |
| Util.PadRightLayout | common/call_stack.hpp:57-59 | `std::left << std::setw(w)`: the width is max(w, length). The text comes first, is never truncated, and every fill character after it is a blank. |
| Util.PadLeftLayout | src/rocm_callback.cpp:363 | `std::setw(3)` with the default right adjustment: the width is max(w, length). Every fill character before the text is a blank, and the text ends the field. |
| Util.FilenameIsLastComponent | common/call_stack.hpp:58 | `path::filename()` is the longest suffix of the path without a '/': it holds no '/', and it is either the whole path or preceded by a '/'. |
| Util.Quoted | common/call_stack.hpp:58 | A streamed path is enclosed in double quotes, and what lies between them is the name with a backslash before every `"` and `\`. |
| Util.QuotedPlain | common/call_stack.hpp:58 | A name with no `"` or `\` is printed as itself between double quotes. |
| Util.DecimalRoundTrip | common/call_stack.hpp:57 | The decimal digits written for a number read back as that number. |
| CallStack.CallStackVec.Append | src/rocm_callback.cpp:320-321 | `emplace_back` adds exactly one record at the end, and nothing else changes. |
| CallStack.OutputName | common/call_stack.hpp:30 | A set environment variable (even an empty one) replaces the caller's output name. |
| CallStack.SelectDestination | common/call_stack.hpp:35-50 | "stdout" and "stderr" select the standard streams and any other name selects a file. When the file does not open, output goes to stderr under the name "stderr", after a complaint. The announced name always designates the stream used. |
| CallStack.RenderLineNumber | common/call_stack.hpp:57 | Every line starts with its record number in digits that read back as the number, followed by a blank or '/'. |
| CallStack.RenderLineInjective | common/call_stack.hpp:57-61 | For lines with the same function field and file names with nothing to escape, equal lines have the same record number, total, file name, line number and context: each field reads back from the `n/total ["file":line] function :: context` line. |
| CallStack.RenderLineContext | common/call_stack.hpp:60-61 | " :: context" is appended after the function field exactly when the context is not empty. |
| CallStack.LinesNumbered | common/call_stack.hpp:54-62 | There is one line per record, in vector order: line i renders record i as number i+1 of N. |
| CallStack.PrintCallStack | common/call_stack.hpp:25-67 | Returns the destination chosen for the resolved name, the announcement on stdout, and all N rendered lines. |
| ArgExtraction.Dispatch | src/rocm_callback.cpp:96-281 | A typed visitor runs exactly for HIP-runtime records of the five operations, and each operation gets its own visitor. Every other record takes the generic path. |
| ArgExtraction.DispatchHipOp | src/rocm_callback.cpp:97-231 | Each of the five operation ids dispatches to its own operation. |
| ArgExtraction.InitialSlots | src/rocm_callback.cpp:96-281 | The output slots of each visitor, keyed by the argument names it looks for; hipMemset's pointer slot is keyed "dst". |
| ArgExtraction.Visit | src/rocm_callback.cpp:246-273 | A descriptor writes only the slot of its own name; every other slot keeps its value. |
| ArgExtraction.ExtractSlot | src/rocm_callback.cpp:101-125 | After the walk, a slot holds the value of the last descriptor of its name, or its initial value when there is none. |
| ArgExtraction.ExtractUntouched | src/rocm_callback.cpp:131-152 | A name absent from the stream leaves its slot at the initial null/0. |
| ArgExtraction.ExtractLastWins | src/rocm_callback.cpp:167-190 | With a repeated name, the last descriptor of that name wins. |
| ArgExtraction.ExtractOnlyNamed | src/rocm_callback.cpp:256-267 | A slot that changed holds the value of some descriptor that bears its name. |
| ArgExtraction.MemsetPointerFromDst | src/rocm_callback.cpp:215-222 | hipMemset's pointer comes from the last "dst" argument, and no "ptr" slot exists. |
| ArgExtraction.MallocPointerFromPtr | src/rocm_callback.cpp:111-118 | hipMalloc's pointer is the last "ptr" argument, or null when there is none. |
| ArgExtraction.ExtractArgs | src/rocm_callback.cpp:123-125 | The visitor loop over the walked descriptors equals the fold `Extract`. |
| Tracing.ToU64 | src/rocm_callback.cpp:94 | Conversion to uint64_t gives the one value in [0, 2^64) that is congruent to the input modulo 2^64, so values already in range are kept. |
| Tracing.Correlate | src/rocm_callback.cpp:89-94 | ENTER stores `now` and reports 0. Any other phase leaves the word alone and reports (now − stored) mod 2^64: exactly now − stored when now ≥ stored, and +2^64 when the clock is behind. |
| Tracing.EnterExitElapsed | src/rocm_callback.cpp:89-94 | An ENTER at t0 followed by an EXIT at t1 ≥ t0 reports t1 − t0. |
| Tracing.ExitWithoutEnter | src/rocm_callback.cpp:91-94 | An EXIT that arrives while the word still holds its initial 0 reports the clock reading itself. |
| Tracing.InfoHeaderLayout | src/rocm_callback.cpp:284-287 | The description opens with "tid=", the thread id and ", cid=", and closes with ", dt_nsec=" and the elapsed time left-justified to width 6. |
| Tracing.InfoHeaderInjective | src/rocm_callback.cpp:284-287 | The header reads back: two equal headers have the same thread id, correlation id, kind, operation, phase and elapsed time. |
| Tracing.ArgPieceShape | src/rocm_callback.cpp:300-301 | Each argument piece opens with "(" for argument 0 and ", " for every other argument, and ends with "=" and the value string. |
| Tracing.ArgString | src/rocm_callback.cpp:289-307 | The argument string is empty exactly when the walk yields no argument. |
| Tracing.ArgStringConcat | src/rocm_callback.cpp:289-313 | Pieces appear in stream order: the string of a + b is the string of a followed by that of b. |
| Tracing.ArgStringOpens | src/rocm_callback.cpp:300 | The string opens with the first argument's piece, so with "(" when that is argument 0. |
| Tracing.InfoLine | src/rocm_callback.cpp:315-316 | " " + args + ")" is appended exactly when the argument string is not empty, and the header is kept as the prefix. |
| Tracing.MaxDeref | src/rocm_callback.cpp:309 | The dereference depth is 1 exactly on ENTER and 2 otherwise. |
| Tracing.BuildArgString | src/rocm_callback.cpp:311-313 | The visitor loop builds exactly the argument string of the walked descriptors. |
| Tracing.TracingCallback | src/rocm_callback.cpp:83-323 | The user-data word is updated as `Correlate` says, whatever follows. The callback makes one argument walk per record, two for the five HIP operations (typed walk first), and stops at the first refusal. A refused typed walk raises "failed to iterate <op> arguments"; a refused description walk, even after an accepted typed walk, raises "Failure iterating trace operation args". A refusal appends nothing. When both walks pass, exactly one record is appended, the description line. The typed extraction result exists exactly then, for the five HIP operations, and equals the fold at depth 1. Contexts never change. |
| Tracing.TraceRecord | src/rocm_callback.cpp:97-323 | The callback after the user-data update, for a given elapsed time: the same walks, messages, append and extraction as `TracingCallback`. |
| Tracing.TypedThenDescribe | src/rocm_callback.cpp:97-323 | The typed walk, then the description walk; which message a failure carries depends on which of the two calls was refused. |
| Tracing.UpdateUserData | src/rocm_callback.cpp:89-94 | The user-data update and the reported elapsed time are those of `Correlate`. |
| ControlGate.Command | src/rocm_callback.cpp:68-76 | Pause exactly on ENTER of roctxProfilerPause; Resume exactly on EXIT of roctxProfilerResume. |
| ControlGate.GateStep | src/rocm_callback.cpp:62-80 | One gate step changes only the primary context's active flag, and never the set of contexts or any configured kinds. |
| ControlGate.GateRunPrimary | src/rocm_callback.cpp:66-79 | After any run of records, the primary context is active exactly as the last pause/resume left it (unchanged if there was none), and its kinds never change. |
| ControlGate.GateRunIsolated | src/rocm_callback.cpp:62-80 | Every other context, including the control context, is identical after any number of pause/resume cycles. |
| ControlGate.ControlContextKeepsDelivering | src/rocm_callback.cpp:345-346 | A control context that delivers marker-control records keeps delivering them through any run. |
| ControlGate.CtrlCallback | src/rocm_callback.cpp:61-80 | Stops or starts the primary context as `Command` says, with one host call. Any other record is a no-op with no host call. A refused host call raises "pausing/resuming client context … failure" and changes nothing. |
| ControlGate.ControlInit | src/rocm_callback.cpp:326-347 | Create, configure and start, stopping at the first refusal. Existing contexts are untouched. If creation is accepted, one fresh context is added and is left as far as the accepted calls took it (`ControlAfter`): empty, then marker-control only, then started. The message names the refused step: creation, configuration, or "start of control context". |
| ControlGate.ControlAfter | src/rocm_callback.cpp:332-346 | After three accepted calls the context is the started marker-control context. It is active exactly after the start, and it serves marker-control records exactly from the configure on. |
| ControlGate.ConfigureControl | src/rocm_callback.cpp:336-346 | Configure, then start, of the created control context; a refused configure leaves it empty and unstarted, a refused start leaves it configured but stopped. |
| ClientSession.ServicesForDomain | src/rocm_callback.cpp:389-397 | Configuring a list of kinds in turn registers exactly those kinds, each with the tracing callback. |
| ClientSession.PrimaryKindsDisjointFromControl | src/rocm_callback.cpp:389-424 | The primary context gets exactly the kinds {1,2,3,4,5,7,9}, all to the tracing callback with the vector. Marker control is not among them, and none overlaps the control context's kinds. |
| ClientSession.NameEntriesCount | src/rocm_callback.cpp:360-380 | The name tables produce one record per kind plus one per operation. |
| ClientSession.IndexTagInjective | src/rocm_callback.cpp:363 | The " [nnn]" index tag, right-justified to width 3, is different for different indices. |
| ClientSession.KindEntryInjective | src/rocm_callback.cpp:362-368 | A kind's record gives back the kind's value and name. |
| ClientSession.OperationEntryInjective | src/rocm_callback.cpp:372-378 | An operation's record gives back the operation's index and name. |
| ClientSession.OperationEntryAt | src/rocm_callback.cpp:370-379 | Operation j of a kind is recorded j places after the kind's own record. |
| ClientSession.RecordNames | src/rocm_callback.cpp:358-380 | The outer loop appends the kinds' blocks, in table order. |
| ClientSession.RecordKind | src/rocm_callback.cpp:362-379 | One kind's record, then each of its operations' records, in order. |
| ClientSession.ConfigureTracing | src/rocm_callback.cpp:394-424 | One configure call registers the next traced kind with the tracing callback and the vector, or raises "callback tracing service failed to configure" and changes nothing. |
| ClientSession.ConfigureHsaKinds | src/rocm_callback.cpp:389-397 | The loop configures the four HSA kinds in order and stops at the first refusal. The kinds accepted before the refusal stay registered. |
| ClientSession.ConfigurePrimary | src/rocm_callback.cpp:389-424 | The seven kinds in order: the four HSA kinds, then HIP runtime (399), marker core (408) and marker name (417). It stops at the first refusal, and exactly the kinds accepted before it are registered. |
| ClientSession.ConfigureOne | src/rocm_callback.cpp:399-424 | One of the three single configure calls, stated for the whole run of calls since the first HSA kind. |
| ClientSession.DecodeVersion | src/rocm_callback.cpp:497-500 | minor < 100, patch < 100 and major·10000 + minor·100 + patch equals the input. |
| ClientSession.DecodeEncode | src/rocm_callback.cpp:497-500 | Decoding an encoded triple whose minor and patch are below 100 gives the triple back. |
| ClientSession.DecodeInjective | src/rocm_callback.cpp:497-500 | Different version numbers decode to different triples. |
| ClientSession.BannerInjective | src/rocm_callback.cpp:503-505 | The banner reads back: two equal banners of the client show the same priority, version triple and runtime version. |
| ClientSession.BannerShowsVersion | src/rocm_callback.cpp:497-505 | Clients configured with different version numbers log different banners. |
| ClientSession.ToolFini | src/rocm_callback.cpp:443-454 | Appends its own record last, then reports every record to "api_callback_trace.log" (or the override). The last line renders that record. |
| ClientSession.InitContexts | src/rocm_callback.cpp:384-440 | tool_init's thirteen context calls in order, stopping at the first refusal. The contexts are left as `ContextsAfterInit` says for the number of accepted calls. The message names the refused call. Without a refusal, the result is −1 iff the validity check reports 0 (then 12 calls are made and nothing is started), else 0. |
| ClientSession.SetUpContexts | src/rocm_callback.cpp:387-440 | The control context's setup, then the primary context's, as one run that stops at the first refusal. |
| ClientSession.ContextsAfterInitShape | src/rocm_callback.cpp:384-437 | After n accepted calls, earlier contexts are untouched. The primary context exists from the first call. It holds the kinds configured so far, and it is started only after all thirteen. The control context exists from the second call and is complete from the fourth. |
| ClientSession.InitAllAccepted | src/rocm_callback.cpp:384-440 | When every call is accepted, the primary context holds exactly the seven kinds and is started, beside the started control context. When the validity check rejects the context, the same kinds are registered and it is left stopped. |
| ClientSession.ConfigureAndStart | src/rocm_callback.cpp:389-440 | The primary context's seven kinds, the validity check and the start, in order, stopping at the first refusal. The primary context is left as `PrimaryAfter` says, and the message is that of the refused call. |
| ClientSession.ValidateAndStart | src/rocm_callback.cpp:426-437 | Returns −1 without starting anything when the context is invalid. Otherwise it starts the primary context and returns 0. A refused validity check raises "failure checking context validity", and a refused start raises "rocprofiler context start failed". |
| ClientSession.Session.constructor | src/rocm_callback.cpp:51-53 | No client id, no finalizer, and context handle 0. |
| ClientSession.Session.ToolInit | src/rocm_callback.cpp:349-441 | Appends its own record and the name-table records, then records the finalizer. The host-call part behaves as `InitContexts` says. `client_ctx` is assigned only when creation is accepted, and then keeps the fresh primary context even if a later call raises. |
| ClientSession.Session.Shutdown | src/rocm_callback.cpp:461-465 | Calls the recorded finalizer exactly when a client id is set. |
| ClientSession.Session.Start | src/rocm_callback.cpp:467-471 | Starts the primary context, or raises "rocprofiler context start failed" and changes nothing. |
| ClientSession.Session.Stop | src/rocm_callback.cpp:473-482 | Asks whether the host is initialized, and stops the primary context only when it is. An uninitialized host is left alone. Either call can be refused; a refusal changes nothing and raises the message of the refused call ("failed to retrieve init status" at 477, "rocprofiler context stop failed" at 480). |
| ClientSession.Session.Configure | src/rocm_callback.cpp:485-538 | Names the client and stores its id. A refused get_version raises "failed to get version info" (512). When get_version is accepted, it raises "version info mismatch" exactly when the decoded triple differs from the host's version. The configuration result is built on the first successful call only, around a fresh vector holding the configure record. |
| TorchMemory.IsCudaOrHip | torch/amd_rocm_torch.cpp:16-19 | True exactly for CUDA and HIP device types. |
| TorchMemory.AsInt64 | torch/amd_rocm_torch.cpp:57-58 | The (int64_t) cast is the two's-complement wrap: it lands in [−2^63, 2^63), agrees modulo 2^64, and is the identity on values in range. |
| TorchMemory.ReportMemoryUsageV2 | torch/amd_rocm_torch.cpp:48-67 | There is an event exactly for CUDA/HIP devices. It is a malloc exactly when the size is positive. Pointer, size and device index pass through, and the size_t totals pass through the cast. |
| TorchMemory.ReportMemoryUsageV1 | torch/amd_rocm_torch.cpp:70-89 | The same routing, with the int64_t totals passing through unchanged. |
| TorchMemory.SameRouting | torch/amd_rocm_torch.cpp:46-90 | Both overloads give the same event whenever the totals fit in int64_t. |
| TorchMemory.HugeTotalWrapsNegative | torch/amd_rocm_torch.cpp:57 | Under PyTorch 2.x, a total of 2^63 bytes or more reaches the callback as a negative number. |
| TorchMemory.MemoryProfilingEnabled | torch/amd_rocm_torch.cpp:44 | Always true. |
| TorchMemory.EventLine | torch/amd_rocm_torch.cpp:22-38 | A malloc event prints a line starting "Malloc tensor ", and a free event one starting "Free tensor ". |
| TorchMemory.EventLineKind | torch/amd_rocm_torch.cpp:27-37 | The printed line tells the two kinds apart. |
| TorchMemory.EventLineInjective | torch/amd_rocm_torch.cpp:22-38 | The printed line determines the event: kind, pointer, size, both totals and the device all read back from it. |
| TorchMemory.ProfilerInstaller.OnLoad | torch/amd_rocm_torch.cpp:105-116 | The first call installs the profiler and pushes it once. Later calls change nothing, so there is at most one push. |

## Left out

- The rocprofiler-sdk itself is foreign code: context creation, configuration, start/stop, the validity verdict, `rocprofiler_is_initialized`, `rocprofiler_get_version`, the argument walk and the name tables. It is the abstract `RocprofilerHost.Host`. Its rule that a kind is configured once per context, and its statuses, are modelling choices, not the SDK's documented behaviour.
- The numeric ids of the five HIP operations and of roctxProfilerPause/Resume are placeholders. Only their being distinct matters to the client. The tracing-kind and phase enumerators follow the SDK's ordering.
- `std::chrono::steady_clock::now()` is the `now` parameter. The client's `__FILE__` is the constant "rocm_callback.cpp". For a macro call that spans several lines, the `__LINE__` is taken as the line of the macro name.
- Stream I/O is left out: `std::cerr` (the macro's diagnostic, the hipLaunchKernel argument dump at src/rocm_callback.cpp:275-279), `std::clog` (the configure banner, which is returned instead) and `PRINT`/`fprintf` in the torch hook (`EventLine` gives the text). Writing the report to its stream is also out (`PrintCallStack` returns the lines), and so are flushing and deleting the file stream.
- The static mutex around the append (src/rocm_callback.cpp:318-322) and the atomic exchange in the torch installer are left out: only the sequential effect is modelled.
- Raw pointer casts and ABI widths are left out: argument values are already-typed `ArgValue`s. The uint32_t width of the version number and the uint32_t record line are not modelled (numbers are unbounded).
- The commented-out sink calls (src/rocm_callback.cpp:127-128, 154-155) are not modelled, so the model forwards no event anywhere. The typed extraction result is returned only so that it can be stated.
- `assert(callback_data != nullptr)` and `assert(tool_data != nullptr)` are excluded by the types: the vector is always a `CallStackVec`. `delete _call_stack` at the end of `tool_fini` is not modelled.
- CallStack.RenderLineInjective: the read-back is stated for file names without `"` or `\` and for a shared function field. An escaped name is described by `Util.Quoted` only, and a function name of 20 or more characters can run into the context, so the function field is not read back.
- ClientSession.Session.Shutdown: calling a null finalizer (configure ran, tool_init did not) is undefined behaviour in C++ and is reported as `NullFinalize`.
- ClientSession.Session.Configure: on calls after the first, the source still allocates a vector that is never used (it leaks). The model allocates it too but states only that the stored result is unchanged.
- The `shared_ptr`, its no-op deleter and `ThreadLocalDebugInfo::_push` in the torch installer are reduced to the `profilerSet` flag and a push counter.
- common/filesystem.hpp (header selection), common/name_info.hpp (wrapper over the SDK's name tables, here `Host.names`) and src/rocm_api_client.hpp (declarations only) are not part of this model.

Behaviour of the code worth noting:

- `tool_fini` does not stop any context. It only appends its record, writes the report and frees the vector.
- `shutdown` calls the finalizer whenever a client id is set, without checking that `tool_init` ran.
- The name-table index tags are padded with `std::setw(3)` on streams without `std::left`, so they are right-justified (`PadLeft`). The tracing description uses `std::left` and is left-justified (`PadRight`).
