/**
 * The ROCTx pause/resume gate: a throw-away context configured only for
 * marker-control records, started once, whose callback stops the primary
 * context on the ENTER of roctxProfilerPause and starts it again on the EXIT
 * of roctxProfilerResume.
 */
module ControlGate {
  import opened Util
  import opened Defines
  import opened RocprofilerHost
  import opened Tracing

  /**
   * ROCPROFILER_MARKER_CONTROL_API_ID_roctxProfilerPause and _Resume. The
   * numbers are placeholders: only their being distinct matters.
   */
  const ROCTX_PROFILER_PAUSE: nat := 0
  const ROCTX_PROFILER_RESUME: nat := 1

  datatype GateCommand = Pause | Resume | NoCommand

  /** What the control callback does with a record. */
  function Command(record: CallbackRecord): (c: GateCommand)
    ensures c == Pause <==>
      record.phase == PHASE_ENTER && record.kind == KIND_MARKER_CONTROL_API && record.operation == ROCTX_PROFILER_PAUSE
    ensures c == Resume <==>
      record.phase == PHASE_EXIT && record.kind == KIND_MARKER_CONTROL_API && record.operation == ROCTX_PROFILER_RESUME
  {
    if record.phase == PHASE_ENTER && record.kind == KIND_MARKER_CONTROL_API && record.operation == ROCTX_PROFILER_PAUSE then
      Pause
    else if record.phase == PHASE_EXIT && record.kind == KIND_MARKER_CONTROL_API && record.operation == ROCTX_PROFILER_RESUME then
      Resume
    else
      NoCommand
  }

  /** The contexts after the gate has seen one record, when the host call it makes succeeds. */
  function GateStep(contexts: map<ContextId, Context>, record: CallbackRecord, primary: ContextId): (r: map<ContextId, Context>)
    ensures r.Keys == contexts.Keys
    ensures forall id :: id in contexts && id != primary ==> r[id] == contexts[id]
    ensures primary in contexts ==> r[primary].services == contexts[primary].services
  {
    if primary !in contexts then contexts
    else match Command(record)
      case Pause => WithActive(contexts, primary, false)
      case Resume => WithActive(contexts, primary, true)
      case NoCommand => contexts
  }

  /** The contexts after the gate has seen the records in order, every host call succeeding. */
  function GateRun(contexts: map<ContextId, Context>, records: seq<CallbackRecord>, primary: ContextId): (r: map<ContextId, Context>)
    ensures r.Keys == contexts.Keys
  {
    if records == [] then contexts
    else GateStep(GateRun(contexts, records[..|records| - 1], primary), records[|records| - 1], primary)
  }

  /** The state the last pause or resume among the records asks for, if any. */
  function LastCommand(records: seq<CallbackRecord>): Option<bool> {
    if records == [] then None
    else match Command(records[|records| - 1])
      case Pause => Some(false)
      case Resume => Some(true)
      case NoCommand => LastCommand(records[..|records| - 1])
  }

  /**
   * After any run of records the primary context is active exactly as the
   * last pause or resume left it, or as it was when there was none; its
   * configured kinds never change.
   */
  lemma {:induction false} GateRunPrimary(contexts: map<ContextId, Context>, records: seq<CallbackRecord>, primary: ContextId)
    requires primary in contexts
    ensures GateRun(contexts, records, primary)[primary].services == contexts[primary].services
    ensures LastCommand(records).None? ==> GateRun(contexts, records, primary)[primary].active == contexts[primary].active
    ensures LastCommand(records).Some? ==> GateRun(contexts, records, primary)[primary].active == LastCommand(records).value
  {
    if records != [] {
      GateRunPrimary(contexts, records[..|records| - 1], primary);
    }
  }

  /**
   * Every other context, the gate's own control context included, is the
   * same after any number of pause/resume cycles: the control context stays
   * configured and active.
   */
  lemma {:induction false} GateRunIsolated(contexts: map<ContextId, Context>, records: seq<CallbackRecord>, primary: ContextId, other: ContextId)
    requires other in contexts && other != primary
    ensures GateRun(contexts, records, primary)[other] == contexts[other]
  {
    if records != [] {
      GateRunIsolated(contexts, records[..|records| - 1], primary, other);
    }
  }

  /** A records' run whose gate context delivers marker-control records before still delivers them after. */
  lemma ControlContextKeepsDelivering(contexts: map<ContextId, Context>, records: seq<CallbackRecord>, primary: ContextId, control: ContextId)
    requires control in contexts && control != primary && Delivers(contexts[control], KIND_MARKER_CONTROL_API)
    ensures Delivers(GateRun(contexts, records, primary)[control], KIND_MARKER_CONTROL_API)
  {
    GateRunIsolated(contexts, records, primary, control);
  }

  /**
   * tool_tracing_ctrl_callback: stop the primary context on the ENTER of a
   * pause, start it on the EXIT of a resume, leave everything alone
   * otherwise; a failing host call raises with the callback's message.
   */
  method CtrlCallback(host: Host, record: CallbackRecord, primary: ContextId) returns (r: Outcome)
    requires host.Valid()
    modifies host
    ensures host.Valid()
    ensures Command(record) == NoCommand ==> r.Pass? && host.contexts == old(host.contexts) && host.calls == old(host.calls)
    ensures Command(record) != NoCommand ==> host.calls == old(host.calls) + 1
    ensures Command(record) != NoCommand ==> (r.Pass? <==> host.Accepts(old(host.calls)) && primary in old(host.contexts))
    ensures r.Pass? ==> host.contexts == GateStep(old(host.contexts), record, primary)
    ensures r.Fail? ==> host.contexts == old(host.contexts)
    ensures r.Fail? && Command(record) == Pause ==> EndsWith(r.message, CallSuffix(PAUSE_FAILED, host.errorStatus))
    ensures r.Fail? && Command(record) == Resume ==> EndsWith(r.message, CallSuffix(RESUME_FAILED, host.errorStatus))
  {
    r := Pass;
    if record.phase == PHASE_ENTER && record.kind == KIND_MARKER_CONTROL_API && record.operation == ROCTX_PROFILER_PAUSE {
      var st := host.StopContext(primary);
      r := Call(st, PAUSE_EXPR, Site(CLIENT_FILE, 72), PAUSE_FAILED);
    } else if record.phase == PHASE_EXIT && record.kind == KIND_MARKER_CONTROL_API && record.operation == ROCTX_PROFILER_RESUME {
      var st := host.StartContext(primary);
      r := Call(st, RESUME_EXPR, Site(CLIENT_FILE, 78), RESUME_FAILED);
    }
  }

  /** The gate's ROCPROFILER_CALLs, as the macro stringifies them, and their messages. */
  const PAUSE_EXPR: string := "rocprofiler_stop_context(*ctx)"
  const PAUSE_FAILED: string := "pausing client context"
  const RESUME_EXPR: string := "rocprofiler_start_context(*ctx)"
  const RESUME_FAILED: string := "resuming client context"

  /** The calls of tool_control_init, as ROCPROFILER_CALL stringifies them, and their messages. */
  const CREATE_CONTROL_EXPR: string := "rocprofiler_create_context(&cntrl_ctx)"
  const CREATE_CONTROL_FAILED: string := "control context creation failed"
  const CONFIGURE_CONTROL_FAILED: string := "callback tracing service failed to configure"
  const START_CONTROL_EXPR: string := "rocprofiler_start_context(cntrl_ctx)"
  const START_CONTROL_FAILED: string := "start of control context"
  const CONFIGURE_CONTROL_EXPR: string :=
    "rocprofiler_configure_callback_tracing_service( cntrl_ctx, ROCPROFILER_CALLBACK_TRACING_MARKER_CONTROL_API, nullptr, 0, tool_tracing_ctrl_callback, &primary_ctx)"

  /** The context tool_control_init leaves behind: marker-control records only, to the gate, started. */
  function ControlContext(primary: ContextId): Context {
    Context(map[KIND_MARKER_CONTROL_API := ToolTracingCtrl(primary)], true)
  }

  /**
   * The control context once `n` of tool_control_init's three calls have
   * been accepted (one at least, or there is no context): created empty,
   * then configured for marker-control records, then started.
   */
  function ControlAfter(primary: ContextId, n: nat): (c: Context)
    ensures n >= 3 ==> c == ControlContext(primary)
    ensures c.active <==> n >= 3
    ensures c.services == if n >= 2 then ControlContext(primary).services else map[]
  {
    if n >= 3 then ControlContext(primary)
    else Context(if n >= 2 then map[KIND_MARKER_CONTROL_API := ToolTracingCtrl(primary)] else map[], false)
  }

  /**
   * tool_control_init: create the control context, configure it for
   * marker-control records only with the gate callback bound to the primary
   * context, and start it. The first refused call raises and stops the rest,
   * leaving the control context as far as it got; the contexts that existed
   * before are untouched either way.
   */
  method ControlInit(host: Host, primary: ContextId) returns (r: Outcome, control: ContextId)
    requires host.Valid()
    modifies host
    ensures host.Valid()
    ensures StopsAtFirstRefusal(host.refused, old(host.calls), host.calls, r.Pass?)
    ensures host.calls <= old(host.calls) + 3 && (r.Pass? ==> host.calls == old(host.calls) + 3)
    ensures AcceptedCalls(old(host.calls), host.calls, r.Pass?) == 0 ==> host.contexts == old(host.contexts)
    ensures AcceptedCalls(old(host.calls), host.calls, r.Pass?) >= 1 ==>
      control !in old(host.contexts)
      && host.contexts == old(host.contexts)[control := ControlAfter(primary, AcceptedCalls(old(host.calls), host.calls, r.Pass?))]
    ensures r.Fail? ==> EndsWith(r.message, CallSuffix(ControlFailure(AcceptedCalls(old(host.calls), host.calls, r.Pass?)), host.errorStatus))
  {
    var st;
    st, control := host.CreateContext();
    r := Call(st, CREATE_CONTROL_EXPR, Site(CLIENT_FILE, 333), ControlFailure(0));
    if r.Pass? {
      r := ConfigureControl(host, control, primary);
    }
  }

  /** The rest of tool_control_init once the control context exists: configure it, then start it. */
  method ConfigureControl(host: Host, control: ContextId, primary: ContextId) returns (r: Outcome)
    requires host.Valid() && control in host.contexts && host.contexts[control] == ControlAfter(primary, 1)
    modifies host
    ensures host.Valid()
    ensures StopsAtFirstRefusal(host.refused, old(host.calls), host.calls, r.Pass?)
    ensures host.calls <= old(host.calls) + 2 && (r.Pass? ==> host.calls == old(host.calls) + 2)
    ensures host.contexts == old(host.contexts)[control := ControlAfter(primary, 1 + AcceptedCalls(old(host.calls), host.calls, r.Pass?))]
    ensures r.Fail? ==> EndsWith(r.message, CallSuffix(ControlFailure(1 + AcceptedCalls(old(host.calls), host.calls, r.Pass?)), host.errorStatus))
  {
    var st := host.ConfigureService(control, KIND_MARKER_CONTROL_API, ToolTracingCtrl(primary));
    r := Call(st, CONFIGURE_CONTROL_EXPR, Site(CLIENT_FILE, 336), ControlFailure(1));
    if r.Fail? {
      return;
    }
    st := host.StartContext(control);
    r := Call(st, START_CONTROL_EXPR, Site(CLIENT_FILE, 346), ControlFailure(2));
  }

  /** The message tool_control_init raises with when the host refuses its call after accepting `n`. */
  function ControlFailure(n: nat): string {
    if n == 0 then CREATE_CONTROL_FAILED
    else if n == 1 then CONFIGURE_CONTROL_FAILED
    else START_CONTROL_FAILED
  }
}
