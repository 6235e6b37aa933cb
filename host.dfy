/**
 * The rocprofiler-sdk host, as far as the client sees it. The SDK is foreign
 * code; it is modelled as an object that owns the contexts (each a set of
 * configured tracing kinds with the callback registered for each, and an
 * active flag), answers every call with a status, walks a record's argument
 * stream, and reports its version, its initialisation state and its name
 * tables. The client's calls are numbered from 0 in the order it makes
 * them; which of them the host refuses is fixed when the host is built
 * (`refused`), so any call, the first or the fifth configure alike, can be
 * the one that fails, and a refused call changes nothing.
 */
module RocprofilerHost {
  import opened Util
  import opened Defines
  import opened CallStack

  type ContextId = nat

  /** rocprofiler_callback_tracing_kind_t enumerators the client uses. */
  const KIND_HSA_CORE_API: nat := 1
  const KIND_HSA_AMD_EXT_API: nat := 2
  const KIND_HSA_IMAGE_EXT_API: nat := 3
  const KIND_HSA_FINALIZE_EXT_API: nat := 4
  const KIND_HIP_RUNTIME_API: nat := 5
  const KIND_MARKER_CORE_API: nat := 7
  const KIND_MARKER_CONTROL_API: nat := 8
  const KIND_MARKER_NAME_API: nat := 9

  /** rocprofiler_callback_phase_t enumerators. */
  const PHASE_ENTER: nat := 1
  const PHASE_EXIT: nat := 2

  /**
   * The two callbacks the client registers, each with the client data it is
   * registered with: the tracing callback gets the call-stack vector, the
   * control callback the primary context.
   */
  datatype Callback = ToolTracing(stack: CallStackVec) | ToolTracingCtrl(primary: ContextId)

  /** A context: the callback configured for each tracing kind, and whether it is started. */
  datatype Context = Context(services: map<nat, Callback>, active: bool)

  /** Whether a context hands records of `kind` to its callback. */
  predicate Delivers(c: Context, kind: nat) {
    c.active && kind in c.services
  }

  /** An argument value, already typed as the host reports it. */
  datatype ArgValue = Pointer(addr: nat) | Unsigned(n: nat) | Signed(i: int) | Dim3(x: nat, y: nat, z: nat)

  /**
   * One argument of a record: its position, name and value, and the host's
   * rendering of the value when dereferenced once (`valueStr`) and twice
   * (`derefStr`).
   */
  datatype ArgDescriptor = ArgDescriptor(argNum: nat, name: string, value: ArgValue, valueStr: string, derefStr: string)

  /** What the argument walk hands the client's visitor for one argument. */
  datatype ArgView = ArgView(argNum: nat, name: string, value: ArgValue, valueStr: string)

  function ViewAt(d: ArgDescriptor, maxDeref: int): ArgView {
    ArgView(d.argNum, d.name, d.value, if maxDeref <= 1 then d.valueStr else d.derefStr)
  }

  /** The descriptors of a walk with the given maximum dereference depth, in stream order. */
  function ArgsAt(args: seq<ArgDescriptor>, maxDeref: int): (views: seq<ArgView>)
    ensures |views| == |args|
  {
    seq(|args|, i requires 0 <= i < |args| => ViewAt(args[i], maxDeref))
  }

  /** rocprofiler_callback_tracing_record_t, with its argument stream. */
  datatype CallbackRecord = CallbackRecord(
    threadId: nat, correlationId: nat, kind: nat, operation: nat, phase: nat,
    args: seq<ArgDescriptor>)

  datatype VersionTriple = VersionTriple(major: nat, minor: nat, patch: nat)

  /** One entry of the callback-tracing name tables: a kind and its operations' names. */
  datatype OperationName = OperationName(index: nat, name: string)
  datatype KindNames = KindNames(value: nat, name: string, operations: seq<OperationName>)

  /** rocprofiler_user_data_t: the per-call scratch word the host keeps for a correlation id. */
  class UserData {
    var value: nat

    constructor (v: nat)
      ensures value == v
    {
      value := v;
    }
  }

  /** The contexts after `id` is started (true) or stopped (false). */
  function WithActive(contexts: map<ContextId, Context>, id: ContextId, active: bool): map<ContextId, Context>
    requires id in contexts
  {
    contexts[id := contexts[id].(active := active)]
  }

  /**
   * A run of host calls numbered `from` to `to - 1` that stops at the first
   * refusal: at least one call is made, every call but the last is accepted,
   * and the run passes exactly when the last one is accepted too.
   */
  predicate StopsAtFirstRefusal(refused: set<nat>, from: nat, to: nat, passed: bool) {
    && from < to
    && (forall j :: from <= j < to - 1 ==> j !in refused)
    && (passed <==> to - 1 !in refused)
  }

  /** How many calls of such a run the host accepted. */
  function AcceptedCalls(from: nat, to: nat, passed: bool): nat {
    if to <= from then 0 else if passed then to - from else to - from - 1
  }

  /** A run that passes, followed by another run, is one run; the accepted calls add up. */
  lemma StopsAtFirstRefusalThen(refused: set<nat>, a: nat, b: nat, c: nat, passed: bool)
    requires StopsAtFirstRefusal(refused, a, b, true) && StopsAtFirstRefusal(refused, b, c, passed)
    ensures StopsAtFirstRefusal(refused, a, c, passed)
    ensures AcceptedCalls(a, c, passed) == (b - a) + AcceptedCalls(b, c, passed)
  {
  }

  class Host {
    var contexts: map<ContextId, Context>
    var nextId: ContextId
    /** How many calls the client has made so far. */
    var calls: nat
    /** The numbers of the calls the host refuses. */
    const refused: set<nat>
    const errorStatus: Status
    const acceptsContexts: bool
    const initialized: bool
    const version: VersionTriple
    const names: seq<KindNames>

    ghost predicate Valid()
      reads this
    {
      && !errorStatus.Success?
      && forall id :: id in contexts ==> id < nextId
    }

    constructor (refused: set<nat>, errorStatus: Status, acceptsContexts: bool, initialized: bool,
                 version: VersionTriple, names: seq<KindNames>)
      requires !errorStatus.Success?
      ensures Valid() && contexts == map[] && calls == 0
      ensures this.refused == refused && this.errorStatus == errorStatus
      ensures this.acceptsContexts == acceptsContexts && this.initialized == initialized
      ensures this.version == version && this.names == names
    {
      contexts := map[];
      nextId := 0;
      calls := 0;
      this.refused := refused;
      this.errorStatus := errorStatus;
      this.acceptsContexts := acceptsContexts;
      this.initialized := initialized;
      this.version := version;
      this.names := names;
    }

    /** Whether the host accepts the call numbered `n`. */
    function Accepts(n: nat): bool {
      n !in refused
    }

    /** The status the host gives the next call when it has no reason of its own to refuse it. */
    function Answer(): (st: Status)
      requires Valid()
      reads this
      ensures st.Success? <==> Accepts(calls)
      ensures !st.Success? ==> st == errorStatus
    {
      if Accepts(calls) then Success else errorStatus
    }

    /** rocprofiler_create_context: a fresh, empty, stopped context. */
    method CreateContext() returns (st: Status, id: ContextId)
      requires Valid()
      modifies this
      ensures Valid() && calls == old(calls) + 1
      ensures st.Success? <==> Accepts(old(calls))
      ensures st.Success? ==> id !in old(contexts) && contexts == old(contexts)[id := Context(map[], false)]
      ensures !st.Success? ==> contexts == old(contexts) && st == errorStatus
    {
      st := Answer();
      id := nextId;
      if st.Success? {
        contexts := contexts[id := Context(map[], false)];
        nextId := nextId + 1;
      }
      calls := calls + 1;
    }

    /** rocprofiler_configure_callback_tracing_service for every operation of `kind`; a kind is configured once. */
    method ConfigureService(id: ContextId, kind: nat, cb: Callback) returns (st: Status)
      requires Valid()
      modifies this
      ensures Valid() && calls == old(calls) + 1
      ensures st.Success? <==> Accepts(old(calls)) && id in old(contexts) && kind !in old(contexts)[id].services
      ensures st.Success? ==> contexts == old(contexts)[id := old(contexts)[id].(services := old(contexts)[id].services[kind := cb])]
      ensures !st.Success? ==> contexts == old(contexts) && st == errorStatus
    {
      st := Answer();
      if st.Success? && id in contexts && kind !in contexts[id].services {
        contexts := contexts[id := contexts[id].(services := contexts[id].services[kind := cb])];
      } else {
        st := errorStatus;
      }
      calls := calls + 1;
    }

    /** rocprofiler_start_context; starting a started context is harmless. */
    method StartContext(id: ContextId) returns (st: Status)
      requires Valid()
      modifies this
      ensures Valid() && calls == old(calls) + 1
      ensures st.Success? <==> Accepts(old(calls)) && id in old(contexts)
      ensures st.Success? ==> contexts == WithActive(old(contexts), id, true)
      ensures !st.Success? ==> contexts == old(contexts) && st == errorStatus
    {
      st := Answer();
      if st.Success? && id in contexts {
        contexts := WithActive(contexts, id, true);
      } else {
        st := errorStatus;
      }
      calls := calls + 1;
    }

    /** rocprofiler_stop_context; stopping a stopped context is harmless. */
    method StopContext(id: ContextId) returns (st: Status)
      requires Valid()
      modifies this
      ensures Valid() && calls == old(calls) + 1
      ensures st.Success? <==> Accepts(old(calls)) && id in old(contexts)
      ensures st.Success? ==> contexts == WithActive(old(contexts), id, false)
      ensures !st.Success? ==> contexts == old(contexts) && st == errorStatus
    {
      st := Answer();
      if st.Success? && id in contexts {
        contexts := WithActive(contexts, id, false);
      } else {
        st := errorStatus;
      }
      calls := calls + 1;
    }

    /** rocprofiler_context_is_valid: 1 when the host accepts the context's configuration, else 0. */
    method ContextIsValid(id: ContextId) returns (st: Status, valid: int)
      requires Valid()
      modifies this
      ensures Valid() && calls == old(calls) + 1 && contexts == old(contexts)
      ensures st.Success? <==> Accepts(old(calls))
      ensures !st.Success? ==> st == errorStatus
      ensures valid == if id in contexts && acceptsContexts then 1 else 0
    {
      st := Answer();
      valid := if id in contexts && acceptsContexts then 1 else 0;
      calls := calls + 1;
    }

    /** rocprofiler_is_initialized: non-zero once the SDK has finished initialising. */
    method IsInitialized() returns (st: Status, status: int)
      requires Valid()
      modifies this
      ensures Valid() && calls == old(calls) + 1 && contexts == old(contexts)
      ensures st.Success? <==> Accepts(old(calls))
      ensures !st.Success? ==> st == errorStatus
      ensures status != 0 <==> initialized
    {
      st := Answer();
      status := if initialized then 1 else 0;
      calls := calls + 1;
    }

    /** rocprofiler_get_version. */
    method GetVersion() returns (st: Status, v: VersionTriple)
      requires Valid()
      modifies this
      ensures Valid() && calls == old(calls) + 1 && contexts == old(contexts)
      ensures st.Success? <==> Accepts(old(calls))
      ensures !st.Success? ==> st == errorStatus
      ensures v == version
    {
      st := Answer();
      v := version;
      calls := calls + 1;
    }

    /**
     * rocprofiler_iterate_callback_tracing_kind_operation_args: the arguments
     * handed to the visitor, in stream order, rendered with `maxDeref`.
     */
    method IterateArgs(record: CallbackRecord, maxDeref: int) returns (st: Status, views: seq<ArgView>)
      requires Valid()
      modifies this
      ensures Valid() && calls == old(calls) + 1 && contexts == old(contexts)
      ensures st.Success? <==> Accepts(old(calls))
      ensures !st.Success? ==> st == errorStatus
      ensures st.Success? ==> views == ArgsAt(record.args, maxDeref)
    {
      st := Answer();
      views := if st.Success? then ArgsAt(record.args, maxDeref) else [];
      calls := calls + 1;
    }
  }
}
